/** The skin set: one image string per tier (an empty string means "no
    custom image"), as stored in the browser, shared by link and handed to
    the uploader. The game keeps it under the storage key
    `watermelon-custom-images` and shares it in the `images` query
    parameter. */
module Skins {
  import opened Wrappers
  import opened Catalog

  /** The number of empty slots the uploader is given when there is no custom list. */
  const DefaultSlotCount: nat := 10

  /** What the storage entry holds: the shared-link text exactly as it came
      in the URL, or the JSON text of an image array written by the uploader. */
  datatype Stored = Raw(text: string) | Stringified(images: seq<string>)

  /** The browser's local storage, reduced to the one entry the game uses. */
  class Storage {
    var entry: Option<Stored>

    constructor (entry: Option<Stored>)
      ensures this.entry == entry
    {
      this.entry := entry;
    }
  }

  /** The share link `origin + path + "?images=" + JSON(images)`; the
      URL and JSON encodings are left abstract. */
  datatype ShareLink = ShareLink(origin: string, path: string, images: seq<string>)

  /** `customImages[t] || ''`: an index past the end of the list reads as
      `undefined`, which the source turns into the empty string. */
  function SlotImage(images: seq<string>, t: int): string
  {
    if 0 <= t < |images| then images[t] else ""
  }

  /** The list given to the uploader: the custom list when it is non-empty,
      otherwise ten empty slots, one per tier. */
  function UploaderDefaults(custom: seq<string>): (r: seq<string>)
    ensures |custom| > 0 ==> r == custom
    ensures |custom| == 0 ==> |r| == TierCount
    ensures forall i :: 0 <= i < |r| ==> r[i] == SlotImage(custom, i)
  {
    if |custom| > 0 then custom else seq(DefaultSlotCount, _ => "")
  }
}
