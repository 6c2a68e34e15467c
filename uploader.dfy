/** The `ImageUploader` component: one slot per entry of its image list,
    each replaced by the data URL of the file the player picks. */
module Uploader {
  import opened Wrappers
  import opened Catalog
  import opened Skins
  import opened Game

  /** `[...images]` followed by `newImages[index] = dataUrl`: a fresh copy
      that differs from `images` in the one slot, whose length it keeps. */
  method WithSlot(images: seq<string>, index: nat, dataUrl: string) returns (newImages: seq<string>)
    requires index < |images|
    ensures |newImages| == |images|
    ensures newImages[index] == dataUrl
    ensures forall j :: 0 <= j < |images| && j != index ==> newImages[j] == images[j]
  {
    var copy := new string[|images|](j requires 0 <= j < |images| => images[j]);
    copy[index] := dataUrl;
    newImages := copy[..];
  }

  /** The game rendering its uploader: the uploader starts from the
      game's skins, or from one empty slot per tier when the game has none,
      and shares the game's storage. */
  method MountUploader(game: Game) returns (u: ImageUploader)
    ensures fresh(u) && u.storage == game.storage
    ensures u.images == UploaderDefaults(game.customImages)
    ensures |game.customImages| == 0 ==> |u.images| == TierCount
  {
    u := new ImageUploader(UploaderDefaults(game.customImages), game.storage);
  }

  class ImageUploader {
    var images: seq<string>
    const storage: Storage

    constructor (defaultImages: seq<string>, storage: Storage)
      ensures images == defaultImages && this.storage == storage
    {
      images := defaultImages;
      this.storage := storage;
    }

    /** `handleImageUpload`: `file` is the data URL the chosen file reads
        as, absent when no file was chosen. The new list becomes this
        component's state, is handed to the game, and overwrites the stored
        entry. */
    method HandleImageUpload(file: Option<string>, index: nat, game: Game, origin: string, path: string)
      requires index < |images|
      requires game.storage == storage && game.Valid()
      modifies this, game, storage
      ensures game.Valid()
      ensures file.None? ==>
        images == old(images) && storage.entry == old(storage.entry)
        && game.customImages == old(game.customImages) && game.shareUrl == old(game.shareUrl)
      ensures file.Some? ==>
        && |images| == |old(images)|
        && images == old(images)[index := file.value]
        && game.customImages == images
        && game.shareUrl == Some(ShareLink(origin, path, images))
        && storage.entry == Some(Stringified(images))
      ensures game.cursor == old(game.cursor)
    {
      if file.None? {
        return;
      }
      var newImages := WithSlot(images, index, file.value);
      images := newImages;
      game.HandleImagesSet(newImages, origin, path);
      storage.entry := Some(Stringified(newImages));
    }
  }
}
