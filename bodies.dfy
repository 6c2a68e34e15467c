/** Bodies in the physics world as far as the game sees them: an engine
    identity, an optional tier tag, a position and the attributes
    `createFruit` chooses. */
module Bodies {
  import opened Wrappers
  import opened Catalog
  import opened Skins

  /** A position, with JavaScript numbers idealised as exact reals. */
  datatype Vec = Vec(x: real, y: real)

  /** `fruitIndex` is `None` for bodies the game did not tag (the walls). */
  datatype Body = Body(
    id: nat,
    fruitIndex: Option<int>,
    position: Vec,
    radius: nat,
    restitution: real,
    texture: string,
    fill: string)

  const FruitRestitution: real := 0.3

  const Transparent := "transparent"

  /** A body whose tag, if any, is a tier of the catalog. */
  predicate WellTagged(b: Body) {
    b.fruitIndex.Some? ==> IsTier(b.fruitIndex.value)
  }

  /** `createFruit(x, y, fruitIndex)`: a circle of the tier's radius tagged
      with the tier, drawn with the custom image of that slot when there is
      one and with the tier's colour otherwise. */
  function CreateFruit(id: nat, at: Vec, tier: int, images: seq<string>): (b: Body)
    requires IsTier(tier)
    ensures b.id == id && b.position == at
    ensures b.fruitIndex == Some(tier) && WellTagged(b)
    ensures b.radius == 15 + 5 * tier
    ensures b.texture == SlotImage(images, tier)
    ensures 0 <= tier < |images| ==> b.texture == images[tier]
    ensures !(tier < |images|) ==> b.texture == "" && b.fill == Color(tier)
  {
    var image := SlotImage(images, tier);
    Body(id, Some(tier), at, Radius(tier), FruitRestitution, image, FillStyle(image, tier))
  }

  /** `fillStyle`: transparent behind a custom image, the tier's colour
      otherwise (an empty string counts as no image). */
  function FillStyle(image: string, tier: int): string
    requires IsTier(tier)
  {
    if |image| > 0 then Transparent else Color(tier)
  }

  /** The fill is transparent exactly when the slot holds an image, and the
      tier's colour otherwise. */
  lemma CreateFruitFill(id: nat, at: Vec, tier: int, images: seq<string>)
    requires IsTier(tier)
    ensures CreateFruit(id, at, tier, images).fill == Transparent <==> SlotImage(images, tier) != ""
    ensures SlotImage(images, tier) == "" ==> CreateFruit(id, at, tier, images).fill == Color(tier)
  {
  }
}
