/** The fixed table of fruit tiers (`DEFAULT_FRUITS` in Game.tsx). A tier is
    an index into this table; the last index is the terminal tier, the
    watermelon, which never merges further. */
module Catalog {

  datatype Fruit = Fruit(name: string, radius: nat, color: string)

  const DefaultFruits: seq<Fruit> := [
    Fruit("cherry", 15, "#FF0000"),
    Fruit("strawberry", 20, "#FF69B4"),
    Fruit("grape", 25, "#800080"),
    Fruit("orange", 30, "#FFA500"),
    Fruit("apple", 35, "#FF0000"),
    Fruit("pear", 40, "#90EE90"),
    Fruit("peach", 45, "#FFE5B4"),
    Fruit("pineapple", 50, "#FFD700"),
    Fruit("melon", 55, "#98FF98"),
    Fruit("watermelon", 60, "#FF6B6B")
  ]

  /** `DEFAULT_FRUITS.length` */
  const TierCount: nat := |DefaultFruits|

  predicate IsTier(t: int) {
    0 <= t < TierCount
  }

  /** The index the merge rule refuses to go beyond (`DEFAULT_FRUITS.length - 1`). */
  predicate IsTerminal(t: int) {
    t == TierCount - 1
  }

  /** The radius of a tier: 15 for the cherry, growing by 5 per tier. */
  function Radius(t: int): (r: nat)
    requires IsTier(t)
    ensures r == 15 + 5 * t
  {
    DefaultFruits[t].radius
  }

  /** The default fill colour of a tier: a `#RRGGBB` string. */
  function Color(t: int): (c: string)
    requires IsTier(t)
    ensures |c| == 7 && c[0] == '#'
  {
    DefaultFruits[t].color
  }

  /** After the `#`, every default colour has six upper-case hexadecimal
      digits. */
  lemma ColorIsHex(t: int)
    requires IsTier(t)
    ensures forall i :: 1 <= i < 7 ==> Color(t)[i] in "0123456789ABCDEF"
  {
  }

  lemma CatalogShape()
    ensures TierCount == 10
    ensures Radius(0) == 15 && Radius(TierCount - 1) == 60
    ensures IsTerminal(9) && DefaultFruits[9].name == "watermelon"
  {
  }

  /** Radii rise strictly, by exactly 5 from one tier to the next. */
  lemma RadiiStrictlyIncrease(s: int, t: int)
    requires IsTier(s) && IsTier(t) && s < t
    ensures Radius(s) < Radius(t)
    ensures t == s + 1 ==> Radius(t) == Radius(s) + 5
  {
  }
}
