/** The merge rule of the `collisionStart` handler, stated on an abstract
    world: a map from engine body id to body, plus the engine's id counter. */
module Merge {
  import opened Wrappers
  import opened Catalog
  import opened Bodies

  datatype Pair = Pair(a: Body, b: Body)

  /** The bodies in the engine's world, keyed by id, and the id the next
      created body receives. */
  datatype WorldState = WorldState(bodies: map<nat, Body>, nextId: nat)

  /** Every body is stored under its own id, was created before the id
      counter's current value, and carries a catalog tier if it is tagged. */
  ghost predicate WellFormed(w: WorldState) {
    forall k :: k in w.bodies ==> w.bodies[k].id == k && k < w.nextId && WellTagged(w.bodies[k])
  }

  ghost predicate PairsTagged(pairs: seq<Pair>) {
    forall i :: 0 <= i < |pairs| ==> WellTagged(pairs[i].a) && WellTagged(pairs[i].b)
  }

  /** The position of the merged fruit: equally far from both inputs. */
  function Midpoint(p: Vec, q: Vec): (m: Vec)
    ensures m.x - p.x == q.x - m.x && m.y - p.y == q.y - m.y
  {
    Vec((p.x + q.x) / 2.0, (p.y + q.y) / 2.0)
  }

  /** Both bodies are tagged, with the same tier, and that tier is not the last. */
  predicate ShouldMerge(a: Body, b: Body) {
    && a.fruitIndex.Some? && b.fruitIndex.Some?
    && a.fruitIndex.value == b.fruitIndex.value
    && a.fruitIndex.value < TierCount - 1
  }

  /** One pair of the batch: on a merge both bodies leave the world and one
      fruit of the next tier, with the next id, enters at their midpoint. */
  function Step(w: WorldState, p: Pair, images: seq<string>): WorldState
    requires WellTagged(p.a)
  {
    if ShouldMerge(p.a, p.b) then
      var n := CreateFruit(w.nextId, Midpoint(p.a.position, p.b.position), p.a.fruitIndex.value + 1, images);
      WorldState((w.bodies - {p.a.id, p.b.id})[n.id := n], w.nextId + 1)
    else
      w
  }

  /** A whole `event.pairs` batch, pair by pair, in order, with no record
      of which bodies an earlier pair already removed. */
  function Batch(w: WorldState, pairs: seq<Pair>, images: seq<string>): WorldState
    requires PairsTagged(pairs)
    decreases |pairs|
  {
    if pairs == [] then w else Batch(Step(w, pairs[0], images), pairs[1..], images)
  }

  /** The number of pairs of a batch that pass the merge test: zero
      exactly when no pair of the batch passes it. */
  function MergeCount(pairs: seq<Pair>): (n: nat)
    ensures n == 0 <==> forall i :: 0 <= i < |pairs| ==> !ShouldMerge(pairs[i].a, pairs[i].b)
  {
    if pairs == [] then 0
    else (if ShouldMerge(pairs[0].a, pairs[0].b) then 1 else 0) + MergeCount(pairs[1..])
  }

  /** A pair changes the world exactly when both bodies are tagged, with the
      same tier, and that tier is not the terminal one. Untagged bodies
      (walls), different tiers and two watermelons leave the world as it was. */
  lemma MergeDecision(w: WorldState, a: Body, b: Body, images: seq<string>)
    requires WellTagged(a)
    ensures Step(w, Pair(a, b), images) != w <==>
      && a.fruitIndex.Some? && b.fruitIndex.Some?
      && a.fruitIndex.value == b.fruitIndex.value
      && !IsTerminal(a.fruitIndex.value)
  {
  }

  /** The fruit a merge creates is one tier up from its inputs, and that
      tier is a catalog tier other than the first. */
  lemma MergedTierInRange(w: WorldState, a: Body, b: Body, images: seq<string>)
    requires WellFormed(w) && WellTagged(a) && ShouldMerge(a, b)
    ensures var n := Step(w, Pair(a, b), images).bodies[w.nextId];
      && n.fruitIndex == Some(a.fruitIndex.value + 1)
      && IsTier(n.fruitIndex.value) && n.fruitIndex.value >= 1
  {
  }

  /** What a merging pair does to the world: the two inputs are gone, one new
      fruit of the next tier sits at their midpoint under the next id, and
      every other body is untouched. */
  lemma MergeEffect(w: WorldState, a: Body, b: Body, images: seq<string>)
    requires WellFormed(w) && WellTagged(a) && ShouldMerge(a, b)
    ensures var r := Step(w, Pair(a, b), images);
      && r.nextId == w.nextId + 1
      && r.bodies.Keys == (w.bodies.Keys - {a.id, b.id}) + {w.nextId}
      && (forall k :: k in w.bodies && k != a.id && k != b.id ==> r.bodies[k] == w.bodies[k])
      && r.bodies[w.nextId].fruitIndex == Some(a.fruitIndex.value + 1)
      && r.bodies[w.nextId].position == Midpoint(a.position, b.position)
      && r.bodies[w.nextId].radius == Radius(a.fruitIndex.value + 1)
  {
  }

  /** When the two inputs are distinct bodies of the world, a merge removes
      two and adds exactly one, so the world shrinks by one body. */
  lemma MergeShrinksWorld(w: WorldState, a: Body, b: Body, images: seq<string>)
    requires WellFormed(w) && WellTagged(a) && ShouldMerge(a, b)
    requires a.id != b.id && a.id in w.bodies && b.id in w.bodies
    ensures |Step(w, Pair(a, b), images).bodies| == |w.bodies| - 1
  {
  }

  /** The merge does not depend on which body the engine calls `bodyA`. */
  lemma StepSymmetric(w: WorldState, a: Body, b: Body, images: seq<string>)
    requires WellTagged(a) && WellTagged(b)
    ensures Step(w, Pair(a, b), images) == Step(w, Pair(b, a), images)
  {
  }

  lemma StepWellFormed(w: WorldState, p: Pair, images: seq<string>)
    requires WellFormed(w) && WellTagged(p.a)
    ensures WellFormed(Step(w, p, images))
    ensures Step(w, p, images).nextId >= w.nextId
  {
  }

  /** Every body a batch leaves in the world carries a catalog tier. */
  lemma {:induction false} BatchWellFormed(w: WorldState, pairs: seq<Pair>, images: seq<string>)
    requires WellFormed(w) && PairsTagged(pairs)
    ensures WellFormed(Batch(w, pairs, images))
    decreases |pairs|
  {
    if pairs != [] {
      StepWellFormed(w, pairs[0], images);
      BatchWellFormed(Step(w, pairs[0], images), pairs[1..], images);
    }
  }

  /** A batch creates exactly one body per pair that passes the merge test. */
  lemma {:induction false} BatchCreatesOnePerMerge(w: WorldState, pairs: seq<Pair>, images: seq<string>)
    requires PairsTagged(pairs)
    ensures Batch(w, pairs, images).nextId == w.nextId + MergeCount(pairs)
    decreases |pairs|
  {
    if pairs != [] {
      BatchCreatesOnePerMerge(Step(w, pairs[0], images), pairs[1..], images);
    }
  }

  /** A batch in which no pair passes the merge test (walls, different
      tiers, watermelons only) leaves the world exactly as it was. */
  lemma {:induction false} BatchWithoutMergeLeavesWorld(w: WorldState, pairs: seq<Pair>, images: seq<string>)
    requires PairsTagged(pairs) && MergeCount(pairs) == 0
    ensures Batch(w, pairs, images) == w
    decreases |pairs|
  {
    if pairs != [] {
      assert !ShouldMerge(pairs[0].a, pairs[0].b);
      assert forall i :: 0 <= i < |pairs[1..]| ==> pairs[1..][i] == pairs[i + 1];
      BatchWithoutMergeLeavesWorld(w, pairs[1..], images);
    }
  }

  /** As written, a batch holding (A, B) and (A, C) for three fruits of one
      tier merges twice: A is removed by the first pair and still counted by
      the second, so two new fruits appear and all three inputs are gone. */
  lemma DoubleMergeAsWritten(w: WorldState, a: Body, b: Body, c: Body, t: int, images: seq<string>)
    requires WellFormed(w)
    requires a.id in w.bodies && b.id in w.bodies && c.id in w.bodies
    requires 0 <= t < TierCount - 1
    requires a.fruitIndex == b.fruitIndex == c.fruitIndex == Some(t)
    ensures var r := Batch(w, [Pair(a, b), Pair(a, c)], images);
      && r.nextId == w.nextId + 2
      && w.nextId in r.bodies && w.nextId + 1 in r.bodies
      && r.bodies[w.nextId].fruitIndex == r.bodies[w.nextId + 1].fruitIndex == Some(t + 1)
      && a.id !in r.bodies && b.id !in r.bodies && c.id !in r.bodies
      && (a.id != b.id && a.id != c.id && b.id != c.id ==> |r.bodies| == |w.bodies| - 1)
  {
    var pairs := [Pair(a, b), Pair(a, c)];
    assert PairsTagged(pairs);
    var w1 := Step(w, pairs[0], images);
    var w2 := Step(w1, pairs[1], images);
    assert Batch(w1, pairs[1..], images) == Batch(w2, pairs[2..], images);
    assert pairs[2..] == [];
    assert w.nextId !in w.bodies;
  }

  /** Two cherries at (100, 200) and (110, 205) become one strawberry of
      radius 20 at (105, 202.5), and neither cherry remains. */
  lemma CherryExample(w: WorldState, images: seq<string>)
    requires WellFormed(w)
    requires 1 in w.bodies && 2 in w.bodies
    requires w.bodies[1].fruitIndex == w.bodies[2].fruitIndex == Some(0)
    requires w.bodies[1].position == Vec(100.0, 200.0) && w.bodies[2].position == Vec(110.0, 205.0)
    ensures var r := Step(w, Pair(w.bodies[1], w.bodies[2]), images);
      && var n := r.bodies[w.nextId];
      && n.fruitIndex == Some(1) && n.radius == 20 && n.position == Vec(105.0, 202.5)
      && 1 !in r.bodies && 2 !in r.bodies && |r.bodies| == |w.bodies| - 1
  {
  }
}
