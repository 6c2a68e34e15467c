/** The spawn cursor (`currentFruitRef`): the tier the next click drops,
    always one of the three smallest tiers. */
module Spawn {
  import opened Catalog

  /** The number of tiers a click can drop. */
  const SpawnCycle: nat := 3

  /** The height at which a clicked fruit appears. */
  const DropHeight: real := 50.0

  /** The cursor's step: the next easy tier, wrapping from the third back
      to the first. */
  function Advance(c: nat): (r: nat)
    requires c < SpawnCycle
    ensures r < SpawnCycle
  {
    if c + 1 < SpawnCycle then c + 1 else 0
  }

  /** On every cursor value the step is the source's `(c + 1) % 3`. */
  lemma AdvanceIsMod(c: nat)
    requires c < SpawnCycle
    ensures Advance(c) == (c + 1) % SpawnCycle
    ensures c + 1 < SpawnCycle ==> Advance(c) == c + 1
    ensures c + 1 == SpawnCycle ==> Advance(c) == 0
  {
  }

  /** The tiers dropped by `n` clicks that start with the cursor at `c`. */
  function Spawned(c: nat, n: nat): (s: seq<nat>)
    requires c < SpawnCycle
    ensures |s| == n
    decreases n
  {
    if n == 0 then [] else [c] + Spawned(Advance(c), n - 1)
  }

  /** Every cursor value names one of the smallest tiers of the catalog. */
  lemma CursorIsTier(c: nat)
    requires c < SpawnCycle
    ensures IsTier(c) && !IsTerminal(c)
  {
  }

  /** One click from `(c + i) % 3` lands on `(c + i + 1) % 3`. */
  lemma AdvanceFrom(c: nat, i: nat)
    ensures Advance((c + i) % SpawnCycle) == (c + i + 1) % SpawnCycle
  {
    AdvanceIsMod((c + i) % SpawnCycle);
  }

  /** The cursor after `n` clicks that start with it at `c`. */
  function CursorAfter(c: nat, n: nat): (r: nat)
    requires c < SpawnCycle
    ensures r < SpawnCycle
    decreases n
  {
    if n == 0 then c else Advance(CursorAfter(c, n - 1))
  }

  /** n clicks move the cursor n steps round the cycle of three. */
  lemma {:induction false} CursorAfterCycles(c: nat, n: nat)
    requires c < SpawnCycle
    ensures CursorAfter(c, n) == (c + n) % SpawnCycle
    decreases n
  {
    if n > 0 {
      CursorAfterCycles(c, n - 1);
      AdvanceFrom(c, n - 1);
    }
  }

  /** Three clicks bring the cursor back where it was. */
  lemma AdvanceThrice(c: nat)
    requires c < SpawnCycle
    ensures Advance(Advance(Advance(c))) == c
  {
  }

  /** The dropped tiers run c, c+1, c+2 modulo 3: from a fresh session,
      0, 1, 2, 0, 1, 2, ... */
  lemma {:induction false} SpawnedCycles(c: nat, n: nat)
    requires c < SpawnCycle
    ensures |Spawned(c, n)| == n
    ensures forall i :: 0 <= i < n ==> Spawned(c, n)[i] == (c + i) % SpawnCycle
    decreases n
  {
    if n > 0 {
      var c' := Advance(c);
      SpawnedCycles(c', n - 1);
      forall i | 0 <= i < n
        ensures Spawned(c, n)[i] == (c + i) % SpawnCycle
      {
        if i > 0 {
          assert Spawned(c, n)[i] == Spawned(c', n - 1)[i - 1];
          AdvanceIsMod(c);
        }
      }
    }
  }
}
