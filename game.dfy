/** The `Game` component: the spawn cursor, the active skin set, the share
    link, and the handlers that drive the engine's world. */
module Game {
  import opened Wrappers
  import opened Catalog
  import opened Skins
  import opened Bodies
  import opened Merge
  import opened Engine
  import opened Spawn

  /** The world after one click whose canvas x-coordinate is `x`: the next id
      gets `createFruit` of tier `c` at (x, 50) and the id counter moves on. */
  function DropAt(w: WorldState, c: nat, x: real, images: seq<string>): WorldState
    requires c < SpawnCycle
  {
    CursorIsTier(c);
    WorldState(w.bodies[w.nextId := CreateFruit(w.nextId, Vec(x, DropHeight), c, images)], w.nextId + 1)
  }

  /** One click adds a body of tier `c` at (x, 50) under the next id, keeps
      every other body and keeps the world well formed. */
  lemma DropAtEffect(w: WorldState, c: nat, x: real, images: seq<string>)
    requires c < SpawnCycle
    ensures var r := DropAt(w, c, x, images);
      && r.nextId == w.nextId + 1 && w.nextId in r.bodies
      && r.bodies[w.nextId].fruitIndex == Some(c) && r.bodies[w.nextId].position == Vec(x, DropHeight)
      && (forall k :: k in w.bodies && k != w.nextId ==> k in r.bodies && r.bodies[k] == w.bodies[k])
      && (WellFormed(w) ==> WellFormed(r))
  {
    CursorIsTier(c);
  }

  /** The world after clicks at `xs[i]`, `xs[i + 1]`, ... in turn on a
      mounted canvas whose left edge is `rectLeft`, starting with cursor `c`:
      each click adds `createFruit` of the cursor's tier at (x, 50) under the
      next id, then advances the cursor. */
  function Drops(w: WorldState, c: nat, xs: seq<real>, i: nat, rectLeft: real, images: seq<string>): WorldState
    requires c < SpawnCycle && i <= |xs|
    decreases |xs| - i
  {
    if i == |xs| then w
    else Drops(DropAt(w, c, xs[i] - rectLeft, images), Advance(c), xs, i + 1, rectLeft, images)
  }

  /** The clicks keep the world well formed and move the id counter on by
      their number. */
  lemma {:induction false} DropsWellFormed(w: WorldState, c: nat, xs: seq<real>, i: nat, rectLeft: real, images: seq<string>)
    requires WellFormed(w) && c < SpawnCycle && i <= |xs|
    ensures WellFormed(Drops(w, c, xs, i, rectLeft, images))
    ensures Drops(w, c, xs, i, rectLeft, images).nextId == w.nextId + (|xs| - i)
    decreases |xs| - i
  {
    if i < |xs| {
      DropAtEffect(w, c, xs[i] - rectLeft, images);
      DropsWellFormed(DropAt(w, c, xs[i] - rectLeft, images), Advance(c), xs, i + 1, rectLeft, images);
    }
  }

  /** Clicks never touch a body that was already there. */
  lemma {:induction false} DropsKeep(w: WorldState, c: nat, xs: seq<real>, i: nat, rectLeft: real, images: seq<string>)
    requires c < SpawnCycle && i <= |xs|
    ensures var r := Drops(w, c, xs, i, rectLeft, images);
      forall k :: k in w.bodies && k < w.nextId ==> k in r.bodies && r.bodies[k] == w.bodies[k]
    decreases |xs| - i
  {
    if i < |xs| {
      DropAtEffect(w, c, xs[i] - rectLeft, images);
      DropsKeep(DropAt(w, c, xs[i] - rectLeft, images), Advance(c), xs, i + 1, rectLeft, images);
    }
  }

  /** The first click's fruit, of the cursor's tier, stays at id `nextId`. */
  lemma DropsFirst(w: WorldState, c: nat, xs: seq<real>, i: nat, rectLeft: real, images: seq<string>)
    requires c < SpawnCycle && i < |xs|
    ensures var r := Drops(w, c, xs, i, rectLeft, images);
      && w.nextId in r.bodies
      && r.bodies[w.nextId].fruitIndex == Some(c)
      && r.bodies[w.nextId].position == Vec(xs[i] - rectLeft, DropHeight)
  {
    DropAtEffect(w, c, xs[i] - rectLeft, images);
    DropsKeep(DropAt(w, c, xs[i] - rectLeft, images), Advance(c), xs, i + 1, rectLeft, images);
  }

  /** The bodies at ids n0, n0 + 1, ... carry the tiers `tiers` in order and
      lie at (xs[i] - rectLeft, 50), (xs[i + 1] - rectLeft, 50), ... */
  ghost predicate DroppedFrom(r: WorldState, n0: nat, tiers: seq<nat>, xs: seq<real>, i: nat, rectLeft: real)
    requires i + |tiers| == |xs|
    decreases |tiers|
  {
    tiers != [] ==>
      && n0 in r.bodies
      && r.bodies[n0].fruitIndex == Some(tiers[0])
      && r.bodies[n0].position == Vec(xs[i] - rectLeft, DropHeight)
      && DroppedFrom(r, n0 + 1, tiers[1..], xs, i + 1, rectLeft)
  }

  /** `DroppedFrom` read body by body. */
  lemma {:induction false} DroppedFromAll(r: WorldState, n0: nat, tiers: seq<nat>, xs: seq<real>, i: nat, rectLeft: real)
    requires i + |tiers| == |xs| && DroppedFrom(r, n0, tiers, xs, i, rectLeft)
    ensures forall k :: n0 <= k < n0 + |tiers| ==>
      k in r.bodies
      && r.bodies[k].fruitIndex == Some(tiers[k - n0])
      && r.bodies[k].position == Vec(xs[i + (k - n0)] - rectLeft, DropHeight)
    decreases |tiers|
  {
    if tiers != [] {
      DroppedFromAll(r, n0 + 1, tiers[1..], xs, i + 1, rectLeft);
    }
  }

  /** The clicks drop, under ids `nextId, nextId + 1, ...`, exactly the tiers
      `Spawned` lists. */
  lemma {:induction false} DropsDropSpawned(w: WorldState, c: nat, xs: seq<real>, i: nat, rectLeft: real, images: seq<string>)
    requires c < SpawnCycle && i <= |xs|
    ensures DroppedFrom(Drops(w, c, xs, i, rectLeft, images), w.nextId, Spawned(c, |xs| - i), xs, i, rectLeft)
    decreases |xs| - i
  {
    if i < |xs| {
      DropAtEffect(w, c, xs[i] - rectLeft, images);
      DropsFirst(w, c, xs, i, rectLeft, images);
      DropsDropSpawned(DropAt(w, c, xs[i] - rectLeft, images), Advance(c), xs, i + 1, rectLeft, images);
      assert Spawned(c, |xs| - i)[1..] == Spawned(Advance(c), |xs| - (i + 1));
    }
  }

  /** A player clicking at each `xs[i]` in turn: the world becomes `Drops`
      of the old one, so the i-th new body sits at id `nextId + i` and
      carries the i-th tier of `Spawned`, every earlier body stays, and the
      cursor ends n steps further on. */
  method ClickSequence(game: Game, xs: seq<real>, rectLeft: real)
    requires game.Valid()
    modifies game, game.world
    ensures game.Valid()
    ensures game.customImages == old(game.customImages) && game.shareUrl == old(game.shareUrl)
    ensures game.world.State() == Drops(old(game.world.State()), old(game.cursor), xs, 0, rectLeft, game.customImages)
    ensures game.cursor == CursorAfter(old(game.cursor), |xs|) == (old(game.cursor) + |xs|) % SpawnCycle
  {
    var world := game.world;
    ghost var images, c0 := game.customImages, game.cursor;
    ghost var target := Drops(world.State(), c0, xs, 0, rectLeft, images);
    var i := 0;
    while i < |xs|
      invariant 0 <= i <= |xs|
      invariant game.Valid()
      invariant game.customImages == images
      invariant game.shareUrl == old(game.shareUrl)
      invariant game.cursor == CursorAfter(c0, i)
      invariant Drops(world.State(), game.cursor, xs, i, rectLeft, images) == target
    {
      game.HandleClick(xs[i], Some(rectLeft));
      i := i + 1;
    }
    CursorAfterCycles(old(game.cursor), |xs|);
  }

  class Game {
    const world: World
    const storage: Storage
    var cursor: nat
    var customImages: seq<string>
    var shareUrl: Option<ShareLink>

    ghost predicate Valid()
      reads this, world
    {
      cursor < SpawnCycle && world.Valid()
    }

    /** Mounting the component: `initialImages` is what the stored entry
        parses to (the empty list when there is none), the cursor starts at
        the first tier and the world holds no fruit. */
    constructor (storage: Storage, initialImages: seq<string>)
      requires storage.entry.None? ==> initialImages == []
      ensures Valid() && fresh(world)
      ensures this.storage == storage && cursor == 0
      ensures customImages == initialImages && shareUrl == None
      ensures world.bodies == map[] && world.nextId == 0
    {
      world := new World();
      this.storage := storage;
      cursor := 0;
      customImages := initialImages;
      shareUrl := None;
    }

    /** `handleClick`: drops a fruit of the cursor's tier at the clicked x
        and height 50, then advances the cursor. `rectLeft` is the canvas's
        left edge, absent when the canvas is not mounted. */
    method HandleClick(clientX: real, rectLeft: Option<real>)
      requires Valid()
      modifies this, world
      ensures Valid()
      ensures customImages == old(customImages) && shareUrl == old(shareUrl)
      ensures rectLeft.None? ==> cursor == old(cursor) && world.State() == old(world.State())
      ensures rectLeft.Some? ==>
        && world.State() == DropAt(old(world.State()), old(cursor), clientX - rectLeft.value, old(customImages))
        && cursor == Advance(old(cursor))
    {
      if rectLeft.None? {
        return;
      }
      var x := clientX - rectLeft.value;
      CursorIsTier(cursor);
      var id := world.NewId();
      var fruit := CreateFruit(id, Vec(x, DropHeight), cursor, customImages);
      world.Add(fruit);
      cursor := Advance(cursor);
    }

    /** The `collisionStart` handler: every pair of the batch, in order, goes
        through the merge rule; `images` is the skin list `createFruit` sees. */
    method CollisionStart(pairs: seq<Pair>, images: seq<string>)
      requires Valid() && PairsTagged(pairs)
      modifies world
      ensures Valid()
      ensures world.State() == Batch(old(world.State()), pairs, images)
    {
      var i := 0;
      while i < |pairs|
        invariant 0 <= i <= |pairs|
        invariant PairsTagged(pairs[i..])
        invariant world.Valid()
        invariant Batch(world.State(), pairs[i..], images) == Batch(old(world.State()), pairs, images)
      {
        var a, b := pairs[i].a, pairs[i].b;
        assert pairs[i..][0] == pairs[i] && pairs[i..][1..] == pairs[i + 1..];
        assert WellTagged(a);
        ghost var before := world.State();
        if a.fruitIndex.Some? && b.fruitIndex.Some? {
          if a.fruitIndex.value == b.fruitIndex.value && a.fruitIndex.value < TierCount - 1 {
            world.Remove(a, b);
            var tier := a.fruitIndex.value + 1;
            var id := world.NewId();
            var fruit := CreateFruit(id, Midpoint(a.position, b.position), tier, images);
            world.Add(fruit);
          }
        }
        assert world.State() == Step(before, pairs[i], images);
        i := i + 1;
      }
    }

    /** `handleImagesSet`: the new list becomes the active skin set and the
        share link is rebuilt from the page's origin and path. */
    method HandleImagesSet(images: seq<string>, origin: string, path: string)
      requires Valid()
      modifies this
      ensures Valid()
      ensures customImages == images
      ensures shareUrl == Some(ShareLink(origin, path, images))
      ensures cursor == old(cursor)
    {
      customImages := images;
      shareUrl := Some(ShareLink(origin, path, images));
    }

    /** The boot effect: `shared` is the `images` query parameter and
        `parsed` what `JSON.parse` makes of it (none when it throws). A
        present, non-empty, parseable parameter replaces the skin set and is
        written to storage as received; otherwise nothing changes. */
    method Boot(shared: Option<string>, parsed: Option<seq<string>>)
      requires Valid()
      modifies this, storage
      ensures Valid()
      ensures cursor == old(cursor) && shareUrl == old(shareUrl)
      ensures shared.Some? && shared.value != "" && parsed.Some? ==>
        customImages == parsed.value && storage.entry == Some(Raw(shared.value))
      ensures !(shared.Some? && shared.value != "" && parsed.Some?) ==>
        customImages == old(customImages) && storage.entry == old(storage.entry)
    {
      if shared.Some? && shared.value != "" {
        match parsed {
          case Some(images) =>
            customImages := images;
            storage.entry := Some(Raw(shared.value));
          case None =>
        }
      }
    }
  }
}
