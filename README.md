# Watermelon merge game — a Dafny model of its gameplay rules

The game drops circular fruits into a box. Two fruits of the same tier that
touch fuse into one fruit of the next tier, placed halfway between them. Each
tier can be drawn with a player-supplied image instead of its default colour,
and that skin set can be shared through a URL parameter.

This project models the rules living in `src/components/Game.tsx` and
`src/components/ImageUploader.tsx`:

- `catalog.dfy` (`Catalog`): the ten-entry `DEFAULT_FRUITS` table, with its radii and colours.
- `bodies.dfy` (`Bodies`): a world body as the game sees it, and `createFruit`'s choice of radius, tag, texture and fill.
- `merge.dfy` (`Merge`): the `collisionStart` rule on an abstract world. The world is a map from engine body id to body, plus the engine's id counter. `Step` handles one pair and `Batch` a whole `event.pairs` list.
- `engine.dfy` (`Engine`): `engine.world` as a class. `Remove`, `Add` and `NewId` stand in for `World.remove`, `World.add` and the id a new body receives.
- `spawn.dfy` (`Spawn`): the spawn cursor `currentFruitRef`, which cycles through values modulo 3.
- `skins.dfy` (`Skins`): the storage entry, the share link, the slot lookup `customImages[i] || ''` and the uploader's default list.
- `game.dfy` (`Game`): the `Game` component as a class. It has the click handler, the collision handler (a loop over the pairs), `handleImagesSet` and the boot effect.
- `uploader.dfy` (`Uploader`): the `ImageUploader` component and its copy-and-set-slot update.

Positions are exact `real`s. Browser storage is one `Storage` object holding
the game's single entry. That entry is either the shared-link text exactly as
received (`Raw`) or the JSON text of an image array (`Stringified`). The share
link is a record of origin, path and images; its URL and JSON encoding are not
modelled.

Points where the code behaves differently from what a reader might assume; the model follows the code:

- The batch loop keeps no set of already-consumed bodies. A batch holding (A, B) and (A, C) for three fruits of one tier merges twice. A is removed by the first pair and matched again by the second, so two new fruits appear. `Merge.DoubleMergeAsWritten` proves this.
- A parsed shared payload is used whatever its length. Only a `JSON.parse` failure or an absent or empty parameter leaves the skins unchanged.
- `handleImagesSet` does not write storage. The uploader does, after notifying the game.
- The active list can be empty, for example before any upload with no stored entry. A slot past its end reads as the empty string, so the tier's colour is used.
- Reading a malformed stored entry at mount makes `JSON.parse` throw, uncaught. It is not replaced by an empty skin set.

## Model

| member | source | states |
|---|---|---|
| Catalog.Radius | src/components/Game.tsx:5-16 | the radius of tier t is 15 + 5·t |
| Catalog.Color | src/components/Game.tsx:5-16 | every default colour is a seven-character string starting with `#` |
| Catalog.ColorIsHex | src/components/Game.tsx:5-16 | after the `#`, every default colour has six upper-case hexadecimal digits (`#RRGGBB`) |
| Catalog.CatalogShape | src/components/Game.tsx:5-16 | the table has exactly 10 tiers; radius 15 at index 0 and 60 at index 9; index 9, the watermelon, is the terminal tier |
| Catalog.RadiiStrictlyIncrease | src/components/Game.tsx:5-16 | radii strictly increase with the tier, by exactly 5 between neighbours |
| Skins.UploaderDefaults | src/components/Game.tsx:143 | a non-empty custom list is passed through unchanged; an empty one becomes 10 empty slots, one per tier |
| Skins.Storage.constructor | src/components/Game.tsx:23 | the storage object starts with the given entry, or none when nothing is stored |
| Bodies.CreateFruit | src/components/Game.tsx:82-98 | the body has the given id and position, is tagged with the tier, has radius 15 + 5·tier, and uses the slot's image as its texture; for a tier past the end of the image list the texture is empty and the fill is the tier's colour |
| Bodies.FillStyle | src/components/Game.tsx:92 | definition: `transparent` behind a non-empty slot image, the tier's colour otherwise |
| Bodies.CreateFruitFill | src/components/Game.tsx:92 | the fill is `transparent` exactly when the slot's image is non-empty, and the tier's colour otherwise |
| Skins.SlotImage | src/components/Game.tsx:88 | definition: the slot's image, or the empty string for an index past the end of the list (`customImages[i] \|\| ''`) |
| Merge.ShouldMerge | src/components/Game.tsx:57-58 | definition: both bodies tagged, equal tiers, tier below the last |
| Merge.Step | src/components/Game.tsx:57-67 | definition: one pair of the batch; a merge removes both ids and adds `createFruit` of tier + 1 at the midpoint under the next id |
| Merge.Batch | src/components/Game.tsx:53-70 | definition: the pairs of a batch, one after another, in order, with no record of bodies already removed |
| Merge.MergeCount | src/components/Game.tsx:53-70 | the number of merging pairs of a batch is zero exactly when no pair passes the merge test |
| Merge.Midpoint | src/components/Game.tsx:62-65 | the merged position is equally far from both input positions in x and in y |
| Merge.MergeDecision | src/components/Game.tsx:57-58 | a pair changes the world if and only if both bodies are tagged, their tiers are equal and the tier is not terminal |
| Merge.MergedTierInRange | src/components/Game.tsx:58-61 | the fruit a merge creates is tagged with the old tier + 1, which lies in [1, 10) |
| Merge.MergeEffect | src/components/Game.tsx:59-67 | a merge removes both inputs, adds one fruit of the next tier at their midpoint under the next id, and leaves every other body untouched |
| Merge.MergeShrinksWorld | src/components/Game.tsx:59-67 | merging two distinct bodies of the world leaves it with exactly one body fewer |
| Merge.StepSymmetric | src/components/Game.tsx:57-65 | the result does not depend on which body is `bodyA` |
| Merge.StepWellFormed | src/components/Game.tsx:57-67 | one pair keeps every body under its own id and every tag a catalog tier |
| Merge.BatchWellFormed | src/components/Game.tsx:52-71 | after any batch every tagged body's tier is still in [0, 10) |
| Merge.BatchCreatesOnePerMerge | src/components/Game.tsx:53-70 | a batch creates exactly one body for each pair that passes the merge test |
| Merge.BatchWithoutMergeLeavesWorld | src/components/Game.tsx:53-70 | a batch in which no pair passes the merge test leaves the world exactly as it was |
| Merge.DoubleMergeAsWritten | src/components/Game.tsx:53-70 | for any non-terminal tier t, a batch of (A, B) and (A, C) creates two new fruits of tier t + 1 and removes all three inputs; for three distinct bodies the world has one body fewer |
| Merge.CherryExample | src/components/Game.tsx:57-67 | cherries at (100, 200) and (110, 205) become one strawberry of radius 20 at (105, 202.5); both cherries are gone and the world has one body fewer |
| Engine.World.constructor | src/components/Game.tsx:30 | a new engine world holds no bodies |
| Engine.World.NewId | src/components/Game.tsx:84 | a created body receives the engine's next id, the counter moves on by one, and the world invariant is kept |
| Engine.World.Remove | src/components/Game.tsx:59 | the bodies with the two ids are gone and nothing else changes; an id already gone is ignored; the world invariant is kept |
| Engine.World.Add | src/components/Game.tsx:67 | the world gains the body under its id and nothing else changes; a body with an already issued id and a catalog tag keeps the world invariant |
| Spawn.Advance | src/components/Game.tsx:110 | the cursor's next value stays in [0, 3) |
| Spawn.AdvanceIsMod | src/components/Game.tsx:110 | the step is the source's `(c + 1) % 3`: the next of the three easy tiers, wrapping from 2 to 0 |
| Spawn.Spawned | src/components/Game.tsx:107-110 | the tiers dropped by n clicks, one per click, each click dropping the cursor's tier and then advancing it |
| Spawn.CursorIsTier | src/components/Game.tsx:107 | every cursor value is a catalog tier and never terminal |
| Spawn.AdvanceThrice | src/components/Game.tsx:110 | three clicks bring the cursor back to its starting value |
| Spawn.SpawnedCycles | src/components/Game.tsx:21-110 | n clicks from cursor c drop tiers (c + i) mod 3; from a fresh session that is 0, 1, 2, 0, 1, 2, … |
| Spawn.CursorAfter | src/components/Game.tsx:110 | definition: the cursor after n clicks, n steps of `Advance`; it stays in [0, 3) |
| Spawn.CursorAfterCycles | src/components/Game.tsx:110 | n cursor steps from c leave the cursor at (c + n) mod 3 |
| Game.DropAt | src/components/Game.tsx:106-108 | definition: one click's effect on the world; `createFruit` of the cursor's tier at (x, 50) is added under the next id and the counter moves on |
| Game.Drops | src/components/Game.tsx:100-111 | definition: the clicks `xs[i]`, `xs[i + 1]`, … in turn, each one `DropAt` with the current cursor, which then advances |
| Game.DropAtEffect | src/components/Game.tsx:106-109 | one click adds a body tagged with the cursor's tier at (x, 50) under the next id, moves the id counter on by one, leaves every other body as it was and keeps the world well formed |
| Game.DropsWellFormed | src/components/Game.tsx:100-111 | clicks keep the world well formed and move the id counter on by their number |
| Game.DropsKeep | src/components/Game.tsx:100-111 | clicks never change or remove a body that was already in the world |
| Game.DropsFirst | src/components/Game.tsx:100-111 | the first click's fruit, of the starting cursor's tier at (x, 50), is still under its id after the later clicks |
| Game.DropsDropSpawned | src/components/Game.tsx:100-111 | the clicks leave, under ids nextId, nextId + 1, …, bodies carrying exactly the tiers `Spawned(c, n)` in order, at (x_0, 50), (x_1, 50), … |
| Game.DroppedFromAll | src/components/Game.tsx:100-111 | that ordered description, read body by body: the body under id nextId + j carries the j-th tier and the j-th click's position |
| Game.ClickSequence | src/components/Game.tsx:100-111 | a run of n clicks on a mounted canvas makes the world `Drops` of the old one from the starting cursor (so, by the lemmas above, the i-th new body carries `Spawned(c, n)[i]` and earlier bodies stay), keeps the skins, the share link and the session invariant, and leaves the cursor at (c + n) mod 3 |
| Game.Game.constructor | src/components/Game.tsx:21-25 | a fresh session starts with cursor 0, the skins parsed from storage (the empty list when nothing is stored), no share link and an empty world |
| Game.Game.HandleClick | src/components/Game.tsx:100-111 | a click with a mounted canvas makes the world `DropAt` of the old one (one fruit of the cursor's tier at (x, 50) under the next id) and advances the cursor; without a canvas, nothing changes; the skins, the share link and the session invariant are kept |
| Game.Game.CollisionStart | src/components/Game.tsx:52-71 | running the handler over a batch leaves the world equal to `Batch` of the old world, with every invariant kept |
| Game.Game.HandleImagesSet | src/components/Game.tsx:113-121 | the given list becomes the active skins and the share link carries exactly that list; the cursor and the session invariant are kept |
| Game.Game.Boot | src/components/Game.tsx:123-136 | when the `images` parameter is present, non-empty and parses, the parsed list replaces the skins and storage is overwritten with the parameter text, whatever was stored before; otherwise skins and storage are unchanged |
| Uploader.WithSlot | src/components/ImageUploader.tsx:18-19 | the new list has the old length, holds the data URL at `index` and equals the old list at every other position |
| Uploader.MountUploader | src/components/Game.tsx:141-144 | the uploader starts from `UploaderDefaults` of the game's skins, so with no custom list it has one empty slot per tier |
| Uploader.ImageUploader.constructor | src/components/ImageUploader.tsx:9 | the uploader starts from the default list it is given |
| Uploader.ImageUploader.HandleImageUpload | src/components/ImageUploader.tsx:11-27 | with no file, nothing changes; otherwise the same new list is stored as state, handed to the game and written to storage as a full overwrite |

`images` is a Dafny `seq`, a value. The update builds a fresh array from it
and writes only that copy, so the previous list is never mutated. The
uploader's `index` comes from mapping over its own list. That is why
`HandleImageUpload` requires `index < |images|`.

## Left out

- matter-js itself is not modelled: stepping, collision detection, rendering, `Runner`/`Render` start and stop, the walls and the cleanup function (Game.tsx:30-50, 73-79). The world is the abstract map of bodies, and `CollisionStart` takes the batch as input. Its requires say every tagged body in a pair carries a catalog tier, which holds for bodies the engine took from the world; untagged bodies (the walls) are allowed.
- `JSON.parse`, `JSON.stringify` and `URLSearchParams` are library calls. The boot takes the raw parameter and the parse outcome as inputs, and the constructor takes the already-parsed stored list. No encode/decode round trip of the share link is claimed.
- Boot only models parse results that are string arrays. A payload that parses to another JSON value is not modelled.
- The uncaught exception from a malformed stored entry at mount (Game.tsx:22-24) is not modelled.
- Game.Game.constructor: its initial skins are tied to storage only when nothing is stored (then they are the empty list). For a `Raw` or `Stringified` entry they are whatever `JSON.parse` makes of its text, and `JSON.parse` is not modelled.
- The `console.error('Invalid shared images data')` logged when the shared parameter does not parse (Game.tsx:133) is console output and is not modelled. The model keeps only its effect: skins and storage stay unchanged.
- `localStorage`, `FileReader` and data-URL decoding are browser I/O. Storage is one object with one entry. The file's data URL is an input to `HandleImageUpload`, and the asynchronous `onload` is treated as running at once.
- Floating-point positions are idealised as exact reals. The sprite scale `radius*2/100` is not modelled.
- React semantics are not modelled: re-renders, the stale `customImages` captured by the one-time effect, and the uploader's `useState` ignoring later `defaultImages`. `CollisionStart` takes the skin list it uses as an input.
- Spawn.Advance: defined only on the cursor values 0, 1 and 2, the only values the code ever stores; `AdvanceIsMod` ties it to the source's `(c + 1) % 3` on those values.
- The `engineRef.current` guard in `handleClick` is not modelled; the engine exists once the component has mounted. The missing-canvas guard is modelled as an absent `rectLeft`.
- JSX layout, styling, the placeholder image URL and `src/App.tsx` have no game logic and are not modelled.
