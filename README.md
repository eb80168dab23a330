# Bonsai simulator: a Dafny model of the tree generator, the pruning logic and the URL state

The bonsai simulator draws a procedural tree in the browser with Three.js.
Given a seed, it generates the tree from a Mulberry32 pseudo-random stream.
Clicking a segment or a leaf prunes that part of the tree and everything
above it. The seed and the set of pruned ids are kept in the page URL.

This project models the logic behind that, in three variants:

- `script.js`, the current page:
  - the id-numbered tree data (`generateBranchData`);
  - the two views built from it (`buildSkeletonFromData`, `buildMeshFromData`);
  - the prune set (`pruneFromSegment`, `addBranchIdsToPruneSet`);
  - the lookup `findNodeById`;
  - the click handler `onMouseDown`;
  - the URL state (`updateURL`, `loadStateFromURL`);
  - the falling debris (`animateFallingObjects`);
  - the `Mulberry32` generator.
- `bkp/2/script.js`, an earlier version:
  - builds the Three.js objects directly, three segments per branch (`createBranch`, `generateTree`);
  - prunes by removing the clicked object from its parent (`onMouseDown`, `disposeOfObject`).
- `bkp/1/script.js`, the earliest version: one mesh per branch, with no pruning.

## How the model is laid out

| module | file | what it holds |
|---|---|---|
| `Wrappers` | `wrappers.dfy` | `Option` |
| `Prng` | `prng.dfy` | Mulberry32: the state step, the 32-bit output function, the float in [0, 1), the child count `floor(next() * 3) + 2` |
| `Scene` | `scene.dfy` | an arena model of a Three.js object graph: a node list where each node has a parent handle and a kind tag; `add`, re-parenting and `parent.remove` |
| `TreeModel` | `tree.dfy` | the tree data of `script.js`, its generation as functions and as methods over the generator object, the shape of the tree, its ids and the draws it consumes |
| `Prune` | `prune.dfy` | the prune set as an insertion-ordered list, the prune cascades, `findNodeById`, the click guard |
| `View` | `view.dfy` | the two view builders, the ids a view shows, what a cut does to the view, the well-formedness of the built object graph |
| `Codec` | `codec.dfy` | the `state` string and the JavaScript built-ins it goes through |
| `Debris` | `debris.dfy` | the falling pieces and their per-frame update |
| `Session` | `session.dfy` | the page state of `script.js` as a class: the prune set, the tree, the scene, the URL and the click handler |
| `Legacy` | `legacy.dfy` | what the two earlier variants share: the build result and the draw accounting |
| `Bkp2`, `Bkp1` | `bkp2.dfy`, `bkp1.dfy` | the two earlier variants |

Modelling choices:

- The generator state `a` is an unbounded integer.
  - `Skip(a, n)` is the state `n` draws later.
  - `Draw(a, n, mix)` is the word of draw `n`.
  - The specification functions take the output function `mix` as a parameter, so the draw-order results hold for any word-valued output function. `Mix` is Mulberry32's own.
- Code that changes state step by step is modelled as methods over classes, proved against specification functions:
  - the generator object;
  - the prune set;
  - the scene graph;
  - the falling pieces;
  - the page.
- `findNodeById`, the cascades and the string codec are pure in the source and are functions here.
- The prune set is a `Set` in the source. Its insertion order is visible in the URL, so it is a duplicate-free `seq<int>` here.

## Model

| member | source | states |
|---|---|---|
| Prng.Mulberry32.constructor | script.js:738-739 | a new generator holds the seed as its state and uses the Mulberry32 output function, whose results are 32-bit words |
| Prng.Mulberry32.Next | script.js:740 | `next()` advances the state by 0x6D2B79F5, returns the word drawn from the old state, and that word lies in [0, 2^32) with its float in [0, 1) |
| Prng.MixIsWordValued | script.js:740 | the `>>> 0` output is an unsigned 32-bit word for every state |
| Prng.MixPeriodic | script.js:740 | states that agree modulo 2^32 draw the same word, because `Math.imul` and the shifts see only the low 32 bits |
| Prng.ToUnit | script.js:740 | dividing a word by 4294967296 gives a float in [0, 1) |
| Prng.NextOf | script.js:740 | one step as a function: the next state is one increment later, and the word is draw 0 of the old state |
| Prng.DrawAfterSkip | script.js:740 | draw `m + n` from a state is draw `n` from the state `m` draws later, so the stream composes |
| Prng.ChildCount | script.js:308 | the child count is between 2 and 4 |
| Prng.ChildCountIsFloor | script.js:308 | the child count of a word is exactly `Math.floor(next() * 3) + 2` of its float |
| Prng.ChildCountRanges | script.js:308 | the words up to 0x55555555 give 2 children, those up to 0xAAAAAAAA give 3, and the rest give 4 |
| TreeModel.NewSegments | script.js:305 | a branch with id `id` gets three segments with ids `id + 1 .. id + 3`, indices 0, 1, 2 and the branch's level |
| TreeModel.GenerateBranchData | script.js:302-318 | the recursive generator leaves the result, the generator state and the id counter exactly as the specification `GenBranch` gives them |
| TreeModel.GenerateChildren | script.js:309-316 | the children loop yields the children, the generator state and the counter of `GenChildren` |
| TreeModel.PushChild | script.js:311-315 | a built child takes two rotation draws and is appended; a null child takes none and is dropped |
| TreeModel.GenerateNewTreeData | script.js:264-267 | `generateNewTree` builds the tree of a fresh generator with the counter at 0, and it is never null |
| TreeModel.GenerationShape | script.js:302-318 | a branch is built iff its level is at most 5; above 5 nothing is drawn and no id is used; a built branch takes the next id, has its level and no rotation of its own, three segments, a leaf iff its level is at least 3, `floor(next() * 3) + 2` children below level 5 and none at 5, each one level deeper with a rotation and the same shape |
| TreeModel.ChildrenShape | script.js:309-316 | below level 5 the loop yields exactly the drawn number of children, all shaped; at level 5 it yields none |
| TreeModel.HeadIds | script.js:304-306 | the branch id, the segment ids and the leaf id are consecutive, in that order |
| TreeModel.SegmentIdsOf | script.js:305 | the segment ids are the three ids after the branch id |
| TreeModel.IdsConsecutive | script.js:302-318 | a built branch uses exactly the consecutive ids from the counter's value on, in pre-order, and the counter never goes back |
| TreeModel.ChildrenIdsConsecutive | script.js:309-316 | the children use consecutive id ranges one after another |
| TreeModel.TreeIds | script.js:264-267 | the tree generated from any seed has root id 0 and ids 0 .. n-1 without repetition, so every id names one object |
| TreeModel.DrawsConsumed | script.js:303-317 | a built branch consumes exactly one draw for its count plus two per built child (`Draws`); a null branch consumes none |
| TreeModel.ChildrenDrawsConsumed | script.js:309-316 | the children loop consumes its children's draws plus two per child |
| TreeModel.NoGrandchildren | script.js:303-316 | the level-5 children loop builds no child, since the recursive call returns null above level 5 |
| TreeModel.RotatedAt | script.js:309-316 | in a list whose rotations were drawn in loop order, child `i` gets the two draws that follow the earlier children's draws and its own subtree's |
| TreeModel.AddChildRotated | script.js:310-314 | one loop iteration appends a built child with the next two draws as `rotation.x` and `rotation.z`, after its subtree's draws, and keeps that order for the whole list |
| TreeModel.ChildrenRotations | script.js:309-316 | the children loop gives each child the two draws after the earlier children's and its own subtree's draws |
| TreeModel.ChildrenRotationsStep | script.js:309-316 | one more iteration of the children loop keeps every child rotated by the draws after its predecessors' and its own subtree's |
| TreeModel.ChildRotations | script.js:308-316 | a generated branch's children are rotated in that order counting from the draw after the child count |
| TreeModel.FirstChildRotation | script.js:308-316 | below level 5 the first child's rotation is draws `1 + d` and `2 + d` of the branch's generator, `d` being what the first child's own subtree consumed |
| TreeModel.FirstRotated | script.js:308-316 | the first child of such a list is rotated by the two draws right after its subtree's |
| Prune.AddAllGrows | script.js:439-446 | adding ids to the set keeps the old ones in their order, holds exactly the old ids and the new, and keeps a duplicate-free set duplicate-free |
| Prune.AddAllPresent | script.js:439-446 | adding ids that are already present changes nothing |
| Prune.AddAllIdempotent | script.js:439-446 | adding the same ids a second time changes nothing |
| Prune.PruneOrderIsIds | script.js:519-525 | `addBranchIdsToPruneSet` lists exactly the subtree's ids, each as often as the subtree carries it: the branch, its leaf, its segments and all descendants |
| Prune.ForestPruneOrderIsIds | script.js:524 | the same holds for a list of children |
| Prune.CascadePartition | script.js:436-450 | the ids a cut at segment `k` adds and the ids it leaves in place (the branch when `k > 0`, the segments below `k`) together are the subtree's ids |
| Prune.CascadeExact | script.js:436-450 | with distinct ids, the cut adds an id iff it belongs to the subtree and is not one of those left in place |
| Prune.PruneFromSegmentExact | script.js:436-450 | after `pruneFromSegment` the set holds exactly the old ids and the cut part of the subtree, keeps the old ones first, stays duplicate-free, and a second identical call changes nothing |
| Prune.FindSegmentSound | script.js:538-539 | `segments.find` succeeds iff the id is a segment id, and then returns a segment with that id |
| Prune.FindSound | script.js:533-548 | `findNodeById` returns `{}` iff the id is not in the tree; otherwise it returns a branch of the tree that owns the id, with the matching segment when the id is a segment id |
| Prune.FindInChildrenSound | script.js:541-546 | the same for the search through the children |
| Prune.OwnerUnique | script.js:533-548 | with distinct ids, one branch at most owns an id |
| Prune.FindOwner | script.js:533-548 | with distinct ids, `findNodeById` finds the unique owner of any id in the tree, with the right segment |
| Prune.LeafClick | script.js:464-465 | a click on a leaf is always allowed and adds that leaf id alone |
| Prune.RootTrunkProtected | script.js:467-470 | no segment of the root trunk can be pruned, whatever ids the rest of the tree carries, because its branch has level 0; the prune set stays as it was |
| Prune.SegmentClick | script.js:466-508 | a click on a segment of a branch above level 0 is allowed and performs `pruneFromSegment` on that branch and segment |
| Session.PruneSet.constructor | script.js:18 | the prune set starts empty |
| Session.PruneSet.Add | script.js:439 | `prunedIds.add(x)` appends `x` unless it is present |
| Session.PruneSet.AddBranchIdsToPruneSet | script.js:519-525 | the recursive method adds the ids of `PruneOrder`, in that order |
| Session.PruneSet.AddForest | script.js:524 | `forEach(addBranchIdsToPruneSet)` adds the children's ids in order |
| Session.PruneSet.AddSegments | script.js:438-440 | the segment loop adds the segment ids from the start index on |
| Session.PruneSet.PruneFromSegment | script.js:436-450 | the method leaves the set as the specification `PruneFromSegment` gives it |
| Session.AddAllAppend | script.js:519-525 | adding two lists in turn is adding their concatenation |
| Session.AddKeepsDistinct | script.js:18 | the prune set never holds an id twice and only grows |
| Session.TreeApp.constructor | script.js:18-27 | the page starts with seed 0, no tree, an empty prune set and no falling pieces |
| Session.TreeApp.UpdateURL | script.js:569-574 | the `state` parameter becomes the encoding of the seed and of the prune set, and nothing else changes |
| Session.TreeApp.BuildTreeView | script.js:275-292 | the old tree object is taken out of the scene, the view of the chosen style is built under a new object added to the tree scene, and the URL is updated |
| Session.TreeApp.GenerateNewTree | script.js:258-270 | a NaN seed changes nothing; otherwise the seed and the prune set are replaced, the tree is generated from the seed, the view is rebuilt in the current style with the new tree object appended, and the URL is rewritten |
| Session.TreeApp.LoadStateFromURL | script.js:553-564 | a NaN seed changes nothing, URL, scene and tree object included; otherwise the tree is generated for the decoded seed with `new Set(ids)` of the decoded ids as the prune set, the view is rebuilt in the current style and the URL rewritten; skeleton mode and the highlight are kept |
| Session.TreeApp.OnMouseDown | script.js:456-513 | outside the tree scene, for another button, in skeleton mode or with nothing highlighted, nothing changes; otherwise an allowed click adds a falling piece, applies the prune of the clicked leaf or segment, rebuilds the view with a new tree object and clears the highlight, and a refused one changes nothing, tree object included |
| Session.RebuiltShows | script.js:275-292 | a rebuild adds to the node list's picking ids exactly the visible ids of the tree, those neither pruned nor cut off by a pruned branch, in tree order; the detached old tree's ids stay in the list |
| Session.DetachedShows | script.js:278 | removing the old tree object leaves the node list's picking ids as they were |
| View.BuildSkeletonFromData | script.js:326-360 | the skeleton builder appends the nodes `BuildOn(Skeleton, ...)` describes |
| View.BuildMeshFromData | script.js:371-428 | the mesh builder appends the nodes `BuildOn(Mesh, ...)` describes |
| View.AttachSegments | script.js:335-343 | the segment loop skips pruned segments, chains the others, and ends on the last one attached |
| View.AttachChildren | script.js:420-427 | the children loop adds a pivot per child under the top segment and builds the child under it |
| View.UnprunedMembers | script.js:336 | skipping pruned ids keeps exactly the ids that are not pruned |
| View.ChainShown | script.js:335-345 | the segment loop shows the unpruned segment ids in order, and it ends where it started iff every segment is pruned |
| View.LeafShown | script.js:347-351 | the leaf is shown iff it exists and is not pruned |
| View.BuildShown | script.js:326-360 | a build shows exactly `Visible(b, pruned)` after the ids shown before |
| View.KidsShown | script.js:353-359 | the children loop shows the children's visible ids in order |
| View.VisibleSound | script.js:326-360 | every id a view shows belongs to the subtree and is not pruned |
| View.ForestVisibleSound | script.js:353-359 | the same for a list of children |
| View.ForestVisiblePruned | script.js:372 | children whose own ids are pruned show nothing |
| View.ForestPruneOrderRoots | script.js:524 | the cascade lists the id of every child |
| View.CutMembers | script.js:436-450 | after a cut at segment `k > 0`, an id is pruned iff it was pruned before or belongs to the cut part |
| View.CutSegments | script.js:438-440 | after the cut the segments from `k` on are hidden, and the ones below are shown as before |
| View.CutAbove | script.js:444-448 | after the cut the leaf and all children are hidden |
| View.CutView | script.js:436-450 | after a cut at `k > 0` the branch shows only its unpruned segments below `k` |
| View.CutShown | script.js:503-509 | the rebuilt view of a cut branch shows exactly the unpruned segments below the cut |
| View.ChainLinked | script.js:335-343 | the segment loop only appends, hangs every new object from an earlier one, and ends on a segment object when it attached any |
| View.BuildLinked | script.js:371-428 | a build only appends; every new object hangs from an earlier one and every leaf and pivot from a segment object, so the parent links form a forest |
| View.KidsLinked | script.js:420-427 | the same for the children loop |
| Codec.NatToString | script.js:570 | `String(n)` of a natural number is a non-empty run of decimal digits |
| Codec.DigitPrefix | script.js:560 | `parseInt` reads the longest run of digits: a prefix of digits not followed by a digit |
| Codec.TrimStart | script.js:560 | `parseInt` skips leading white space: the result does not start with white space |
| Codec.Split | script.js:559 | `split` always returns at least one piece |
| Codec.ValueOfNatToString | script.js:570 | the digits `String(n)` writes have the value `n` |
| Codec.ParseIntOfString | script.js:560 | `parseInt` reads back `String(n)`, for any integer `n`, also when other text follows that does not start with a digit or an `x` |
| Codec.NumberOfString | script.js:561 | `Number` reads back `String(n)` |
| Codec.SplitAfter | script.js:559 | a piece free of the separator, then the separator, splits off as the first piece |
| Codec.SplitWithout | script.js:559 | a string free of the separator splits into itself |
| Codec.JoinChars | script.js:570 | the joined ids hold only digits, minus signs and commas, so they contain no `_p` |
| Codec.SplitJoin | script.js:561 | `split(",").map(Number)` undoes `map(String).join(",")` on a non-empty list of integers |
| Codec.AddAllDistinct | script.js:563 | `new Set(ids)` of a duplicate-free list keeps it in its order |
| Codec.RoundTrip | script.js:553-574 | reading back the `state` that `updateURL` wrote gives the same seed and the same prune set in the same order, including an empty one |
| Debris.FallingObjects.constructor | script.js:26 | the list of falling pieces starts empty |
| Debris.FallingObjects.Push | script.js:496-500 | a cut piece is appended to the falling pieces |
| Debris.FallingObjects.AnimateFallingObjects | script.js:623-643 | the reverse loop with `splice` leaves every piece advanced by one frame, with the ones below the floor removed and the order kept |
| Debris.Stepped | script.js:628-635 | every piece is advanced and none is lost by the step |
| Debris.FilterMembers | script.js:638-641 | a piece survives iff it was in the list and is at or above height -10 |
| Debris.FilterAppend | script.js:625-642 | the removal keeps the order of the remaining pieces |
| Debris.FilterAllInView | script.js:638 | nothing is removed while every piece is in view |
| Debris.FilterShorter | script.js:640 | the list never grows during a frame |
| Debris.AnimateKeeps | script.js:638-641 | a piece is kept after a frame iff its new height is at least -10 |
| Debris.StepOrder | script.js:629-630 | gravity updates the vertical velocity before the position moves by it, so a frame of length dt drops the piece `Gravity * dt * dt` below where the old velocity would take it; x and z move by the unchanged velocity |
| Scene.SceneGraph.constructor | script.js:280 | a new graph has no objects |
| Scene.SceneGraph.Create | script.js:280 | `new THREE.Object3D()` is a new object in no parent |
| Scene.SceneGraph.Add | script.js:339 | `parent.add(new object)` appends one object under `parent` |
| Scene.SceneGraph.Attach | script.js:290 | `parent.add(obj)` sets the parent of an existing object and changes nothing else |
| Scene.SceneGraph.Detach | script.js:697 | `obj.parent.remove(obj)` takes the object out of its parent and changes nothing else |
| Scene.DetachCuts | script.js:695-698 | removing an object takes its whole subtree out of the scene with it and leaves every other object where it was |
| Legacy.HangingSnoc | bkp/2/script.js:191 | adding an object to a parent raises that parent's child count, and its pivot count when the object is a pivot, by one |
| Legacy.HangingGrows | bkp/2/script.js:191 | appending objects never lowers a child count, and appending one under `p` raises `p`'s |
| Legacy.DetachEarlier | bkp/2/script.js:126-128 | removing an object keeps every object after its parent |
| Bkp2.ChainSegs | bkp/2/script.js:156-173 | the segment loop appends one object per segment |
| Bkp2.Leafed | bkp/2/script.js:156-183 | a branch adds three segments and, from level 3 up, a leaf |
| Bkp2.CreateBranch | bkp/2/script.js:147-194 | the method leaves the scene and the generator as the specification `Bkp2.Grow` gives them |
| Bkp2.AddSegments | bkp/2/script.js:154-183 | the segment loop and the leaf append the nodes of `Leafed`, and the top segment is the third one added |
| Bkp2.AddPivots | bkp/2/script.js:185-193 | the children loop leaves the scene and the generator as `Bkp2.Pivots` gives them |
| Bkp2.LeafedLayout | bkp/2/script.js:154-183 | segment 0 hangs from the object passed as parent (a pivot, or the tree object at level 0), each later segment from the one before, and the leaf from the top segment |
| Bkp2.LeafedEarlier | bkp/2/script.js:154-183 | the new segments and the leaf hang from earlier objects |
| Bkp2.GrowPrefix | bkp/2/script.js:147-194 | building only appends to the scene |
| Bkp2.PivotsPrefix | bkp/2/script.js:186-193 | the children loop only appends |
| Bkp2.GrowEarlier | bkp/2/script.js:147-194 | every object the build adds hangs from an object added before it |
| Bkp2.PivotsEarlier | bkp/2/script.js:186-193 | the same for the children loop |
| Bkp2.GrowShape | bkp/2/script.js:147-194 | a branch up to level 5 consists of three segments chained from the object passed as parent, a leaf from level 3, and a first pivot, with its rotation, under the top segment |
| Bkp2.PivotsFirst | bkp/2/script.js:186-191 | the first pivot comes right after the existing nodes, under the top segment, with the first two draws as its rotation |
| Bkp2.FirstPivot | bkp/2/script.js:186-193 | later pivots leave the first one in place |
| Bkp2.LeafedHanging | bkp/2/script.js:154-183 | the segments and the leaf hang only from the parent, from each other and from the top segment |
| Bkp2.GrowHanging | bkp/2/script.js:147-194 | a build hangs nothing from an older object other than the parent it was given |
| Bkp2.PivotsHanging | bkp/2/script.js:186-193 | `n` iterations of the children loop hang exactly `n` new objects, all pivots, from the top segment, and nothing from any other older object |
| Bkp2.PivotsChildren | bkp/2/script.js:186-193 | every object the loop hangs from the top segment is a pivot followed, below level 5, by its child's first segment, labelled with level + 1 and index 0 |
| Bkp2.PivotsChildrenStep | bkp/2/script.js:186-193 | one more iteration keeps that layout |
| Bkp2.ChildrenStartSnoc | bkp/2/script.js:191-192 | a pivot on the top segment followed by a build that starts with the child's first segment keeps that layout |
| Bkp2.GrowChildren | bkp/2/script.js:185-193 | the top segment of a branch up to level 5 gets exactly `Math.floor(random() * 3) + 2` pivots of the child count draw, two to four, plus its leaf from level 3, and each pivot carries a child branch one level deeper |
| Bkp2.GrowDraws | bkp/2/script.js:185-193 | every draw is charged to an object the call built: one per branch for the count and two per pivot, even a pivot whose branch returns at once above level 5 |
| Bkp2.PivotsDraws | bkp/2/script.js:186-193 | the children loop consumes exactly the draws charged to the objects it adds |
| Bkp2.BeyondMaxLevel | bkp/2/script.js:148 | above level 5 nothing is built and nothing is drawn |
| Bkp2.LastLevelDraws | bkp/2/script.js:185-193 | a level-5 branch consumes `1 + 2 * count` draws here, and only the count draw in the main variant, so the two variants' streams part after the first level-5 branch |
| Bkp2.EmptyPivots | bkp/2/script.js:186-193 | at level 5 each pivot takes two draws and builds nothing |
| Bkp2.PlantTree | bkp/2/script.js:202-207 | the tree object is added to the scene and the branch is built under it from a fresh generator |
| Bkp2.Page.constructor | bkp/2/script.js:15-17 | the page starts with the scene alone, no tree and nothing highlighted |
| Bkp2.Page.GenerateTree | bkp/2/script.js:196-208 | the old tree is removed and the new tree is the build of the seed under a new object in the scene |
| Bkp2.RegrowKeeps | bkp/2/script.js:196-208 | after regenerating, every object still comes after its parent, the new tree object is the group at the old length, and a highlighted object can still be handled |
| Bkp2.Page.OnMouseDown | bkp/2/script.js:74-95 | a click off the canvas or with nothing highlighted changes nothing; a highlighted leaf stands for its segment; the trunk's first segment is refused; otherwise that object is removed from its parent and the highlight is cleared |
| Bkp2.TrunkGuard | bkp/2/script.js:84-90 | in a grown trunk a click on the first segment is refused and one on the second or third segment removes that segment; unlike the main variant, only segment 0 of level 0 is protected |
| Bkp2.ClickCutsSubtree | bkp/2/script.js:119-129 | the click takes exactly the subtree of the removed object out of the scene and leaves the rest in place |
| Bkp1.Meshed | bkp/1/script.js:82-94 | a branch adds one mesh and, from level 3 up, a leaf |
| Bkp1.CreateBranch | bkp/1/script.js:76-105 | the method leaves the scene and the generator as the specification `Bkp1.Grow` gives them |
| Bkp1.AddPivots | bkp/1/script.js:96-104 | the children loop leaves the scene and the generator as `Bkp1.Pivots` gives them |
| Bkp1.MeshedEarlier | bkp/1/script.js:82-94 | the mesh hangs from the object passed as parent (a pivot, or the tree object at level 0) and the leaf from the mesh, so both hang from earlier objects |
| Bkp1.GrowPrefix | bkp/1/script.js:76-105 | building only appends to the scene |
| Bkp1.PivotsPrefix | bkp/1/script.js:97-104 | the children loop only appends |
| Bkp1.GrowEarlier | bkp/1/script.js:76-105 | every object the build adds hangs from an object added before it |
| Bkp1.PivotsEarlier | bkp/1/script.js:97-104 | the same for the children loop |
| Bkp1.GrowShape | bkp/1/script.js:76-105 | a branch up to level 5 consists of one mesh under the object passed as parent, a leaf from level 3, and a first pivot, with its rotation, under the mesh |
| Bkp1.PivotsFirst | bkp/1/script.js:97-102 | the first pivot comes right after the existing nodes, under the mesh, with the first two draws as its rotation |
| Bkp1.FirstPivot | bkp/1/script.js:97-104 | later pivots leave the first one in place |
| Bkp1.MeshedHanging | bkp/1/script.js:82-94 | the mesh hangs only from the parent and the leaf from the mesh |
| Bkp1.GrowHanging | bkp/1/script.js:76-105 | a build hangs nothing from an older object other than the parent it was given |
| Bkp1.PivotsHanging | bkp/1/script.js:97-104 | `n` iterations of the children loop hang exactly `n` new objects, all pivots, from the mesh, and nothing from any other older object |
| Bkp1.PivotsChildren | bkp/1/script.js:97-104 | every object the loop hangs from the mesh is a pivot followed, below level 5, by its child's mesh |
| Bkp1.PivotsChildrenStep | bkp/1/script.js:97-104 | one more iteration keeps that layout |
| Bkp1.ChildrenStartSnoc | bkp/1/script.js:102-103 | a pivot on the mesh followed by a build that starts with the child's mesh keeps that layout |
| Bkp1.GrowChildren | bkp/1/script.js:96-104 | the mesh of a branch up to level 5 gets exactly `Math.floor(random() * 3) + 2` pivots of the child count draw, two to four, plus its leaf from level 3, and each pivot carries a child branch |
| Bkp1.GrowDraws | bkp/1/script.js:96-104 | every draw is charged to an object the call built: one per branch mesh for the count and two per pivot, even a pivot whose branch returns at once above level 5 |
| Bkp1.PivotsDraws | bkp/1/script.js:97-104 | the children loop consumes exactly the draws charged to the objects it adds |
| Bkp1.SameDraws | bkp/1/script.js:96-104 | the two earlier variants consume the same draws from the same state, so a seed gives both the same branching |
| Bkp1.PivotsSameDraws | bkp/1/script.js:97-104 | the same for their children loops |
| Bkp1.PlantTree | bkp/1/script.js:117-123 | the tree object is added to the scene and the branch is built under it from a fresh generator |
| Bkp1.Page.constructor | bkp/1/script.js:14-16 | the page starts with the scene alone and no tree |
| Bkp1.Page.GenerateTree | bkp/1/script.js:107-124 | the old tree is removed and the new tree is the build of the seed under a new object in the scene |
| Bkp1.RegrowKeeps | bkp/1/script.js:107-124 | after regenerating, every object still comes after its parent and the new tree object is the group at the old length |

## Left out

- Rendering and plumbing are not modelled: the Three.js renderer, cameras, lights, shadows, orbit controls, `init`, `animate`, `onWindowResize` and `switchMode`. They compute nothing the tree logic reads.
- Highlighting (`checkHighlight`, `onMouseMove` and the raycaster) is left out. It depends on float mouse coordinates and ray intersection, so the highlighted object is a field of the page that the click handlers read.
- The geometry-type tests that tell a leaf from a segment (`IcosahedronGeometry`) are replaced by the node's kind tag.
- Geometry is not modelled: segment lengths, radii, leaf sizes and positions.
- Rotations are kept as the raw words drawn for them, not as radians.
- Debris.FallingObjects.Push: the source starts each falling piece with velocities from the unseeded `Math.random`. Here they are inputs of the click handler.
- Debris: positions and speeds are real numbers without floating-point rounding.
- Session.TreeApp.OnMouseDown: the clone of the highlighted object is a record in the falling list. It is not added to the scene graph, and its world position and rotation are not computed.
- GLTF upload and normalisation (`loadAndNormalizeModel`), `branchTemplate` and `updateDebugInfo` are left out: asynchronous I/O and float bounding boxes. The template only changes a segment's geometry, not the structure the mesh builder produces.
- `saveTreeToFile`, `loadTreeFromFile`, `copyTreeLink` and the seed input box are left out: files, JSON, the clipboard and the DOM. The same holds for the `generateTreeFromInput` and `generateRandomTree` handlers of the earlier variants.
- `disposeOfObject` only detaches the object here; freeing GPU memory is left out.
- The `URLSearchParams` and `history.replaceState` plumbing is left out. The page's `state` parameter is a field holding an optional string.
- Prng.Mulberry32.Next: the state `this.a` is a JavaScript number. Here it is an exact unbounded integer, so the model agrees with the source while the state stays below 2^53 in magnitude.
- Prng.Mulberry32: the closures `mulberry32(a)` of the two earlier variants capture and update `a`. They are modelled by the same class as the main variant's `Mulberry32`.
- Prng.ChildCount reduces its word modulo 2^32 first. Every drawn word is already in range, so this only matters for inputs the generator never produces.
- Codec.JsNumber models `Number` on integer forms only: decimal with a sign, `0x`, `0o` and `0b`. A fraction, an exponent or `Infinity` gives `None` here, as for text that is not a number.
- Codec.Decode: an id that `Number` turns into `NaN` or into a non-integer is dropped. The source keeps such a value in the `Set`, where it matches no id.
- Codec.IntToString writes every integer in plain decimal. The source switches to exponent notation from 10^21 on.
- Bkp1.Page.GenerateTree and Bkp2.Page.GenerateTree take an integer seed. The earlier variants' `init` can pass `NaN` from an unparsable input box, and that case is not modelled.
- View: in the skeleton view the source gives a segment object no `userData`, so it cannot be picked. The model tags it with its segment. This only matters for highlighting, which is not modelled, and the click handler does nothing in skeleton mode.
