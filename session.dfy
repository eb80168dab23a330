/**
 * The page-level state of script.js and the operations that change it: the
 * prune set with its cascades, `generateNewTree`, `buildTreeView`, the prune
 * click `onMouseDown`, and the URL state (`updateURL`, `loadStateFromURL`).
 */
module Session {
  import opened Wrappers
  import opened TreeModel
  import opened Prune
  import opened Scene
  import opened View
  import opened Codec
  import opened Debris

  // ---------------------------------------------------------------------
  // The prune set

  /** `prunedIds`, a `Set` kept in insertion order. */
  class PruneSet {
    var ids: seq<int>

    constructor ()
      ensures ids == []
    {
      ids := [];
    }

    /** `prunedIds.add(x)`. */
    method Add(x: int)
      modifies this
      ensures ids == Prune.Add(old(ids), x)
    {
      if x !in ids {
        ids := ids + [x];
      }
    }

    /**
     * `addBranchIdsToPruneSet(b)`: the branch id, the leaf id, the segment
     * ids, then every child subtree.
     */
    method AddBranchIdsToPruneSet(b: Branch)
      modifies this
      ensures ids == AddAll(old(ids), PruneOrder(b))
      decreases b, 1
    {
      ghost var p0 := ids;
      Add(b.id);
      AddAllOne(p0, b.id);
      ghost var p1 := ids;
      if b.leaf.Some? {
        Add(b.leaf.value.id);
        AddAllOne(p1, b.leaf.value.id);
      }
      ghost var p2 := ids;
      AddSegments(b.segments, 0);
      ghost var p3 := ids;
      AddForest(b.children);
      AddAllAppend(p0, [b.id], LeafIds(b.leaf));
      AddAllAppend(p0, [b.id] + LeafIds(b.leaf), SegmentIds(b.segments));
      AddAllAppend(p0, [b.id] + LeafIds(b.leaf) + SegmentIds(b.segments), ForestPruneOrder(b.children));
    }

    /** `cs.forEach(addBranchIdsToPruneSet)`. */
    method AddForest(cs: seq<Branch>)
      modifies this
      ensures ids == AddAll(old(ids), ForestPruneOrder(cs))
      decreases cs, 0
    {
      ghost var p0 := ids;
      var j := 0;
      while j < |cs|
        invariant 0 <= j <= |cs|
        invariant ids == AddAll(p0, ForestPruneOrder(cs[..j]))
      {
        ghost var before := ids;
        AddBranchIdsToPruneSet(cs[j]);
        assert cs[..j + 1][..j] == cs[..j];
        AddAllAppend(p0, ForestPruneOrder(cs[..j]), PruneOrder(cs[j]));
        j := j + 1;
      }
      assert cs[..j] == cs;
    }

    /** Adds the ids of the segments from index `start` on, in order. */
    method AddSegments(segs: seq<Segment>, start: nat)
      modifies this
      ensures ids == AddAll(old(ids), SegmentIdsFrom(segs, start))
    {
      ghost var p0 := ids;
      var i := start;
      while i < |segs|
        invariant start < |segs| ==> start <= i <= |segs| && ids == AddAll(p0, SegmentIds(segs[start..i]))
        invariant start >= |segs| ==> i == start && ids == p0
        decreases |segs| - i
      {
        Add(segs[i].id);
        SegmentIdsStep(segs, start, i);
        AddAllSnoc(p0, SegmentIds(segs[start..i]), segs[i].id);
        i := i + 1;
      }
      if start < |segs| {
        assert segs[start..i] == segs[start..];
      }
    }

    /**
     * `pruneFromSegment(b, segment)`: the segments from the clicked one on,
     * the branch itself when the first segment was clicked, the leaf, and
     * every child subtree.
     */
    method PruneFromSegment(b: Branch, segment: Segment)
      modifies this
      ensures ids == Prune.PruneFromSegment(old(ids), b, segment)
    {
      ghost var p0 := ids;
      var startIndex := segment.segmentIndex;
      AddSegments(b.segments, startIndex);
      ghost var p1 := ids;
      if startIndex == 0 {
        Add(b.id);
        AddAllOne(p1, b.id);
      }
      ghost var p2 := ids;
      if b.leaf.Some? {
        Add(b.leaf.value.id);
        AddAllOne(p2, b.leaf.value.id);
      }
      AddForest(b.children);
      var s := SegmentIdsFrom(b.segments, startIndex);
      var own := if startIndex == 0 then [b.id] else [];
      AddAllAppend(p0, s, own);
      AddAllAppend(p0, s + own, LeafIds(b.leaf));
      AddAllAppend(p0, s + own + LeafIds(b.leaf), ForestPruneOrder(b.children));
    }
  }

  lemma AddAllOne(p: seq<int>, x: int)
    ensures AddAll(p, [x]) == Prune.Add(p, x)
  {
    assert [x][..0] == [];
  }

  lemma AddAllSnoc(p: seq<int>, xs: seq<int>, x: int)
    ensures AddAll(p, xs + [x]) == Prune.Add(AddAll(p, xs), x)
  {
    assert (xs + [x])[..|xs|] == xs;
  }

  /** Adding two lists is adding their concatenation. */
  lemma {:induction false} AddAllAppend(p: seq<int>, xs: seq<int>, ys: seq<int>)
    ensures AddAll(p, xs + ys) == AddAll(AddAll(p, xs), ys)
    decreases |ys|
  {
    if ys == [] {
      assert xs + ys == xs;
    } else {
      var init := ys[..|ys| - 1];
      var last := ys[|ys| - 1];
      AddAllAppend(p, xs, init);
      assert xs + ys == (xs + init) + [last];
      AddAllSnoc(p, xs + init, last);
      AddAllSnoc(AddAll(p, xs), init, last);
      assert init + [last] == ys;
    }
  }

  lemma SegmentIdsStep(segs: seq<Segment>, start: nat, i: nat)
    requires start <= i < |segs|
    ensures SegmentIds(segs[start..i + 1]) == SegmentIds(segs[start..i]) + [segs[i].id]
  {
    var s := segs[start..i + 1];
    SegmentIdsSnoc(s);
    assert s[..|s| - 1] == segs[start..i];
  }

  /** The prune set never holds an id twice. */
  lemma AddKeepsDistinct(p: seq<int>, xs: seq<int>)
    requires Distinct(p)
    ensures Distinct(AddAll(p, xs)) && p <= AddAll(p, xs)
  {
    AddAllGrows(p, xs);
  }

  // ---------------------------------------------------------------------
  // The tree view in the scene

  /**
   * The node list after `buildTreeView`: the old "tree" object detached, a
   * new "tree" group holding the view of `data`, and that group added to
   * the tree scene `root`.
   */
  function Rebuilt(nodes: seq<SceneNode>, tree: Option<nat>, style: Style, data: Branch, pruned: seq<int>, root: nat): seq<SceneNode> {
    var d := Detached(nodes, tree);
    var h := |d|;
    var built := BuildOn(style, d + [SceneNode(None, Group)], data, pruned, h);
    built[h := SceneNode(Some(root), built[h].tag)]
  }

  /** The page: the globals of script.js that the tree logic reads and writes. */
  class TreeApp {
    var currentSeed: int
    var treeData: Option<Branch>
    /** `ui.debugPointsCheck.checked`: the skeleton view instead of the mesh view. */
    var skeletonMode: bool
    /** The object under the mouse, set by highlighting. */
    var highlighted: Option<Target>
    /** The "tree" object in the tree scene, if one was built. */
    var treeObject: Option<nat>
    /** The `state` parameter of the page URL. */
    var urlState: Option<string>
    const treeScene: nat
    const scene: SceneGraph
    const pruned: PruneSet
    const falling: FallingObjects

    predicate Valid()
      reads this, scene, pruned
    {
      && treeScene < |scene.nodes|
      && (treeObject.Some? ==> treeObject.value < |scene.nodes|)
      && (highlighted.Some? ==> treeData.Some?)
      && Distinct(pruned.ids)
    }

    /** The page before any tree: seed 0, no tree, an empty prune set. */
    constructor (urlState: Option<string>, skeletonMode: bool)
      ensures Valid() && fresh(scene) && fresh(pruned) && fresh(falling)
      ensures currentSeed == 0 && treeData == None && pruned.ids == [] && falling.bodies == []
      ensures treeObject == None && highlighted == None && this.urlState == urlState && this.skeletonMode == skeletonMode
    {
      currentSeed := 0;
      treeData := None;
      this.skeletonMode := skeletonMode;
      highlighted := None;
      treeObject := None;
      this.urlState := urlState;
      var sg := new SceneGraph();
      var root := sg.Create(Group);
      scene := sg;
      treeScene := root;
      pruned := new PruneSet();
      falling := new FallingObjects();
    }

    /** `updateURL`: the state parameter becomes the seed and the prune set. */
    method UpdateURL()
      modifies this
      ensures urlState == Some(Encode(currentSeed, pruned.ids))
      ensures currentSeed == old(currentSeed) && treeData == old(treeData) && skeletonMode == old(skeletonMode)
      ensures highlighted == old(highlighted) && treeObject == old(treeObject)
    {
      urlState := Some(Encode(currentSeed, pruned.ids));
    }

    /**
     * `buildTreeView`: dispose of the old "tree" object, build the skeleton
     * or the mesh view of the tree into a new one, add it to the tree scene
     * and update the URL.
     */
    method BuildTreeView()
      requires Valid() && treeData.Some?
      modifies this, scene
      ensures Valid()
      ensures currentSeed == old(currentSeed) && treeData == old(treeData) && skeletonMode == old(skeletonMode)
      ensures highlighted == old(highlighted)
      ensures scene.nodes == Rebuilt(old(scene.nodes), old(treeObject), if skeletonMode then Skeleton else Mesh, treeData.value, pruned.ids, treeScene)
      ensures treeObject == Some(|old(scene.nodes)|)
      ensures urlState == Some(Encode(currentSeed, pruned.ids))
    {
      if treeObject.Some? {
        scene.Detach(treeObject.value);
      }
      assert scene.nodes == Detached(old(scene.nodes), old(treeObject));
      var h := scene.Create(Group);
      if skeletonMode {
        BuildSkeletonFromData(scene, h, treeData.value, pruned.ids);
      } else {
        BuildMeshFromData(scene, h, treeData.value, pruned.ids);
      }
      scene.Attach(h, treeScene);
      treeObject := Some(h);
      UpdateURL();
    }

    /**
     * `generateNewTree(seed, initialPrunedIds)`: nothing happens for a NaN
     * seed; otherwise the seed and the prune set are replaced, the tree is
     * generated afresh from the seed and the view rebuilt.
     */
    method GenerateNewTree(seed: Option<int>, initialPrunedIds: seq<int>)
      requires Valid() && Distinct(initialPrunedIds)
      modifies this, scene, pruned
      ensures Valid()
      ensures seed.None? ==> currentSeed == old(currentSeed) && treeData == old(treeData) && pruned.ids == old(pruned.ids)
                             && urlState == old(urlState) && scene.nodes == old(scene.nodes) && treeObject == old(treeObject)
      ensures seed.Some? ==> currentSeed == seed.value && pruned.ids == initialPrunedIds
                             && treeData == GenerateTree(seed.value).branch
                             && urlState == Some(Encode(seed.value, initialPrunedIds))
                             && scene.nodes == Rebuilt(old(scene.nodes), old(treeObject), if skeletonMode then Skeleton else Mesh,
                                                       treeData.value, initialPrunedIds, treeScene)
                             && treeObject == Some(|old(scene.nodes)|)
      ensures skeletonMode == old(skeletonMode) && highlighted == old(highlighted)
    {
      if seed.None? {
        return;
      }
      currentSeed := seed.value;
      pruned.ids := initialPrunedIds;
      var tree := GenerateNewTreeData(currentSeed);
      treeData := Some(tree);
      BuildTreeView();
    }

    /**
     * `loadStateFromURL`: the seed and ids read from the state parameter,
     * put into a new `Set`, start a new tree.
     */
    method LoadStateFromURL()
      requires Valid()
      modifies this, scene, pruned
      ensures Valid()
      ensures var loaded := Decode(old(urlState));
        && (loaded.seed.None? ==> currentSeed == old(currentSeed) && treeData == old(treeData) && pruned.ids == old(pruned.ids)
                                  && urlState == old(urlState) && scene.nodes == old(scene.nodes) && treeObject == old(treeObject))
        && (loaded.seed.Some? ==> currentSeed == loaded.seed.value && pruned.ids == AddAll([], loaded.ids)
                                  && treeData == GenerateTree(loaded.seed.value).branch
                                  && urlState == Some(Encode(currentSeed, pruned.ids))
                                  && scene.nodes == Rebuilt(old(scene.nodes), old(treeObject), if skeletonMode then Skeleton else Mesh,
                                                            treeData.value, pruned.ids, treeScene)
                                  && treeObject == Some(|old(scene.nodes)|))
      ensures skeletonMode == old(skeletonMode) && highlighted == old(highlighted)
    {
      var loaded := Decode(urlState);
      AddKeepsDistinct([], loaded.ids);
      GenerateNewTree(loaded.seed, AddAll([], loaded.ids));
    }

    /**
     * `onMouseDown`: in the tree scene, with the left button and the mesh
     * view, a click on a prunable highlighted object makes a falling piece
     * (its pose and velocities are parameters), adds the leaf id or the
     * segment cascade to the prune set and rebuilds the view.
     */
    method OnMouseDown(inTreeScene: bool, button: int, position: Vec3, rotation: Vec3, velocity: Vec3, angularVelocity: Vec3)
      requires Valid()
      modifies this, scene, pruned, falling
      ensures Valid()
      ensures var acted := inTreeScene && button == 0 && !old(skeletonMode) && old(highlighted).Some?
                           && CanPrune(old(treeData), old(highlighted).value);
        && pruned.ids == (if acted then ClickPrune(old(treeData), old(pruned.ids), old(highlighted).value) else old(pruned.ids))
        && (acted ==> falling.bodies == old(falling.bodies) + [Body(position, rotation, velocity, angularVelocity)]
                      && highlighted == None && urlState == Some(Encode(currentSeed, pruned.ids))
                      && scene.nodes == Rebuilt(old(scene.nodes), old(treeObject), Mesh, old(treeData).value, pruned.ids, treeScene)
                      && treeObject == Some(|old(scene.nodes)|))
        && (!acted ==> falling.bodies == old(falling.bodies) && highlighted == old(highlighted)
                       && urlState == old(urlState) && scene.nodes == old(scene.nodes) && treeObject == old(treeObject))
      ensures currentSeed == old(currentSeed) && treeData == old(treeData) && skeletonMode == old(skeletonMode)
    {
      if !inTreeScene || button != 0 || skeletonMode {
        return;
      }
      if highlighted.None? {
        return;
      }
      var target := highlighted.value;
      var canPrune := false;
      match target {
        case LeafTarget(_) =>
          canPrune := true;
        case SegmentTarget(id) =>
          var found := FindInTree(treeData, id);
          if found.branch.Some? && found.segment.Some? && found.branch.value.level > 0 {
            canPrune := true;
          }
      }
      if !canPrune {
        return;
      }
      falling.Push(Body(position, rotation, velocity, angularVelocity));
      match target {
        case LeafTarget(id) =>
          pruned.Add(id);
          AddAllOne(old(pruned.ids), id);
        case SegmentTarget(id) =>
          var found := FindInTree(treeData, id);
          pruned.PruneFromSegment(found.branch.value, found.segment.value);
      }
      AddKeepsDistinct(old(pruned.ids), if target.LeafTarget? then [target.id] else CascadeIds(FindInTree(treeData, target.id).branch.value, FindInTree(treeData, target.id).segment.value.segmentIndex));
      BuildTreeView();
      highlighted := None;
    }
  }

  // ---------------------------------------------------------------------
  // What the rebuilt scene shows

  /** The shown ids depend on the nodes' kinds only, not on their parents. */
  lemma {:induction false} ShownByTags(a: seq<SceneNode>, b: seq<SceneNode>)
    requires |a| == |b| && forall i :: 0 <= i < |a| ==> a[i].tag == b[i].tag
    ensures ShownIds(a) == ShownIds(b)
    decreases |a|
  {
    if a != [] {
      ShownByTags(a[..|a| - 1], b[..|b| - 1]);
    }
  }

  /** Setting a node's parent does not change what the node list shows. */
  lemma {:induction false} ReparentShows(nodes: seq<SceneNode>, h: nat, parent: Option<nat>)
    requires h < |nodes|
    ensures ShownIds(nodes[h := SceneNode(parent, nodes[h].tag)]) == ShownIds(nodes)
  {
    ShownByTags(nodes, nodes[h := SceneNode(parent, nodes[h].tag)]);
  }

  lemma {:induction false} DetachedShows(nodes: seq<SceneNode>, tree: Option<nat>)
    ensures ShownIds(Detached(nodes, tree)) == ShownIds(nodes)
  {
    if tree.Some? && tree.value < |nodes| {
      ReparentShows(nodes, tree.value, None);
    }
  }

  /**
   * `buildTreeView` adds to the picking ids of the node list exactly the
   * visible ids of the tree: the ids neither pruned nor cut off by a pruned
   * branch, in the order the tree lists them. The old tree object stays in
   * the list, detached, so its ids are still counted in `ShownIds`.
   */
  lemma {:induction false} RebuiltShows(nodes: seq<SceneNode>, tree: Option<nat>, style: Style, data: Branch, pruned: seq<int>, root: nat)
    ensures ShownIds(Rebuilt(nodes, tree, style, data, pruned, root)) == ShownIds(nodes) + Visible(data, pruned)
  {
    var d := Detached(nodes, tree);
    var h := |d|;
    var start := d + [SceneNode(None, Group)];
    DetachedShows(nodes, tree);
    ShownSnoc(d, SceneNode(None, Group));
    assert ShownIds(d) + TagIds(Group) == ShownIds(d);
    BuildShown(style, start, data, pruned, h);
    var built := BuildOn(style, start, data, pruned, h);
    assert ShownIds(built) == ShownIds(nodes) + Visible(data, pruned);
    ReparentShows(built, h, Some(root));
    assert Rebuilt(nodes, tree, style, data, pruned, root) == built[h := SceneNode(Some(root), built[h].tag)];
  }
}
