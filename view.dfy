/**
 * The two view builders of script.js, `buildSkeletonFromData` and
 * `buildMeshFromData`, as what they do to the scene graph's node list.
 *
 * Both walk the branch data, skip pruned ids, chain the surviving segments
 * (each new segment object becomes the parent of the next), stop when no
 * segment survived, attach the leaf if present and unpruned, and give every
 * child a pivot carrying its rotation before recursing into it. The
 * skeleton also attaches a base point first and a joint point under every
 * segment object. Lengths, radii and positions are left out.
 *
 * The specification functions take the node list before a call and return
 * the node list after it; a new object's handle is the length of the list
 * it is appended to.
 */
module View {
  import opened Wrappers
  import opened TreeModel
  import opened Prune
  import opened Scene

  datatype Style = Skeleton | Mesh

  /** The node list after the segment loop and the `currentParent` it leaves. */
  datatype Chained = Chained(nodes: seq<SceneNode>, top: nat)

  /** The segment loop over `segs`, starting with `currentParent = parent`. */
  function ChainOn(style: Style, nodes: seq<SceneNode>, segs: seq<Segment>, pruned: seq<int>, parent: nat): (r: Chained)
    ensures |nodes| <= |r.nodes|
    decreases |segs|
  {
    if segs == [] then Chained(nodes, parent)
    else
      var before := ChainOn(style, nodes, segs[..|segs| - 1], pruned, parent);
      var s := segs[|segs| - 1];
      if s.id in pruned then before
      else
        var hs := |before.nodes|;
        var withSegment := before.nodes + [SceneNode(Some(before.top), SegmentNode(s))];
        if style == Skeleton then Chained(withSegment + [SceneNode(Some(hs), Point)], hs)
        else Chained(withSegment, hs)
  }

  /** The node list after the skeleton's base point (the mesh has none). */
  function BaseOn(style: Style, nodes: seq<SceneNode>, parent: nat): seq<SceneNode> {
    if style == Skeleton then nodes + [SceneNode(Some(parent), Point)] else nodes
  }

  /** The node list after the leaf, when the branch has a leaf that is not pruned. */
  function LeafOn(nodes: seq<SceneNode>, b: Branch, pruned: seq<int>, top: nat): seq<SceneNode> {
    if b.leaf.Some? && b.leaf.value.id !in pruned then nodes + [SceneNode(Some(top), LeafNode(b.leaf.value.id))]
    else nodes
  }

  /** The node list after `build...FromData(parent, b, pruned)`. */
  function BuildOn(style: Style, nodes: seq<SceneNode>, b: Branch, pruned: seq<int>, parent: nat): (r: seq<SceneNode>)
    ensures |nodes| <= |r|
    decreases b
  {
    if b.id in pruned then nodes
    else
      var chain := ChainOn(style, BaseOn(style, nodes, parent), b.segments, pruned, parent);
      if chain.top == parent then chain.nodes
      else KidsOn(style, LeafOn(chain.nodes, b, pruned, chain.top), b.children, pruned, chain.top)
  }

  /** The node list after the children loop: a pivot under `top` per child, then the child's build under it. */
  function KidsOn(style: Style, nodes: seq<SceneNode>, cs: seq<Branch>, pruned: seq<int>, top: nat): (r: seq<SceneNode>)
    ensures |nodes| <= |r|
    decreases cs
  {
    if cs == [] then nodes
    else
      var before := KidsOn(style, nodes, cs[..|cs| - 1], pruned, top);
      var c := cs[|cs| - 1];
      BuildOn(style, before + [SceneNode(Some(top), Pivot(c.rotation))], c, pruned, |before|)
  }

  // ---------------------------------------------------------------------
  // The builders

  /** `buildSkeletonFromData(parent, data, idsToSkip)`. */
  method BuildSkeletonFromData(scene: SceneGraph, parent: nat, data: Branch, idsToSkip: seq<int>)
    requires parent < |scene.nodes|
    modifies scene
    ensures scene.nodes == BuildOn(Skeleton, old(scene.nodes), data, idsToSkip, parent)
    decreases data, 1
  {
    if data.id in idsToSkip {
      return;
    }
    var basePoint := scene.Add(parent, Point);
    var currentParent := AttachSegments(scene, Skeleton, parent, data.segments, idsToSkip);
    if currentParent == parent {
      return;
    }
    if data.leaf.Some? && data.leaf.value.id !in idsToSkip {
      var leafPoint := scene.Add(currentParent, LeafNode(data.leaf.value.id));
    }
    AttachChildren(scene, Skeleton, currentParent, data.children, idsToSkip);
  }

  /** `buildMeshFromData(parent, data, idsToSkip)`: no points, a mesh per surviving segment. */
  method BuildMeshFromData(scene: SceneGraph, parent: nat, data: Branch, idsToSkip: seq<int>)
    requires parent < |scene.nodes|
    modifies scene
    ensures scene.nodes == BuildOn(Mesh, old(scene.nodes), data, idsToSkip, parent)
    decreases data, 1
  {
    if data.id in idsToSkip {
      return;
    }
    var currentParent := AttachSegments(scene, Mesh, parent, data.segments, idsToSkip);
    if currentParent == parent {
      return;
    }
    if data.leaf.Some? && data.leaf.value.id !in idsToSkip {
      var leafMesh := scene.Add(currentParent, LeafNode(data.leaf.value.id));
    }
    AttachChildren(scene, Mesh, currentParent, data.children, idsToSkip);
  }

  /**
   * The segment loop of both builders: each segment that is not skipped gets
   * an object under `currentParent` (and, in the skeleton, a joint point
   * under that object), which becomes the new `currentParent`.
   */
  method AttachSegments(scene: SceneGraph, style: Style, parent: nat, segs: seq<Segment>, idsToSkip: seq<int>)
    returns (currentParent: nat)
    requires parent < |scene.nodes|
    modifies scene
    ensures Chained(scene.nodes, currentParent) == ChainOn(style, old(scene.nodes), segs, idsToSkip, parent)
    ensures currentParent < |scene.nodes|
  {
    ghost var start := scene.nodes;
    currentParent := parent;
    var i := 0;
    while i < |segs|
      invariant 0 <= i <= |segs|
      invariant Chained(scene.nodes, currentParent) == ChainOn(style, start, segs[..i], idsToSkip, parent)
      invariant currentParent < |scene.nodes|
    {
      assert segs[..i + 1][..i] == segs[..i];
      var segmentData := segs[i];
      if segmentData.id !in idsToSkip {
        var segmentNode := scene.Add(currentParent, SegmentNode(segmentData));
        if style == Skeleton {
          var jointPoint := scene.Add(segmentNode, Point);
        }
        currentParent := segmentNode;
      }
      i := i + 1;
    }
    assert segs[..i] == segs;
  }

  /** The children loop of both builders: a pivot per child, then the recursive build under it. */
  method AttachChildren(scene: SceneGraph, style: Style, top: nat, cs: seq<Branch>, idsToSkip: seq<int>)
    requires top < |scene.nodes|
    modifies scene
    ensures scene.nodes == KidsOn(style, old(scene.nodes), cs, idsToSkip, top)
    decreases cs, 0
  {
    ghost var start := scene.nodes;
    var j := 0;
    while j < |cs|
      invariant 0 <= j <= |cs|
      invariant scene.nodes == KidsOn(style, start, cs[..j], idsToSkip, top)
      invariant top < |scene.nodes|
    {
      assert cs[..j + 1][..j] == cs[..j];
      var childData := cs[j];
      var pivot := scene.Add(top, Pivot(childData.rotation));
      if style == Skeleton {
        BuildSkeletonFromData(scene, pivot, childData, idsToSkip);
      } else {
        BuildMeshFromData(scene, pivot, childData, idsToSkip);
      }
      j := j + 1;
    }
    assert cs[..j] == cs;
  }

  // ---------------------------------------------------------------------
  // What a view shows

  /** The ids an object records for picking: a segment's id or a leaf's id. */
  function TagIds(t: Tag): seq<int> {
    match t
    case SegmentNode(segment) => [segment.id]
    case LeafNode(id) => [id]
    case _ => []
  }

  /** The ids of the segment and leaf objects of a node list, in order. */
  function ShownIds(nodes: seq<SceneNode>): seq<int>
    decreases |nodes|
  {
    if nodes == [] then [] else ShownIds(nodes[..|nodes| - 1]) + TagIds(nodes[|nodes| - 1].tag)
  }

  /** The ids of `ids` that are not in `pruned`, in order. */
  function Unpruned(ids: seq<int>, pruned: seq<int>): seq<int>
    decreases |ids|
  {
    if ids == [] then []
    else Unpruned(ids[..|ids| - 1], pruned) + (if ids[|ids| - 1] in pruned then [] else [ids[|ids| - 1]])
  }

  /**
   * The ids a view of `b` draws, stated on the branch data alone: nothing
   * when the branch is pruned or none of its segments survives; otherwise
   * the surviving segments, the leaf if it survives, and each child's view.
   */
  function Visible(b: Branch, pruned: seq<int>): seq<int>
    decreases b
  {
    if b.id in pruned then []
    else
      var segs := Unpruned(SegmentIds(b.segments), pruned);
      if segs == [] then []
      else segs + Unpruned(LeafIds(b.leaf), pruned) + ForestVisible(b.children, pruned)
  }

  function ForestVisible(cs: seq<Branch>, pruned: seq<int>): seq<int>
    decreases cs
  {
    if cs == [] then [] else ForestVisible(cs[..|cs| - 1], pruned) + Visible(cs[|cs| - 1], pruned)
  }

  lemma ShownSnoc(nodes: seq<SceneNode>, n: SceneNode)
    ensures ShownIds(nodes + [n]) == ShownIds(nodes) + TagIds(n.tag)
  {
    assert (nodes + [n])[..|nodes|] == nodes;
  }

  lemma UnprunedSnoc(ids: seq<int>, x: int, pruned: seq<int>)
    ensures Unpruned(ids + [x], pruned) == Unpruned(ids, pruned) + (if x in pruned then [] else [x])
  {
    assert (ids + [x])[..|ids|] == ids;
  }

  lemma SegmentIdsSnoc(segs: seq<Segment>)
    requires segs != []
    ensures SegmentIds(segs) == SegmentIds(segs[..|segs| - 1]) + [segs[|segs| - 1].id]
  {
  }

  lemma IntAppendAssoc(a: seq<int>, b: seq<int>, c: seq<int>)
    ensures a + (b + c) == a + b + c
  {
  }

  /** Filtering keeps exactly the members that are not pruned. */
  lemma {:induction false} UnprunedMembers(ids: seq<int>, pruned: seq<int>)
    ensures forall x :: x in Unpruned(ids, pruned) <==> x in ids && x !in pruned
    decreases |ids|
  {
    if ids != [] {
      var init := ids[..|ids| - 1];
      UnprunedMembers(init, pruned);
      assert ids == init + [ids[|ids| - 1]];
    }
  }

  /** Filtering a concatenation filters each part. */
  lemma {:induction false} UnprunedAppend(a: seq<int>, b: seq<int>, pruned: seq<int>)
    ensures Unpruned(a + b, pruned) == Unpruned(a, pruned) + Unpruned(b, pruned)
    decreases |b|
  {
    if b == [] {
      assert a + b == a;
    } else {
      var init := b[..|b| - 1];
      var x := b[|b| - 1];
      assert a + b == (a + init) + [x];
      UnprunedAppend(a, init, pruned);
      UnprunedSnoc(a + init, x, pruned);
      UnprunedSnoc(init, x, pruned);
      assert b == init + [x];
    }
  }

  /** A list whose members are all pruned filters to nothing. */
  lemma {:induction false} UnprunedNone(ids: seq<int>, pruned: seq<int>)
    requires forall x :: x in ids ==> x in pruned
    ensures Unpruned(ids, pruned) == []
    decreases |ids|
  {
    if ids != [] {
      var init := ids[..|ids| - 1];
      var last := ids[|ids| - 1];
      assert ids == init + [last];
      assert last in pruned;
      UnprunedNone(init, pruned);
    }
  }

  /** Two prune sets that agree on the members of `ids` filter `ids` alike. */
  lemma {:induction false} UnprunedAgree(ids: seq<int>, p1: seq<int>, p2: seq<int>)
    requires forall x :: x in ids ==> (x in p1 <==> x in p2)
    ensures Unpruned(ids, p1) == Unpruned(ids, p2)
    decreases |ids|
  {
    if ids != [] {
      var init := ids[..|ids| - 1];
      var x := ids[|ids| - 1];
      assert forall y :: y in init ==> y in ids;
      assert x in ids;
      UnprunedAgree(init, p1, p2);
      assert Unpruned(ids, p1) == Unpruned(init, p1) + (if x in p1 then [] else [x]);
      assert Unpruned(ids, p2) == Unpruned(init, p2) + (if x in p2 then [] else [x]);
    }
  }

  /** One surviving segment: its object (and the skeleton's joint point) shows its id. */
  lemma ChainStepShown(style: Style, before: Chained, sg: Segment)
    ensures var hs := |before.nodes|;
      var withSegment := before.nodes + [SceneNode(Some(before.top), SegmentNode(sg))];
      var after := if style == Skeleton then withSegment + [SceneNode(Some(hs), Point)] else withSegment;
      ShownIds(after) == ShownIds(before.nodes) + [sg.id] && |after| > hs
  {
    var withSegment := before.nodes + [SceneNode(Some(before.top), SegmentNode(sg))];
    ShownSnoc(before.nodes, SceneNode(Some(before.top), SegmentNode(sg)));
    ShownSnoc(withSegment, SceneNode(Some(|before.nodes|), Point));
    assert ShownIds(withSegment) + [] == ShownIds(withSegment);
  }

  /**
   * The segment loop shows the surviving segments in index order; it leaves
   * `currentParent` at `parent`, attaching nothing, exactly when none
   * survives, and otherwise moves it to an object it attached.
   */
  lemma {:induction false} ChainShown(style: Style, nodes: seq<SceneNode>, segs: seq<Segment>, pruned: seq<int>, parent: nat)
    requires parent < |nodes|
    ensures var r := ChainOn(style, nodes, segs, pruned, parent);
      && ShownIds(r.nodes) == ShownIds(nodes) + Unpruned(SegmentIds(segs), pruned)
      && (r.top == parent <==> Unpruned(SegmentIds(segs), pruned) == [])
      && (r.top == parent ==> r.nodes == nodes)
      && (r.top != parent ==> |nodes| <= r.top < |r.nodes|)
    decreases |segs|
  {
    if segs == [] {
      assert ShownIds(nodes) + [] == ShownIds(nodes);
    } else {
      var init := segs[..|segs| - 1];
      var sg := segs[|segs| - 1];
      ChainShown(style, nodes, init, pruned, parent);
      SegmentIdsSnoc(segs);
      UnprunedSnoc(SegmentIds(init), sg.id, pruned);
      var before := ChainOn(style, nodes, init, pruned, parent);
      var u := Unpruned(SegmentIds(init), pruned);
      if sg.id in pruned {
        assert u + [] == u;
      } else {
        ChainStepShown(style, before, sg);
        IntAppendAssoc(ShownIds(nodes), u, [sg.id]);
      }
    }
  }

  lemma BaseShown(style: Style, nodes: seq<SceneNode>, parent: nat)
    ensures ShownIds(BaseOn(style, nodes, parent)) == ShownIds(nodes)
    ensures |nodes| <= |BaseOn(style, nodes, parent)|
  {
    if style == Skeleton {
      ShownSnoc(nodes, SceneNode(Some(parent), Point));
    }
  }

  lemma LeafShown(nodes: seq<SceneNode>, b: Branch, pruned: seq<int>, top: nat)
    ensures ShownIds(LeafOn(nodes, b, pruned, top)) == ShownIds(nodes) + Unpruned(LeafIds(b.leaf), pruned)
    ensures |nodes| <= |LeafOn(nodes, b, pruned, top)|
  {
    if b.leaf.Some? {
      UnprunedSnoc([], b.leaf.value.id, pruned);
      assert [] + [b.leaf.value.id] == [b.leaf.value.id];
      if b.leaf.value.id !in pruned {
        ShownSnoc(nodes, SceneNode(Some(top), LeafNode(b.leaf.value.id)));
      } else {
        assert ShownIds(nodes) + [] == ShownIds(nodes);
      }
    } else {
      assert ShownIds(nodes) + [] == ShownIds(nodes);
    }
  }

  /**
   * Structural consistency of the builders with the data: the objects a
   * build attaches show exactly `Visible(b, pruned)`, in that order.
   */
  lemma {:induction false} BuildShown(style: Style, nodes: seq<SceneNode>, b: Branch, pruned: seq<int>, parent: nat)
    requires parent < |nodes|
    ensures ShownIds(BuildOn(style, nodes, b, pruned, parent)) == ShownIds(nodes) + Visible(b, pruned)
    decreases b
  {
    if b.id in pruned {
      assert ShownIds(nodes) + [] == ShownIds(nodes);
    } else {
      var n0 := BaseOn(style, nodes, parent);
      BaseShown(style, nodes, parent);
      ChainShown(style, n0, b.segments, pruned, parent);
      var chain := ChainOn(style, n0, b.segments, pruned, parent);
      var segs := Unpruned(SegmentIds(b.segments), pruned);
      if chain.top == parent {
        assert ShownIds(nodes) + [] == ShownIds(nodes);
      } else {
        var n1 := LeafOn(chain.nodes, b, pruned, chain.top);
        var leaf := Unpruned(LeafIds(b.leaf), pruned);
        LeafShown(chain.nodes, b, pruned, chain.top);
        KidsShown(style, n1, b.children, pruned, chain.top);
        IntAppendAssoc(ShownIds(nodes), segs + leaf, ForestVisible(b.children, pruned));
        IntAppendAssoc(ShownIds(nodes), segs, leaf);
      }
    }
  }

  lemma {:induction false} KidsShown(style: Style, nodes: seq<SceneNode>, cs: seq<Branch>, pruned: seq<int>, top: nat)
    requires top < |nodes|
    ensures ShownIds(KidsOn(style, nodes, cs, pruned, top)) == ShownIds(nodes) + ForestVisible(cs, pruned)
    decreases cs
  {
    if cs == [] {
      assert ShownIds(nodes) + [] == ShownIds(nodes);
    } else {
      var init := cs[..|cs| - 1];
      var c := cs[|cs| - 1];
      KidsShown(style, nodes, init, pruned, top);
      var before := KidsOn(style, nodes, init, pruned, top);
      var pivot := SceneNode(Some(top), Pivot(c.rotation));
      ShownSnoc(before, pivot);
      assert ShownIds(before + [pivot]) == ShownIds(before);
      BuildShown(style, before + [pivot], c, pruned, |before|);
      IntAppendAssoc(ShownIds(nodes), ForestVisible(init, pruned), Visible(c, pruned));
    }
  }

  /** Every id a view shows belongs to the subtree and is not pruned. */
  lemma {:induction false} VisibleSound(b: Branch, pruned: seq<int>)
    ensures forall x :: x in Visible(b, pruned) ==> x in Ids(b) && x !in pruned
    decreases b
  {
    if b.id !in pruned {
      UnprunedMembers(SegmentIds(b.segments), pruned);
      UnprunedMembers(LeafIds(b.leaf), pruned);
      ForestVisibleSound(b.children, pruned);
    }
  }

  lemma {:induction false} ForestVisibleSound(cs: seq<Branch>, pruned: seq<int>)
    ensures forall x :: x in ForestVisible(cs, pruned) ==> x in ForestIds(cs) && x !in pruned
    decreases cs
  {
    if cs != [] {
      ForestVisibleSound(cs[..|cs| - 1], pruned);
      VisibleSound(cs[|cs| - 1], pruned);
    }
  }

  /** Children whose own ids are all pruned show nothing. */
  lemma {:induction false} ForestVisiblePruned(cs: seq<Branch>, pruned: seq<int>)
    requires forall c :: c in cs ==> c.id in pruned
    ensures ForestVisible(cs, pruned) == []
    decreases |cs|
  {
    if cs != [] {
      ForestVisiblePruned(cs[..|cs| - 1], pruned);
      assert cs[|cs| - 1] in cs;
    }
  }

  /** The cascade of a branch lists the ids of all its children. */
  lemma {:induction false} ForestPruneOrderRoots(cs: seq<Branch>, c: Branch)
    requires c in cs
    ensures c.id in ForestPruneOrder(cs)
    decreases |cs|
  {
    if c != cs[|cs| - 1] {
      ForestPruneOrderRoots(cs[..|cs| - 1], c);
    }
  }

  /** The members of the prune set after the cascade at segment `k`. */
  lemma CutMembers(p: seq<int>, b: Branch, k: nat)
    requires 0 < k <= |b.segments| && Distinct(Ids(b))
    ensures var q := AddAll(p, CascadeIds(b, k));
      && (forall x :: x in KeptIds(b, k) ==> (x in q <==> x in p))
      && (forall x :: x in CascadeIds(b, k) ==> x in q)
  {
    var q := AddAll(p, CascadeIds(b, k));
    AddAllGrows(p, CascadeIds(b, k));
    forall x | x in KeptIds(b, k)
      ensures x in q <==> x in p
    {
      CascadeExact(b, k, x);
    }
  }

  /** After the cascade at `k`, the segments from `k` on are pruned and the lower ones are as before. */
  lemma CutSegments(p: seq<int>, b: Branch, k: nat)
    requires 0 < k <= |b.segments| && Distinct(Ids(b))
    ensures Unpruned(SegmentIds(b.segments), AddAll(p, CascadeIds(b, k))) == Unpruned(SegmentIds(b.segments[..k]), p)
  {
    var q := AddAll(p, CascadeIds(b, k));
    CutMembers(p, b, k);
    var low := SegmentIds(b.segments[..k]);
    var high := SegmentIds(b.segments[k..]);
    SegmentIdsSplit(b.segments, k);
    UnprunedAppend(low, high, q);
    assert forall x :: x in low ==> x in KeptIds(b, k);
    UnprunedAgree(low, q, p);
    if k < |b.segments| {
      assert forall x :: x in high ==> x in CascadeIds(b, k);
    } else {
      assert high == [];
    }
    UnprunedNone(high, q);
    assert low + [] == low;
  }

  /** After the cascade at `k`, the leaf and every child are pruned. */
  lemma CutAbove(p: seq<int>, b: Branch, k: nat)
    requires 0 < k <= |b.segments| && Distinct(Ids(b))
    ensures Unpruned(LeafIds(b.leaf), AddAll(p, CascadeIds(b, k))) == []
    ensures ForestVisible(b.children, AddAll(p, CascadeIds(b, k))) == []
  {
    var q := AddAll(p, CascadeIds(b, k));
    CutMembers(p, b, k);
    assert forall x :: x in LeafIds(b.leaf) ==> x in CascadeIds(b, k);
    UnprunedNone(LeafIds(b.leaf), q);
    forall c | c in b.children
      ensures c.id in q
    {
      ForestPruneOrderRoots(b.children, c);
      assert c.id in CascadeIds(b, k);
    }
    ForestVisiblePruned(b.children, q);
  }

  /**
   * After `pruneFromSegment(b, segment)` with segment index `k > 0`, the
   * view of `b` keeps only its segments `0..k-1` that were not pruned
   * before: no higher segment, no leaf, no child.
   */
  lemma CutView(p: seq<int>, b: Branch, k: nat)
    requires 0 < k <= |b.segments| && Distinct(Ids(b)) && b.id !in p
    ensures Visible(b, AddAll(p, CascadeIds(b, k))) == Unpruned(SegmentIds(b.segments[..k]), p)
  {
    var q := AddAll(p, CascadeIds(b, k));
    CutMembers(p, b, k);
    assert b.id in KeptIds(b, k);
    CutSegments(p, b, k);
    CutAbove(p, b, k);
    var segs := Unpruned(SegmentIds(b.segments[..k]), p);
    assert segs + [] + [] == segs;
  }

  /**
   * The cut seen on the scene: rebuilding the view of `b` under the prune
   * set `pruneFromSegment` leaves shows exactly the kept segments.
   */
  lemma CutShown(style: Style, nodes: seq<SceneNode>, parent: nat, p: seq<int>, b: Branch, k: nat)
    requires parent < |nodes|
    requires 0 < k <= |b.segments| && Distinct(Ids(b)) && b.id !in p
    ensures ShownIds(BuildOn(style, nodes, b, AddAll(p, CascadeIds(b, k)), parent))
      == ShownIds(nodes) + Unpruned(SegmentIds(b.segments[..k]), p)
  {
    BuildShown(style, nodes, b, AddAll(p, CascadeIds(b, k)), parent);
    CutView(p, b, k);
  }

  // ---------------------------------------------------------------------
  // How the objects hang together

  /**
   * Object `i` hangs from an object created before it, and a leaf or a
   * pivot hangs from a segment object.
   */
  predicate ParentOk(nodes: seq<SceneNode>, i: nat)
    requires i < |nodes|
  {
    nodes[i].parent.Some? ==>
      && nodes[i].parent.value < i
      && ((nodes[i].tag.LeafNode? || nodes[i].tag.Pivot?) ==> nodes[nodes[i].parent.value].tag.SegmentNode?)
  }

  /** Every object is well placed; in particular the parent links form a forest. */
  predicate Linked(nodes: seq<SceneNode>) {
    forall i :: 0 <= i < |nodes| ==> ParentOk(nodes, i)
  }

  lemma LinkedSnoc(nodes: seq<SceneNode>, n: SceneNode)
    requires Linked(nodes)
    requires n.parent.Some? ==>
      && n.parent.value < |nodes|
      && ((n.tag.LeafNode? || n.tag.Pivot?) ==> nodes[n.parent.value].tag.SegmentNode?)
    ensures Linked(nodes + [n]) && nodes <= nodes + [n]
  {
    var r := nodes + [n];
    forall i | 0 <= i < |r|
      ensures ParentOk(r, i)
    {
      if i < |nodes| {
        assert ParentOk(nodes, i);
      }
    }
  }

  /** The segment loop keeps the objects linked and only appends; it ends on a segment object. */
  lemma {:induction false} ChainLinked(style: Style, nodes: seq<SceneNode>, segs: seq<Segment>, pruned: seq<int>, parent: nat)
    requires Linked(nodes) && parent < |nodes|
    ensures var r := ChainOn(style, nodes, segs, pruned, parent);
      && Linked(r.nodes) && nodes <= r.nodes && r.top < |r.nodes|
      && (r.top != parent ==> r.nodes[r.top].tag.SegmentNode?)
    decreases |segs|
  {
    if segs != [] {
      var init := segs[..|segs| - 1];
      var sg := segs[|segs| - 1];
      ChainLinked(style, nodes, init, pruned, parent);
      var before := ChainOn(style, nodes, init, pruned, parent);
      if sg.id !in pruned {
        var hs := |before.nodes|;
        var segmentNode := SceneNode(Some(before.top), SegmentNode(sg));
        LinkedSnoc(before.nodes, segmentNode);
        var withSegment := before.nodes + [segmentNode];
        LinkedSnoc(withSegment, SceneNode(Some(hs), Point));
      }
    }
  }

  /** A build keeps the objects linked and only appends to the node list. */
  lemma {:induction false} BuildLinked(style: Style, nodes: seq<SceneNode>, b: Branch, pruned: seq<int>, parent: nat)
    requires Linked(nodes) && parent < |nodes|
    ensures var r := BuildOn(style, nodes, b, pruned, parent);
      Linked(r) && nodes <= r
    decreases b
  {
    if b.id !in pruned {
      var n0 := BaseOn(style, nodes, parent);
      if style == Skeleton {
        LinkedSnoc(nodes, SceneNode(Some(parent), Point));
      }
      ChainLinked(style, n0, b.segments, pruned, parent);
      var chain := ChainOn(style, n0, b.segments, pruned, parent);
      if chain.top != parent {
        var n1 := LeafOn(chain.nodes, b, pruned, chain.top);
        if b.leaf.Some? && b.leaf.value.id !in pruned {
          LinkedSnoc(chain.nodes, SceneNode(Some(chain.top), LeafNode(b.leaf.value.id)));
        }
        assert n1[chain.top] == chain.nodes[chain.top];
        KidsLinked(style, n1, b.children, pruned, chain.top);
      }
    }
  }

  lemma {:induction false} KidsLinked(style: Style, nodes: seq<SceneNode>, cs: seq<Branch>, pruned: seq<int>, top: nat)
    requires Linked(nodes) && top < |nodes| && nodes[top].tag.SegmentNode?
    ensures var r := KidsOn(style, nodes, cs, pruned, top);
      Linked(r) && nodes <= r
    decreases cs
  {
    if cs != [] {
      var init := cs[..|cs| - 1];
      var c := cs[|cs| - 1];
      KidsLinked(style, nodes, init, pruned, top);
      var before := KidsOn(style, nodes, init, pruned, top);
      assert before[top] == nodes[top];
      var pivot := SceneNode(Some(top), Pivot(c.rotation));
      LinkedSnoc(before, pivot);
      BuildLinked(style, before + [pivot], c, pruned, |before|);
    }
  }
}
