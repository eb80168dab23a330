/**
 * The prune set of script.js and the operations that fill it:
 * `pruneFromSegment`, `addBranchIdsToPruneSet`, `findNodeById` and the guard
 * of `onMouseDown`.
 *
 * `prunedIds` is a JavaScript `Set`, which remembers insertion order
 * (`Array.from(prunedIds)` lists the ids in the order they were first
 * added), so it is modelled as a duplicate-free sequence that `add` extends
 * at the end when the id is new.
 */
module Prune {
  import opened Wrappers
  import opened TreeModel

  // ---------------------------------------------------------------------
  // The insertion-ordered set

  /** `set.add(x)`: appends `x` unless it is already present. */
  function Add(p: seq<int>, x: int): seq<int> {
    if x in p then p else p + [x]
  }

  /** `xs.forEach(x => set.add(x))`. */
  function AddAll(p: seq<int>, xs: seq<int>): seq<int>
    decreases |xs|
  {
    if xs == [] then p else Add(AddAll(p, xs[..|xs| - 1]), xs[|xs| - 1])
  }

  /**
   * Adding only grows the set: the old contents stay in place as a prefix,
   * the members afterwards are the old ones and the added ones, and no
   * duplicate appears.
   */
  lemma {:induction false} AddAllGrows(p: seq<int>, xs: seq<int>)
    ensures p <= AddAll(p, xs)
    ensures forall x :: x in AddAll(p, xs) <==> x in p || x in xs
    ensures Distinct(p) ==> Distinct(AddAll(p, xs))
    decreases |xs|
  {
    if xs != [] {
      var init := xs[..|xs| - 1];
      AddAllGrows(p, init);
      assert xs == init + [xs[|xs| - 1]];
      var q := AddAll(p, init);
      if xs[|xs| - 1] !in q {
        assert q <= q + [xs[|xs| - 1]];
      }
    }
  }

  /** Adding ids that are all present already changes nothing. */
  lemma {:induction false} AddAllPresent(p: seq<int>, xs: seq<int>)
    requires forall x :: x in xs ==> x in p
    ensures AddAll(p, xs) == p
    decreases |xs|
  {
    if xs != [] {
      AddAllPresent(p, xs[..|xs| - 1]);
    }
  }

  /** Adding the same ids a second time changes nothing. */
  lemma AddAllIdempotent(p: seq<int>, xs: seq<int>)
    ensures AddAll(AddAll(p, xs), xs) == AddAll(p, xs)
  {
    AddAllGrows(p, xs);
    AddAllPresent(AddAll(p, xs), xs);
  }

  // ---------------------------------------------------------------------
  // Cascades

  /** The ids `addBranchIdsToPruneSet` adds, in its order: branch, leaf, segments, children. */
  function PruneOrder(b: Branch): seq<int>
    decreases b
  {
    [b.id] + LeafIds(b.leaf) + SegmentIds(b.segments) + ForestPruneOrder(b.children)
  }

  function ForestPruneOrder(cs: seq<Branch>): seq<int>
    decreases cs
  {
    if cs == [] then [] else ForestPruneOrder(cs[..|cs| - 1]) + PruneOrder(cs[|cs| - 1])
  }

  /**
   * `addBranchIdsToPruneSet` adds exactly the ids of the subtree: its order
   * is a permutation of the pre-order of generation.
   */
  lemma {:induction false} PruneOrderIsIds(b: Branch)
    ensures multiset(PruneOrder(b)) == multiset(Ids(b))
    decreases b
  {
    ForestPruneOrderIsIds(b.children);
  }

  lemma {:induction false} ForestPruneOrderIsIds(cs: seq<Branch>)
    ensures multiset(ForestPruneOrder(cs)) == multiset(ForestIds(cs))
    decreases cs
  {
    if cs != [] {
      ForestPruneOrderIsIds(cs[..|cs| - 1]);
      PruneOrderIsIds(cs[|cs| - 1]);
    }
  }

  /** The ids of the segments from index `start` on. */
  function SegmentIdsFrom(segs: seq<Segment>, start: nat): seq<int> {
    if start >= |segs| then [] else SegmentIds(segs[start..])
  }

  /**
   * The ids `pruneFromSegment(b, segment)` adds, in its order, for a segment
   * with index `start`: the segments from `start` on, the branch itself when
   * `start` is 0, the leaf, and every child subtree.
   */
  function CascadeIds(b: Branch, start: nat): seq<int> {
    SegmentIdsFrom(b.segments, start) + (if start == 0 then [b.id] else [])
      + LeafIds(b.leaf) + ForestPruneOrder(b.children)
  }

  /** The ids of `b` a cut at segment `start` leaves in place: the branch and the segments below. */
  function KeptIds(b: Branch, start: nat): seq<int>
    requires start <= |b.segments|
  {
    (if start == 0 then [] else [b.id]) + SegmentIds(b.segments[..start])
  }

  /** `pruneFromSegment(b, segment)` applied to the prune set `p`. */
  function PruneFromSegment(p: seq<int>, b: Branch, segment: Segment): seq<int> {
    AddAll(p, CascadeIds(b, segment.segmentIndex))
  }

  lemma SegmentIdsSplit(segs: seq<Segment>, k: nat)
    requires k <= |segs|
    ensures SegmentIds(segs) == SegmentIds(segs[..k]) + SegmentIds(segs[k..])
  {
  }

  /**
   * A cut at segment `start` splits the ids of `b` exactly: the cascade and
   * the kept ids together are the subtree's ids, each counted once.
   */
  lemma CascadePartition(b: Branch, start: nat)
    requires start <= |b.segments|
    ensures multiset(CascadeIds(b, start)) + multiset(KeptIds(b, start)) == multiset(Ids(b))
  {
    SegmentIdsSplit(b.segments, start);
    ForestPruneOrderIsIds(b.children);
    if start == |b.segments| {
      assert b.segments[start..] == [];
    }
  }

  lemma {:induction false} DistinctOnce(s: seq<int>, x: int)
    requires Distinct(s)
    ensures multiset(s)[x] <= 1
  {
    if s != [] {
      var t := s[..|s| - 1];
      assert s == t + [s[|s| - 1]];
      assert Distinct(t);
      DistinctOnce(t, x);
      if x == s[|s| - 1] {
        assert x !in t;
      }
    }
  }

  /**
   * With the tree's ids distinct (as generation guarantees), the cascade
   * holds exactly the subtree's ids other than the kept ones.
   */
  lemma CascadeExact(b: Branch, start: nat, x: int)
    requires start <= |b.segments| && Distinct(Ids(b))
    ensures x in CascadeIds(b, start) <==> x in Ids(b) && x !in KeptIds(b, start)
  {
    CascadePartition(b, start);
    DistinctOnce(Ids(b), x);
    assert multiset(Ids(b))[x] == multiset(CascadeIds(b, start))[x] + multiset(KeptIds(b, start))[x];
  }

  /**
   * `pruneFromSegment` on a tree with distinct ids: the prune set keeps its
   * old ids in place, gains exactly the subtree's ids other than the kept
   * ones, and a second identical call changes nothing.
   */
  lemma PruneFromSegmentExact(p: seq<int>, b: Branch, segment: Segment)
    requires segment.segmentIndex <= |b.segments| && Distinct(Ids(b))
    ensures var r := PruneFromSegment(p, b, segment);
      && p <= r
      && (Distinct(p) ==> Distinct(r))
      && (forall x :: x in r <==> x in p || (x in Ids(b) && x !in KeptIds(b, segment.segmentIndex)))
      && PruneFromSegment(r, b, segment) == r
  {
    var k := segment.segmentIndex;
    AddAllGrows(p, CascadeIds(b, k));
    AddAllIdempotent(p, CascadeIds(b, k));
    forall x
      ensures x in CascadeIds(b, k) <==> x in Ids(b) && x !in KeptIds(b, k)
    {
      CascadeExact(b, k, x);
    }
  }

  // ---------------------------------------------------------------------
  // findNodeById

  /** The result object of `findNodeById`: `{}`, `{ branch }` or `{ branch, segment }`. */
  datatype Found = Found(branch: Option<Branch>, segment: Option<Segment>)

  /** `segments.find(s => s.id === id)`: the first segment with that id. */
  function FindSegment(segs: seq<Segment>, id: int): Option<Segment>
    decreases |segs|
  {
    if segs == [] then None
    else if segs[0].id == id then Some(segs[0])
    else FindSegment(segs[1..], id)
  }

  /**
   * `findNodeById(data, id)`: the branch's own id, then its leaf id, then its
   * segments, then the children in order, returning the first hit.
   */
  function FindNodeById(data: Branch, id: int): Found
    decreases data
  {
    if data.id == id then Found(Some(data), None)
    else if data.leaf.Some? && data.leaf.value.id == id then Found(Some(data), None)
    else match FindSegment(data.segments, id)
      case Some(s) => Found(Some(data), Some(s))
      case None => FindInChildren(data.children, id)
  }

  /** The `for (const child of data.children)` loop: the first child subtree that finds `id`. */
  function FindInChildren(cs: seq<Branch>, id: int): Found
    decreases cs
  {
    if cs == [] then Found(None, None)
    else
      var before := FindInChildren(cs[..|cs| - 1], id);
      if before.branch.Some? then before else FindNodeById(cs[|cs| - 1], id)
  }

  /** `findNodeById(treeData, id)` with `treeData` possibly null. */
  function FindInTree(tree: Option<Branch>, id: int): Found {
    if tree.None? then Found(None, None) else FindNodeById(tree.value, id)
  }

  /** The ids a branch carries itself: its own, its segments' and its leaf's. */
  function OwnIds(b: Branch): seq<int> {
    [b.id] + SegmentIds(b.segments) + LeafIds(b.leaf)
  }

  /** Every branch of a subtree, in pre-order. */
  function Subtrees(b: Branch): seq<Branch>
    decreases b
  {
    [b] + ForestSubtrees(b.children)
  }

  function ForestSubtrees(cs: seq<Branch>): seq<Branch>
    decreases cs
  {
    if cs == [] then [] else ForestSubtrees(cs[..|cs| - 1]) + Subtrees(cs[|cs| - 1])
  }

  /** `found` is a correct answer for `id` at branch `o`: a segment hit names a segment of `o` with that id, a plain hit the branch or its leaf. */
  predicate Owns(o: Branch, segment: Option<Segment>, id: int) {
    match segment
    case None => id == o.id || (o.leaf.Some? && o.leaf.value.id == id)
    case Some(s) => s in o.segments && s.id == id
  }

  lemma {:induction false} FindSegmentSound(segs: seq<Segment>, id: int)
    ensures FindSegment(segs, id).Some? <==> id in SegmentIds(segs)
    ensures FindSegment(segs, id).Some? ==>
      FindSegment(segs, id).value in segs && FindSegment(segs, id).value.id == id
    decreases |segs|
  {
    if segs != [] {
      FindSegmentSound(segs[1..], id);
      assert SegmentIds(segs) == [segs[0].id] + SegmentIds(segs[1..]);
    }
  }

  /**
   * `findNodeById` finds something exactly when the id occurs in the tree,
   * and what it returns is a branch of the tree that owns the id as stated
   * by `Owns`; `{}` otherwise.
   */
  lemma {:induction false} FindSound(b: Branch, id: int)
    ensures var f := FindNodeById(b, id);
      && (f.branch.None? <==> id !in Ids(b))
      && (f.branch.None? ==> f.segment.None?)
      && (f.branch.Some? ==> f.branch.value in Subtrees(b) && Owns(f.branch.value, f.segment, id))
    decreases b
  {
    FindSegmentSound(b.segments, id);
    FindInChildrenSound(b.children, id);
  }

  lemma {:induction false} FindInChildrenSound(cs: seq<Branch>, id: int)
    ensures var f := FindInChildren(cs, id);
      && (f.branch.None? <==> id !in ForestIds(cs))
      && (f.branch.None? ==> f.segment.None?)
      && (f.branch.Some? ==> f.branch.value in ForestSubtrees(cs) && Owns(f.branch.value, f.segment, id))
    decreases cs
  {
    if cs != [] {
      FindInChildrenSound(cs[..|cs| - 1], id);
      FindSound(cs[|cs| - 1], id);
    }
  }

  lemma DistinctSplit(a: seq<int>, b: seq<int>)
    requires Distinct(a + b)
    ensures Distinct(a) && Distinct(b) && forall x :: x in a ==> x !in b
  {
    var ab := a + b;
    assert forall i | 0 <= i < |a| :: ab[i] == a[i];
    assert forall j | 0 <= j < |b| :: ab[|a| + j] == b[j];
  }

  lemma OwnInIds(o: Branch, id: int)
    requires id in OwnIds(o)
    ensures id in Ids(o)
  {
    assert Ids(o) == OwnIds(o) + ForestIds(o.children);
  }

  lemma OwnsOwnIds(o: Branch, segment: Option<Segment>, id: int)
    requires Owns(o, segment, id)
    ensures id in OwnIds(o)
  {
    if segment.Some? {
      var s := segment.value;
      var i :| 0 <= i < |o.segments| && o.segments[i] == s;
      assert SegmentIds(o.segments)[i] == id;
    }
  }

  /** A subtree's ids are ids of the tree, and stay distinct when the tree's are. */
  lemma {:induction false} SubtreeIds(b: Branch, o: Branch)
    requires o in Subtrees(b)
    ensures forall x :: x in Ids(o) ==> x in Ids(b)
    ensures Distinct(Ids(b)) ==> Distinct(Ids(o))
    decreases b
  {
    if o != b {
      ForestSubtreeIds(b.children, o);
      if Distinct(Ids(b)) {
        DistinctSplit(OwnIds(b), ForestIds(b.children));
      }
    }
  }

  lemma {:induction false} ForestSubtreeIds(cs: seq<Branch>, o: Branch)
    requires o in ForestSubtrees(cs)
    ensures forall x :: x in Ids(o) ==> x in ForestIds(cs)
    ensures Distinct(ForestIds(cs)) ==> Distinct(Ids(o))
    decreases cs
  {
    var init, last := cs[..|cs| - 1], cs[|cs| - 1];
    if Distinct(ForestIds(cs)) {
      DistinctSplit(ForestIds(init), Ids(last));
    }
    if o in ForestSubtrees(init) {
      ForestSubtreeIds(init, o);
    } else {
      SubtreeIds(last, o);
    }
  }

  /** With distinct ids, at most one branch of the tree owns a given id. */
  lemma {:induction false} OwnerUnique(b: Branch, id: int, o1: Branch, o2: Branch)
    requires Distinct(Ids(b)) && o1 in Subtrees(b) && o2 in Subtrees(b)
    requires id in OwnIds(o1) && id in OwnIds(o2)
    ensures o1 == o2
    decreases b
  {
    DistinctSplit(OwnIds(b), ForestIds(b.children));
    if o1 != b && o2 != b {
      ForestOwnerUnique(b.children, id, o1, o2);
    } else if o1 != b {
      OwnInIds(o1, id);
      ForestSubtreeIds(b.children, o1);
    } else if o2 != b {
      OwnInIds(o2, id);
      ForestSubtreeIds(b.children, o2);
    }
  }

  lemma {:induction false} ForestOwnerUnique(cs: seq<Branch>, id: int, o1: Branch, o2: Branch)
    requires Distinct(ForestIds(cs)) && o1 in ForestSubtrees(cs) && o2 in ForestSubtrees(cs)
    requires id in OwnIds(o1) && id in OwnIds(o2)
    ensures o1 == o2
    decreases cs
  {
    var init, last := cs[..|cs| - 1], cs[|cs| - 1];
    DistinctSplit(ForestIds(init), Ids(last));
    var in1, in2 := o1 in ForestSubtrees(init), o2 in ForestSubtrees(init);
    if in1 && in2 {
      ForestOwnerUnique(init, id, o1, o2);
    } else if !in1 && !in2 {
      OwnerUnique(last, id, o1, o2);
    } else if in1 {
      OwnInIds(o1, id);
      OwnInIds(o2, id);
      ForestSubtreeIds(init, o1);
      SubtreeIds(last, o2);
    } else {
      OwnInIds(o1, id);
      OwnInIds(o2, id);
      SubtreeIds(last, o1);
      ForestSubtreeIds(init, o2);
    }
  }

  /**
   * With distinct ids, `findNodeById` returns the owning branch of any id of
   * the tree: for its own id or its leaf id with no segment, for a segment id
   * with that segment.
   */
  lemma FindOwner(b: Branch, id: int, o: Branch)
    requires Distinct(Ids(b)) && o in Subtrees(b) && id in OwnIds(o)
    ensures FindNodeById(b, id).branch == Some(o)
    ensures Owns(o, FindNodeById(b, id).segment, id)
  {
    SubtreeIds(b, o);
    FindSound(b, id);
    var f := FindNodeById(b, id);
    OwnsOwnIds(f.branch.value, f.segment, id);
    OwnerUnique(b, id, o, f.branch.value);
  }

  // ---------------------------------------------------------------------
  // The guard of onMouseDown

  /**
   * What the highlighted object is: a leaf mesh (icosahedron) or a segment
   * mesh, each with the id in its `userData`.
   */
  datatype Target = LeafTarget(id: int) | SegmentTarget(id: int)

  /**
   * `canPrune`: a leaf always; a segment only when `findNodeById` finds it as
   * a segment of a branch above level 0.
   */
  predicate CanPrune(tree: Option<Branch>, t: Target) {
    match t
    case LeafTarget(_) => true
    case SegmentTarget(id) =>
      var f := FindInTree(tree, id);
      f.branch.Some? && f.segment.Some? && f.branch.value.level > 0
  }

  /** The prune set after a click on `t`: unchanged when refused. */
  function ClickPrune(tree: Option<Branch>, p: seq<int>, t: Target): seq<int> {
    if !CanPrune(tree, t) then p
    else match t
      case LeafTarget(id) => Add(p, id)
      case SegmentTarget(id) =>
        var f := FindInTree(tree, id);
        PruneFromSegment(p, f.branch.value, f.segment.value)
  }

  /** A click on a leaf adds that id and nothing else. */
  lemma LeafClick(tree: Option<Branch>, p: seq<int>, id: int)
    ensures var r := ClickPrune(tree, p, LeafTarget(id));
      p <= r && forall x :: x in r <==> x in p || x == id
  {
  }

  /**
   * Every segment of the root trunk is protected, not only segment 0:
   * `findNodeById` returns the root (level 0) for any of them, so the click
   * is refused and the prune set is unchanged.
   */
  lemma RootTrunkProtected(root: Branch, p: seq<int>, id: int)
    requires root.level == 0 && id in SegmentIds(root.segments)
    ensures !CanPrune(Some(root), SegmentTarget(id))
    ensures ClickPrune(Some(root), p, SegmentTarget(id)) == p
  {
    FindSegmentSound(root.segments, id);
  }

  lemma SegmentUnique(segs: seq<Segment>, s1: Segment, s2: Segment)
    requires Distinct(SegmentIds(segs)) && s1 in segs && s2 in segs && s1.id == s2.id
    ensures s1 == s2
  {
    var i :| 0 <= i < |segs| && segs[i] == s1;
    var j :| 0 <= j < |segs| && segs[j] == s2;
    assert SegmentIds(segs)[i] == SegmentIds(segs)[j];
  }

  /**
   * A click on segment `s` of a branch `o` above level 0 is accepted and
   * cuts `o` at `s`: the prune set gains exactly `o`'s ids other than `o`
   * itself (unless `s` is segment 0) and its segments below `s`.
   */
  lemma SegmentClick(root: Branch, p: seq<int>, o: Branch, s: Segment)
    requires Distinct(Ids(root)) && o in Subtrees(root) && s in o.segments
    requires o.level > 0 && s.segmentIndex <= |o.segments|
    ensures CanPrune(Some(root), SegmentTarget(s.id))
    ensures var r := ClickPrune(Some(root), p, SegmentTarget(s.id));
      && p <= r
      && forall x :: x in r <==> x in p || (x in Ids(o) && x !in KeptIds(o, s.segmentIndex))
  {
    var i :| 0 <= i < |o.segments| && o.segments[i] == s;
    assert SegmentIds(o.segments)[i] == s.id;
    assert s.id in OwnIds(o);
    FindOwner(root, s.id, o);
    var f := FindNodeById(root, s.id);
    SubtreeIds(root, o);
    DistinctSplit([o.id] + SegmentIds(o.segments) + LeafIds(o.leaf), ForestIds(o.children));
    DistinctSplit([o.id] + SegmentIds(o.segments), LeafIds(o.leaf));
    DistinctSplit([o.id], SegmentIds(o.segments));
    SegmentUnique(o.segments, s, f.segment.value);
    PruneFromSegmentExact(p, o, s);
  }
}
