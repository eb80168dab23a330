/**
 * The tree data of script.js (`generateBranchData`, `generateNewTree`):
 * branches with three segments each, a leaf from level 3 up and two to four
 * children down to level 5, with ids handed out by one counter in pre-order.
 *
 * The closure `() => idCounter++` and the generator object are threaded
 * explicitly through `GenState`; `mix` is the generator's output function
 * (`Mix` for Mulberry32). The imperative method `GenerateBranchData` uses the
 * `Mulberry32` object and is proved equal to the function `GenBranch`.
 * Rotation angles are kept as the two raw words drawn for them:
 * `(next() - 0.5) * PI * 0.8` is a fixed function of each word.
 */
module TreeModel {
  import opened Wrappers
  import opened Prng

  /** The deepest level that is generated (`level > 5` returns null). */
  const MaxLevel: nat := 5
  /** Every branch has exactly this many segments. */
  const SegmentCount: nat := 3
  /** Branches at this level and deeper carry a leaf. */
  const LeafLevel: nat := 3

  datatype Segment = Segment(id: int, level: int, segmentIndex: nat)
  datatype Leaf = Leaf(id: int)
  /** The raw draws behind `rotation.x` and `rotation.z`. */
  datatype Rotation = Rotation(x: int, z: int)

  /** `branchData`; the root has no rotation (`undefined` in the source). */
  datatype Branch = Branch(id: int, level: int, segments: seq<Segment>, leaf: Option<Leaf>,
                           children: seq<Branch>, rotation: Option<Rotation>)

  /** The generator state and the next id the counter hands out. */
  datatype GenState = GenState(rng: int, nextId: int)
  datatype Generated = Generated(branch: Option<Branch>, state: GenState)
  datatype GeneratedChildren = GeneratedChildren(children: seq<Branch>, state: GenState)

  /** The segments of a branch whose own id is `id`: ids `id + 1 .. id + 3`, indices 0, 1, 2. */
  function SegmentsOf(id: int, level: int): seq<Segment> {
    seq(SegmentCount, (i: nat) => Segment(id + 1 + i, level, i))
  }

  /** The leaf of a branch whose own id is `id`: id `id + 4`, from level 3 up. */
  function LeafOf(id: int, level: int): Option<Leaf> {
    if level >= LeafLevel then Some(Leaf(id + 1 + SegmentCount)) else None
  }

  /** The counter value after a branch's own, segment and leaf ids. */
  function AfterLeaf(id: int, level: int): int {
    id + 1 + SegmentCount + (if level >= LeafLevel then 1 else 0)
  }

  /**
   * `generateBranchData(parent, level, random, getId)`: the branch id, then
   * the three segment ids, then the leaf id, then the child count draw, then
   * each child's subtree followed by that child's two rotation draws.
   */
  function GenBranch(level: nat, st: GenState, mix: int -> int): Generated
    decreases MaxLevel + 1 - level, 1, 0
  {
    if level > MaxLevel then Generated(None, st)
    else
      var id := st.nextId;
      var count := NextOf(st.rng, mix);
      var kids := GenChildren(level, ChildCount(count.word), GenState(count.state, AfterLeaf(id, level)), mix);
      Generated(Some(Branch(id, level, SegmentsOf(id, level), LeafOf(id, level), kids.children, None)), kids.state)
  }

  /** The first `count` iterations of the children loop of a branch at `level`. */
  function GenChildren(level: nat, count: nat, st: GenState, mix: int -> int): GeneratedChildren
    requires level <= MaxLevel
    decreases MaxLevel + 1 - level, 0, count
  {
    if count == 0 then GeneratedChildren([], st)
    else
      var before := GenChildren(level, count - 1, st, mix);
      AddChild(before, GenBranch(level + 1, before.state, mix), mix)
  }

  /**
   * One iteration of the children loop after the recursive call returned
   * `child`: a built child gets its two rotation draws and is appended.
   */
  function AddChild(before: GeneratedChildren, child: Generated, mix: int -> int): GeneratedChildren {
    match child.branch
    case None => GeneratedChildren(before.children, child.state)
    case Some(c) =>
      var x := NextOf(child.state.rng, mix);
      var z := NextOf(x.state, mix);
      GeneratedChildren(before.children + [c.(rotation := Some(Rotation(x.word, z.word)))],
                        GenState(z.state, child.state.nextId))
  }

  /** The tree `generateNewTree(seed)` builds: a fresh Mulberry32 and the counter at 0. */
  function GenerateTree(seed: int): Generated {
    GenBranch(0, GenState(seed, 0), Mix)
  }

  // ---------------------------------------------------------------------
  // Shape

  /** The shape every generated branch has, down to its leaves. */
  predicate Shaped(b: Branch)
    decreases b
  {
    && 0 <= b.level <= MaxLevel
    && b.segments == SegmentsOf(b.id, b.level)
    && (b.leaf.Some? <==> b.level >= LeafLevel)
    && (b.leaf.Some? ==> b.leaf.value.id == b.id + 1 + SegmentCount)
    && (b.level == MaxLevel ==> b.children == [])
    && (b.level < MaxLevel ==> 2 <= |b.children| <= 4)
    && forall i :: 0 <= i < |b.children| ==>
         && b.children[i].level == b.level + 1
         && b.children[i].rotation.Some?
         && Shaped(b.children[i])
  }

  /** Every child produced by the children loop has the next level, a rotation and the shape. */
  predicate ChildrenShaped(cs: seq<Branch>, level: int)
  {
    forall i :: 0 <= i < |cs| ==> cs[i].level == level + 1 && cs[i].rotation.Some? && Shaped(cs[i])
  }

  /**
   * `generateBranchData` returns null exactly above level 5; otherwise the
   * branch has the requested level, no rotation of its own, three segments
   * tagged 0, 1, 2 with its level, a leaf iff level >= 3, and
   * `floor(next() * 3) + 2` children (the first draw) below level 5, none at 5.
   */
  lemma {:induction false} GenerationShape(level: nat, st: GenState, mix: int -> int)
    ensures GenBranch(level, st, mix).branch.Some? <==> level <= MaxLevel
    ensures level > MaxLevel ==> GenBranch(level, st, mix).state == st
    ensures level <= MaxLevel ==>
      var b := GenBranch(level, st, mix).branch.value;
      && b.id == st.nextId && b.level == level && b.rotation == None && Shaped(b)
      && |b.children| == (if level < MaxLevel then ChildCount(Draw(st.rng, 0, mix)) else 0)
    decreases MaxLevel + 1 - level, 1, 0
  {
    if level <= MaxLevel {
      var count := NextOf(st.rng, mix);
      ChildrenShape(level, ChildCount(count.word), GenState(count.state, AfterLeaf(st.nextId, level)), mix);
    }
  }

  lemma {:induction false} ChildrenShape(level: nat, count: nat, st: GenState, mix: int -> int)
    requires level <= MaxLevel
    ensures ChildrenShaped(GenChildren(level, count, st, mix).children, level)
    ensures |GenChildren(level, count, st, mix).children| == if level < MaxLevel then count else 0
    decreases MaxLevel + 1 - level, 0, count
  {
    if count > 0 {
      var before := GenChildren(level, count - 1, st, mix);
      ChildrenShape(level, count - 1, st, mix);
      GenerationShape(level + 1, before.state, mix);
      var child := GenBranch(level + 1, before.state, mix);
      if child.branch.Some? {
        var c := child.branch.value;
        var x := NextOf(child.state.rng, mix);
        var z := NextOf(x.state, mix);
        var c' := c.(rotation := Some(Rotation(x.word, z.word)));
        ShapedIgnoresRotation(c, c'.rotation);
        AppendShaped(before.children, c', level);
      }
    }
  }

  /** The shape does not depend on a branch's own rotation. */
  lemma ShapedIgnoresRotation(b: Branch, r: Option<Rotation>)
    ensures Shaped(b.(rotation := r)) == Shaped(b)
  {
    assert b.(rotation := r).children == b.children;
  }

  lemma AppendShaped(cs: seq<Branch>, c: Branch, level: int)
    requires ChildrenShaped(cs, level)
    requires c.level == level + 1 && c.rotation.Some? && Shaped(c)
    ensures ChildrenShaped(cs + [c], level)
  {
    var r := cs + [c];
    forall i | 0 <= i < |r|
      ensures r[i].level == level + 1 && r[i].rotation.Some? && Shaped(r[i])
    {
      if i < |cs| {
        assert r[i] == cs[i];
      }
    }
  }

  // ---------------------------------------------------------------------
  // Ids

  /** The integers `lo, lo + 1, ..., hi - 1`. */
  function Range(lo: int, hi: int): seq<int>
    requires lo <= hi
  {
    seq(hi - lo, i => lo + i)
  }

  function SegmentIds(segs: seq<Segment>): seq<int> {
    seq(|segs|, i requires 0 <= i < |segs| => segs[i].id)
  }

  function LeafIds(leaf: Option<Leaf>): seq<int> {
    if leaf.Some? then [leaf.value.id] else []
  }

  /** The ids of a branch in the order they are handed out: pre-order. */
  function Ids(b: Branch): seq<int>
    decreases b
  {
    [b.id] + SegmentIds(b.segments) + LeafIds(b.leaf) + ForestIds(b.children)
  }

  /** The ids of a list of sibling subtrees, in order. */
  function ForestIds(cs: seq<Branch>): seq<int>
    decreases cs
  {
    if cs == [] then [] else ForestIds(cs[..|cs| - 1]) + Ids(cs[|cs| - 1])
  }

  /**
   * Ids are handed out consecutively in pre-order: a generated branch uses
   * exactly the ids from the counter's value before the call up to (not
   * including) its value after.
   */
  lemma {:induction false} IdsConsecutive(level: nat, st: GenState, mix: int -> int)
    ensures st.nextId <= GenBranch(level, st, mix).state.nextId
    ensures GenBranch(level, st, mix).branch.Some? ==>
      Ids(GenBranch(level, st, mix).branch.value) == Range(st.nextId, GenBranch(level, st, mix).state.nextId)
    decreases MaxLevel + 1 - level, 1, 0
  {
    if level <= MaxLevel {
      var g := GenBranch(level, st, mix);
      var b := g.branch.value;
      var id := st.nextId;
      var count := NextOf(st.rng, mix);
      var kst := GenState(count.state, AfterLeaf(id, level));
      ChildrenIdsConsecutive(level, ChildCount(count.word), kst, mix);
      HeadIds(id, level);
      RangeAppend(id, AfterLeaf(id, level), g.state.nextId);
    }
  }

  /** The branch's own, segment and leaf ids are the consecutive ids up to `AfterLeaf`. */
  lemma HeadIds(id: int, level: int)
    ensures [id] + SegmentIds(SegmentsOf(id, level)) + LeafIds(LeafOf(id, level)) == Range(id, AfterLeaf(id, level))
  {
    SegmentIdsOf(id, level);
    RangeSingle(id);
    RangeAppend(id, id + 1, id + 1 + SegmentCount);
    RangeAppend(id, id + 1 + SegmentCount, AfterLeaf(id, level));
    assert LeafIds(LeafOf(id, level)) == Range(id + 1 + SegmentCount, AfterLeaf(id, level));
  }

  lemma SegmentIdsOf(id: int, level: int)
    ensures SegmentIds(SegmentsOf(id, level)) == Range(id + 1, id + 1 + SegmentCount)
  {
  }

  lemma RangeSingle(a: int)
    ensures [a] == Range(a, a + 1)
  {
  }

  lemma RangeAppend(a: int, b: int, c: int)
    requires a <= b <= c
    ensures Range(a, b) + Range(b, c) == Range(a, c)
  {
  }

  lemma {:induction false} ChildrenIdsConsecutive(level: nat, count: nat, st: GenState, mix: int -> int)
    requires level <= MaxLevel
    ensures st.nextId <= GenChildren(level, count, st, mix).state.nextId
    ensures ForestIds(GenChildren(level, count, st, mix).children)
            == Range(st.nextId, GenChildren(level, count, st, mix).state.nextId)
    decreases MaxLevel + 1 - level, 0, count
  {
    if count > 0 {
      var before := GenChildren(level, count - 1, st, mix);
      ChildrenIdsConsecutive(level, count - 1, st, mix);
      IdsConsecutive(level + 1, before.state, mix);
      var child := GenBranch(level + 1, before.state, mix);
      if child.branch.Some? {
        var c := child.branch.value;
        var x := NextOf(child.state.rng, mix);
        var z := NextOf(x.state, mix);
        var c' := c.(rotation := Some(Rotation(x.word, z.word)));
        assert Ids(c') == Ids(c);
        ForestIdsAppend(before.children, c');
        RangeAppend(st.nextId, before.state.nextId, child.state.nextId);
      }
    }
  }

  /** Appending a subtree appends its ids. */
  lemma ForestIdsAppend(cs: seq<Branch>, c: Branch)
    ensures ForestIds(cs + [c]) == ForestIds(cs) + Ids(c)
  {
    assert (cs + [c])[..|cs|] == cs;
  }

  /** All elements of `s` are different. */
  predicate Distinct(s: seq<int>) {
    forall i, j :: 0 <= i < j < |s| ==> s[i] != s[j]
  }

  lemma RangeDistinct(lo: int, hi: int)
    requires lo <= hi
    ensures Distinct(Range(lo, hi))
  {
  }

  /**
   * A whole generated tree (counter starting at 0, any seed and any output
   * function, Mulberry32's included): the root has id 0 and level 0, the tree
   * has the shape above, and its ids are exactly `0 .. n - 1`, all distinct.
   */
  lemma TreeIds(seed: int, mix: int -> int)
    ensures GenBranch(0, GenState(seed, 0), mix).branch.Some?
    ensures var g := GenBranch(0, GenState(seed, 0), mix);
      && g.branch.value.id == 0 && g.branch.value.level == 0 && Shaped(g.branch.value)
      && 0 <= g.state.nextId
      && Ids(g.branch.value) == Range(0, g.state.nextId) && Distinct(Ids(g.branch.value))
  {
    var st := GenState(seed, 0);
    GenerationShape(0, st, mix);
    IdsConsecutive(0, st, mix);
    RangeDistinct(0, GenBranch(0, st, mix).state.nextId);
  }

  // ---------------------------------------------------------------------
  // Draw order

  /** Draws the main variant consumes for a built branch: the count, then two per built child. */
  function Draws(b: Branch): nat
    decreases b
  {
    1 + ForestDraws(b.children)
  }

  function ForestDraws(cs: seq<Branch>): nat
    decreases cs
  {
    if cs == [] then 0 else ForestDraws(cs[..|cs| - 1]) + Draws(cs[|cs| - 1]) + 2
  }

  /** Appending a built child adds its own draws and its two rotation draws. */
  lemma ForestDrawsAppend(cs: seq<Branch>, c: Branch)
    ensures ForestDraws(cs + [c]) == ForestDraws(cs) + Draws(c) + 2
  {
    assert (cs + [c])[..|cs|] == cs;
  }

  /**
   * The stream is advanced exactly once for the child count and twice per
   * built child on top of that child's own draws; a call above level 5 draws
   * nothing.
   */
  lemma {:induction false} DrawsConsumed(level: nat, st: GenState, mix: int -> int)
    ensures GenBranch(level, st, mix).branch.None? ==> GenBranch(level, st, mix).state.rng == st.rng
    ensures GenBranch(level, st, mix).branch.Some? ==>
      GenBranch(level, st, mix).state.rng == Skip(st.rng, Draws(GenBranch(level, st, mix).branch.value))
    decreases MaxLevel + 1 - level, 1, 0
  {
    if level <= MaxLevel {
      var count := NextOf(st.rng, mix);
      var kst := GenState(count.state, AfterLeaf(st.nextId, level));
      var kids := GenChildren(level, ChildCount(count.word), kst, mix);
      ChildrenDrawsConsumed(level, ChildCount(count.word), kst, mix);
      var fd := ForestDraws(kids.children);
      SkipAdd(st.rng, 1, fd);
      var g := GenBranch(level, st, mix);
      assert g.branch.value.children == kids.children;
      assert Draws(g.branch.value) == 1 + fd;
      assert g.state.rng == Skip(st.rng, 1 + fd);
      assert g.state.rng == Skip(st.rng, Draws(g.branch.value));
    } else {
      assert GenBranch(level, st, mix) == Generated(None, st);
    }
  }

  lemma {:induction false} ChildrenDrawsConsumed(level: nat, count: nat, st: GenState, mix: int -> int)
    requires level <= MaxLevel
    ensures GenChildren(level, count, st, mix).state.rng
            == Skip(st.rng, ForestDraws(GenChildren(level, count, st, mix).children))
    decreases MaxLevel + 1 - level, 0, count
  {
    if count > 0 {
      var before := GenChildren(level, count - 1, st, mix);
      ChildrenDrawsConsumed(level, count - 1, st, mix);
      DrawsConsumed(level + 1, before.state, mix);
      var child := GenBranch(level + 1, before.state, mix);
      if child.branch.Some? {
        var c := child.branch.value;
        var x := NextOf(child.state.rng, mix);
        var z := NextOf(x.state, mix);
        var c' := c.(rotation := Some(Rotation(x.word, z.word)));
        assert Draws(c') == Draws(c);
        ForestDrawsAppend(before.children, c');
        var n := ForestDraws(before.children);
        SkipChain(st.rng, n, Draws(c), before.state.rng, child.state.rng, z.state);
        var g := GenChildren(level, count, st, mix);
        assert g == GeneratedChildren(before.children + [c'], GenState(z.state, child.state.nextId));
      } else {
        var g := GenChildren(level, count, st, mix);
        assert g == GeneratedChildren(before.children, child.state);
        assert g.state.rng == before.state.rng;
      }
    } else {
      assert GenChildren(level, count, st, mix) == GeneratedChildren([], st);
    }
  }

  /** The rotation drawn as draws `k` and `k + 1` from state `a`. */
  function RotationAt(a: int, k: nat, mix: int -> int): Option<Rotation> {
    Some(Rotation(Draw(a, k, mix), Draw(a, k + 1, mix)))
  }

  /**
   * Every child of `cs` is rotated by the two draws that follow, counted
   * from `off` draws after state `a`, the draws of the children before it and
   * of its own subtree: each rotation pair is drawn after that child's whole
   * subtree.
   */
  predicate Rotated(cs: seq<Branch>, a: int, off: nat, mix: int -> int)
    decreases |cs|
  {
    |cs| > 0 ==>
      var last := |cs| - 1;
      && Rotated(cs[..last], a, off, mix)
      && cs[last].rotation == RotationAt(a, off + ForestDraws(cs[..last]) + Draws(cs[last]), mix)
  }

  /** Child `i` of a `Rotated` list gets draws `off + k` and `off + k + 1`, `k` the draws before and under it. */
  lemma {:induction false} RotatedAt(cs: seq<Branch>, a: int, off: nat, mix: int -> int, i: nat)
    requires Rotated(cs, a, off, mix) && i < |cs|
    ensures cs[i].rotation == RotationAt(a, off + ForestDraws(cs[..i]) + Draws(cs[i]), mix)
    decreases |cs|
  {
    var p := cs[..|cs| - 1];
    if i < |p| {
      RotatedAt(p, a, off, mix, i);
      assert p[i] == cs[i] && p[..i] == cs[..i];
    }
  }

  /**
   * One iteration of the children loop keeps the list `Rotated`: a built
   * child that returns after the earlier draws and its own subtree's is
   * appended with the next two draws as its rotation.
   */
  lemma AddChildRotated(before: GeneratedChildren, child: Generated, a: int, off: nat, mix: int -> int)
    requires Rotated(before.children, a, off, mix)
    requires before.state.rng == Skip(a, off + ForestDraws(before.children))
    requires child.branch.Some? ==> child.state.rng == Skip(before.state.rng, Draws(child.branch.value))
    ensures Rotated(AddChild(before, child, mix).children, a, off, mix)
  {
    if child.branch.Some? {
      var c := child.branch.value;
      var k := off + ForestDraws(before.children) + Draws(c);
      SkipAdd(a, off + ForestDraws(before.children), Draws(c));
      DrawAfterSkip(a, k, 0, mix);
      DrawAfterSkip(a, k, 1, mix);
      SkipAdd(a, k, 1);
      var c' := c.(rotation := RotationAt(a, k, mix));
      assert Draws(c') == Draws(c);
      assert AddChild(before, child, mix).children == before.children + [c'];
      assert (before.children + [c'])[..|before.children|] == before.children;
    }
  }

  /** The children loop started `off` draws after state `a` rotates its children as `Rotated` says. */
  lemma {:induction false} ChildrenRotations(level: nat, count: nat, st: GenState, a: int, off: nat, mix: int -> int)
    requires level <= MaxLevel && st.rng == Skip(a, off)
    ensures Rotated(GenChildren(level, count, st, mix).children, a, off, mix)
    decreases count
  {
    if count > 0 {
      ChildrenRotations(level, count - 1, st, a, off, mix);
      ChildrenRotationsStep(level, count, st, a, off, mix);
    }
  }

  /** One more iteration of the children loop keeps its list `Rotated`. */
  lemma ChildrenRotationsStep(level: nat, count: nat, st: GenState, a: int, off: nat, mix: int -> int)
    requires level <= MaxLevel && count > 0 && st.rng == Skip(a, off)
    requires Rotated(GenChildren(level, count - 1, st, mix).children, a, off, mix)
    ensures Rotated(GenChildren(level, count, st, mix).children, a, off, mix)
  {
    var before := GenChildren(level, count - 1, st, mix);
    var child := GenBranch(level + 1, before.state, mix);
    ChildrenDrawsConsumed(level, count - 1, st, mix);
    SkipAdd(a, off, ForestDraws(before.children));
    DrawsConsumed(level + 1, before.state, mix);
    AddChildRotated(before, child, a, off, mix);
    assert GenChildren(level, count, st, mix) == AddChild(before, child, mix);
  }

  /**
   * The children of a generated branch are `Rotated` from draw 1 of its
   * starting state on: after the child count draw, child `i` gets the two
   * draws that follow the earlier children's and its own subtree's draws, so
   * the first child gets draws `1 + d` and `2 + d` where `d` is what its
   * subtree consumed.
   */
  lemma ChildRotations(level: nat, st: GenState, mix: int -> int)
    requires level <= MaxLevel
    ensures Rotated(GenBranch(level, st, mix).branch.value.children, st.rng, 1, mix)
  {
    var count := NextOf(st.rng, mix);
    var kst := GenState(count.state, AfterLeaf(st.nextId, level));
    ChildrenRotations(level, ChildCount(count.word), kst, st.rng, 1, mix);
    assert GenBranch(level, st, mix).branch.value.children == GenChildren(level, ChildCount(count.word), kst, mix).children;
  }

  /**
   * Below level 5 the first child is rotated by draws `1 + d` and `2 + d`,
   * `d` being the draws its own subtree consumed after the count draw.
   */
  lemma FirstChildRotation(level: nat, st: GenState, mix: int -> int)
    requires level < MaxLevel
    ensures var cs := GenBranch(level, st, mix).branch.value.children;
      && |cs| >= 2
      && cs[0].rotation == Some(Rotation(Draw(st.rng, 1 + Draws(cs[0]), mix), Draw(st.rng, 2 + Draws(cs[0]), mix)))
  {
    var cs := GenBranch(level, st, mix).branch.value.children;
    assert |cs| >= 2 by { GenerationShape(level, st, mix); }
    assert Rotated(cs, st.rng, 1, mix) by { ChildRotations(level, st, mix); }
    FirstRotated(cs, st.rng, mix);
  }

  lemma FirstRotated(cs: seq<Branch>, a: int, mix: int -> int)
    requires Rotated(cs, a, 1, mix) && |cs| > 0
    ensures cs[0].rotation == Some(Rotation(Draw(a, 1 + Draws(cs[0]), mix), Draw(a, 2 + Draws(cs[0]), mix)))
  {
    RotatedAt(cs, a, 1, mix, 0);
    assert cs[..0] == [];
  }

  /** The level-5 children loop builds no child. */
  lemma {:induction false} NoGrandchildren(n: nat, st: GenState, mix: int -> int)
    ensures GenChildren(MaxLevel, n, st, mix).children == []
    decreases n
  {
    if n > 0 {
      NoGrandchildren(n - 1, st, mix);
    }
  }

  /** The state after a prefix of `n` draws, a subtree of `d` draws and the two rotation draws. */
  lemma SkipChain(a: int, n: nat, d: nat, b: int, c: int, e: int)
    requires b == Skip(a, n) && c == Skip(b, d) && e == Skip(Skip(c, 1), 1)
    ensures e == Skip(a, n + d + 2)
  {
    SkipAdd(a, n, d);
    SkipAdd(a, n + d, 1);
    SkipAdd(a, n + d + 1, 1);
  }

  /**
   * `Array.from({ length: 3 }, ...)` for the branch with id `id`: the counter
   * hands out the next three ids, one per segment index in order.
   */
  method NewSegments(id: int, level: int) returns (segments: seq<Segment>)
    ensures segments == SegmentsOf(id, level)
  {
    var nextId := id + 1;
    segments := [];
    var i := 0;
    while i < SegmentCount
      invariant 0 <= i <= SegmentCount
      invariant nextId == id + 1 + i
      invariant segments == seq(i, (j: nat) => Segment(id + 1 + j, level, j))
    {
      segments := segments + [Segment(nextId, level, i)];
      nextId := nextId + 1;
      i := i + 1;
    }
  }

  /**
   * `generateBranchData` with the generator object and the id counter made
   * explicit: returns the branch (or None above level 5) and the counter's
   * next value.
   */
  method GenerateBranchData(level: nat, random: Mulberry32, idCounter: int)
    returns (data: Option<Branch>, nextId: int)
    requires IsWordValued(random.mix)
    modifies random
    ensures Generated(data, GenState(random.a, nextId))
            == GenBranch(level, GenState(old(random.a), idCounter), random.mix)
    decreases MaxLevel + 1 - level, 1
  {
    if level > MaxLevel {
      return None, idCounter;
    }
    var id := idCounter;
    var segments := NewSegments(id, level);
    nextId := id + 1 + SegmentCount;
    var leaf: Option<Leaf> := None;
    if level >= LeafLevel {
      leaf := Some(Leaf(nextId));
      nextId := nextId + 1;
    }
    ghost var a0 := random.a;
    var k := random.Next();
    assert NextOf(a0, random.mix) == Step(k, random.a);
    var numBranches := ChildCount(k);
    var children;
    children, nextId := GenerateChildren(level, numBranches, random, nextId);
    data := Some(Branch(id, level, segments, leaf, children, None));
  }

  /**
   * The children loop of `generateBranchData` for a branch at `level`:
   * `numBranches` recursive calls, each built child followed by its two
   * rotation draws and pushed onto the children.
   */
  method GenerateChildren(level: nat, numBranches: nat, random: Mulberry32, idCounter: int)
    returns (children: seq<Branch>, nextId: int)
    requires level <= MaxLevel && IsWordValued(random.mix)
    modifies random
    ensures GeneratedChildren(children, GenState(random.a, nextId))
            == GenChildren(level, numBranches, GenState(old(random.a), idCounter), random.mix)
    decreases MaxLevel + 1 - level, 0
  {
    ghost var st0 := GenState(random.a, idCounter);
    children := [];
    nextId := idCounter;
    var j := 0;
    while j < numBranches
      invariant 0 <= j <= numBranches
      invariant GenChildren(level, j, st0, random.mix) == GeneratedChildren(children, GenState(random.a, nextId))
    {
      ghost var before := GeneratedChildren(children, GenState(random.a, nextId));
      var childData, n := GenerateBranchData(level + 1, random, nextId);
      nextId := n;
      children := PushChild(children, before.state, childData, nextId, random);
      ChildrenStep(level, j, st0, random.mix);
      j := j + 1;
    }
  }

  /**
   * The rest of one iteration of the children loop, after the recursive
   * call returned `childData`: a built child gets its two rotation draws and
   * is pushed onto the children.
   */
  method PushChild(children: seq<Branch>, ghost st: GenState, childData: Option<Branch>, nextId: int, random: Mulberry32)
    returns (pushed: seq<Branch>)
    requires IsWordValued(random.mix)
    modifies random
    ensures GeneratedChildren(pushed, GenState(random.a, nextId))
         == AddChild(GeneratedChildren(children, st), Generated(childData, GenState(old(random.a), nextId)), random.mix)
  {
    pushed := children;
    if childData.Some? {
      ghost var c0 := random.a;
      var x := random.Next();
      var z := random.Next();
      assert NextOf(c0, random.mix) == Step(x, Skip(c0, 1));
      assert NextOf(Skip(c0, 1), random.mix) == Step(z, random.a);
      pushed := pushed + [childData.value.(rotation := Some(Rotation(x, z)))];
    }
  }

  /** One more iteration of the children loop. */
  lemma ChildrenStep(level: nat, j: nat, st: GenState, mix: int -> int)
    requires level <= MaxLevel
    ensures var before := GenChildren(level, j, st, mix);
      GenChildren(level, j + 1, st, mix) == AddChild(before, GenBranch(level + 1, before.state, mix), mix)
  {
  }

  /** The tree part of `generateNewTree`: a fresh generator per call, the counter at 0. */
  method GenerateNewTreeData(seed: int) returns (tree: Branch)
    ensures GenerateTree(seed).branch == Some(tree)
  {
    var random := new Mulberry32(seed);
    GenerationShape(0, GenState(random.a, 0), random.mix);
    var data, _ := GenerateBranchData(0, random, 0);
    tree := data.value;
  }
}
