/**
 * The second earlier variant, bkp/2/script.js: `createBranch` builds three
 * chained segment meshes per branch, labelled with their level and index,
 * a leaf mesh on the top segment from level 3 up, and two to four child
 * pivots, drawing each pivot's rotation before building the child under
 * it. A click removes the highlighted segment (or a leaf's segment) with
 * its subtree, except the first segment of the trunk.
 */
module Bkp2 {
  import opened Wrappers
  import opened Prng
  import opened TreeModel
  import opened Scene
  import opened Legacy

  /** The segment `i` of a branch appended from handle `base` on: segment 0 hangs from `parent`, each later one from the segment before it. */
  function SegmentNodeAt(base: nat, parent: nat, level: nat, i: nat): SceneNode {
    SceneNode(Some(if i == 0 then parent else base + i - 1), Cylinder(Some(SegmentLabel(level, i))))
  }

  /** The first `n` segments of a branch at `level`, appended from handle `base` on. */
  function ChainSegs(base: nat, parent: nat, level: nat, n: nat): (r: seq<SceneNode>)
    ensures |r| == n
  {
    if n == 0 then [] else ChainSegs(base, parent, level, n - 1) + [SegmentNodeAt(base, parent, level, n - 1)]
  }

  /**
   * The nodes of a branch at `level` before its child count draw: its
   * `SegmentCount` (three) segments and, from level 3 up, its leaf.
   */
  function Leafed(nodes: seq<SceneNode>, parent: nat, level: nat): (r: seq<SceneNode>)
    ensures |r| == |nodes| + SegmentCount + (if level >= LeafLevel then 1 else 0)
  {
    var b := |nodes|;
    var chained := nodes + [SegmentNodeAt(b, parent, level, 0), SegmentNodeAt(b, parent, level, 1), SegmentNodeAt(b, parent, level, 2)];
    if level >= LeafLevel then chained + [SceneNode(Some(b + SegmentCount - 1), Foliage)] else chained
  }

  /**
   * `createBranch(parent, level, random)`: above level 5 nothing; otherwise
   * the three segments, the leaf on the top segment from level 3 up, the
   * child count draw and the children's pivots.
   */
  function Grow(nodes: seq<SceneNode>, parent: nat, level: nat, rng: int, mix: int -> int): Grown
    decreases MaxLevel + 1 - level, 1, 0
  {
    if level > MaxLevel then Grown(nodes, rng)
    else
      var count := NextOf(rng, mix);
      Pivots(Leafed(nodes, parent, level), |nodes| + SegmentCount - 1, level, ChildCount(count.word), count.state, mix)
  }

  /**
   * The first `n` iterations of the children loop: two rotation draws, the
   * pivot on the top segment, then the child branch built under it.
   */
  function Pivots(nodes: seq<SceneNode>, top: nat, level: nat, n: nat, rng: int, mix: int -> int): Grown
    requires level <= MaxLevel
    decreases MaxLevel + 1 - level, 0, n
  {
    if n == 0 then Grown(nodes, rng)
    else
      var before := Pivots(nodes, top, level, n - 1, rng, mix);
      var x := NextOf(before.rng, mix);
      var z := NextOf(x.state, mix);
      Grow(before.nodes + [SceneNode(Some(top), Pivot(Some(Rotation(x.word, z.word))))], |before.nodes|, level + 1, z.state, mix)
  }

  /** `createBranch(parent, level, random)` on the scene graph. */
  method CreateBranch(scene: SceneGraph, parent: nat, level: nat, random: Mulberry32)
    requires parent < |scene.nodes| && IsWordValued(random.mix)
    modifies scene, random
    ensures Grown(scene.nodes, random.a) == Grow(old(scene.nodes), parent, level, old(random.a), random.mix)
    decreases MaxLevel + 1 - level, 1, 0
  {
    if level > MaxLevel {
      return;
    }
    var topSegment := AddSegments(scene, parent, level);
    var k := random.Next();
    var numBranches := ChildCount(k);
    AddPivots(scene, topSegment, level, numBranches, random);
    GrowUnfold(old(scene.nodes), parent, level, old(random.a), random.mix);
  }

  /** The segment loop of `createBranch` and the leaf on its top segment. */
  method AddSegments(scene: SceneGraph, parent: nat, level: nat) returns (topSegment: nat)
    requires parent < |scene.nodes|
    modifies scene
    ensures topSegment == |old(scene.nodes)| + SegmentCount - 1 < |scene.nodes|
    ensures scene.nodes == Leafed(old(scene.nodes), parent, level)
  {
    ghost var start := scene.nodes;
    var currentParent := parent;
    var i := 0;
    while i < SegmentCount
      invariant 0 <= i <= SegmentCount
      invariant scene.nodes == start + ChainSegs(|start|, parent, level, i)
      invariant currentParent == if i == 0 then parent else |start| + i - 1
      invariant currentParent < |scene.nodes|
    {
      var segment := scene.Add(currentParent, Cylinder(Some(SegmentLabel(level, i))));
      assert scene.nodes == start + ChainSegs(|start|, parent, level, i + 1);
      currentParent := segment;
      i := i + 1;
    }
    topSegment := currentParent;
    if level >= LeafLevel {
      var leaves := scene.Add(topSegment, Foliage);
    }
    ThreeSegments(|start|, parent, level);
  }

  /** One unfolding of `Grow` at a level up to 5. */
  lemma GrowUnfold(nodes: seq<SceneNode>, parent: nat, level: nat, rng: int, mix: int -> int)
    requires level <= MaxLevel
    ensures Grow(nodes, parent, level, rng, mix)
         == Pivots(Leafed(nodes, parent, level), |nodes| + SegmentCount - 1, level,
                   ChildCount(NextOf(rng, mix).word), NextOf(rng, mix).state, mix)
  {
  }

  /** The children loop of `createBranch`. */
  method AddPivots(scene: SceneGraph, topSegment: nat, level: nat, numBranches: nat, random: Mulberry32)
    requires level <= MaxLevel && topSegment < |scene.nodes| && IsWordValued(random.mix)
    modifies scene, random
    ensures Grown(scene.nodes, random.a) == Pivots(old(scene.nodes), topSegment, level, numBranches, old(random.a), random.mix)
    decreases MaxLevel + 1 - level, 0, numBranches
  {
    var i := 0;
    while i < numBranches
      invariant 0 <= i <= numBranches
      invariant Grown(scene.nodes, random.a) == Pivots(old(scene.nodes), topSegment, level, i, old(random.a), random.mix)
      invariant topSegment < |scene.nodes|
    {
      ghost var before := Grown(scene.nodes, random.a);
      var x := random.Next();
      var z := random.Next();
      var pivot := scene.Add(topSegment, Pivot(Some(Rotation(x, z))));
      ghost var pn := scene.nodes;
      ghost var a := random.a;
      assert x == NextOf(before.rng, random.mix).word && z == NextOf(NextOf(before.rng, random.mix).state, random.mix).word;
      assert a == NextOf(NextOf(before.rng, random.mix).state, random.mix).state;
      assert Pivots(old(scene.nodes), topSegment, level, i + 1, old(random.a), random.mix) == Grow(pn, pivot, level + 1, a, random.mix);
      CreateBranch(scene, pivot, level + 1, random);
      GrowPrefix(pn, pivot, level + 1, a, random.mix);
      i := i + 1;
    }
  }

  // ---------------------------------------------------------------------
  // Structure

  /** The three segments, in order. */
  lemma ThreeSegments(base: nat, parent: nat, level: nat)
    ensures ChainSegs(base, parent, level, SegmentCount)
         == [SegmentNodeAt(base, parent, level, 0), SegmentNodeAt(base, parent, level, 1), SegmentNodeAt(base, parent, level, 2)]
  {
    assert ChainSegs(base, parent, level, 1) == [SegmentNodeAt(base, parent, level, 0)];
    assert ChainSegs(base, parent, level, 2) == [SegmentNodeAt(base, parent, level, 0), SegmentNodeAt(base, parent, level, 1)];
  }

  /**
   * What a branch places before its child count draw: the old nodes, then
   * the chained segments, then the leaf on the top segment exactly from
   * level 3 up.
   */
  lemma LeafedLayout(nodes: seq<SceneNode>, parent: nat, level: nat)
    ensures var l := Leafed(nodes, parent, level);
      var b := |nodes|;
      && nodes <= l
      && l[b] == SceneNode(Some(parent), Cylinder(Some(SegmentLabel(level, 0))))
      && l[b + 1] == SceneNode(Some(b), Cylinder(Some(SegmentLabel(level, 1))))
      && l[b + 2] == SceneNode(Some(b + 1), Cylinder(Some(SegmentLabel(level, 2))))
      && (level >= LeafLevel ==> l[b + 3] == SceneNode(Some(b + 2), Foliage))
  {
    ThreeSegments(|nodes|, parent, level);
  }

  /** The segments and the leaf come after the nodes they were appended to. */
  lemma LeafedPrefix(nodes: seq<SceneNode>, parent: nat, level: nat)
    ensures nodes <= Leafed(nodes, parent, level)
  {
  }

  /** The segments and the leaf hang from earlier objects. */
  lemma LeafedEarlier(nodes: seq<SceneNode>, parent: nat, level: nat)
    requires parent < |nodes| && ParentsEarlier(nodes)
    ensures ParentsEarlier(Leafed(nodes, parent, level))
  {
    LeafedLayout(nodes, parent, level);
    var l := Leafed(nodes, parent, level);
    forall i | 0 <= i < |l| && l[i].parent.Some?
      ensures l[i].parent.value < i
    {
      if i < |nodes| {
        assert l[i] == nodes[i];
      }
    }
  }

  /** The segments and the leaf are charged one draw: the child count. */
  lemma LeafedCost(nodes: seq<SceneNode>, parent: nat, level: nat)
    ensures DrawCost(Leafed(nodes, parent, level)) == DrawCost(nodes) + 1
  {
    var b := |nodes|;
    var s0 := SegmentNodeAt(b, parent, level, 0);
    var s1 := SegmentNodeAt(b, parent, level, 1);
    var s2 := SegmentNodeAt(b, parent, level, 2);
    ThreeSegments(b, parent, level);
    var chained := nodes + [s0, s1, s2];
    assert chained == nodes + [s0] + [s1] + [s2];
    DrawCostSnoc(nodes, s0);
    DrawCostSnoc(nodes + [s0], s1);
    DrawCostSnoc(nodes + [s0] + [s1], s2);
    if level >= LeafLevel {
      DrawCostSnoc(chained, SceneNode(Some(b + 2), Foliage));
    }
  }

  /** Building only appends: the nodes before the call are kept as they are. */
  lemma {:induction false} GrowPrefix(nodes: seq<SceneNode>, parent: nat, level: nat, rng: int, mix: int -> int)
    ensures nodes <= Grow(nodes, parent, level, rng, mix).nodes
    decreases MaxLevel + 1 - level, 1, 0
  {
    if level <= MaxLevel {
      var leafed := Leafed(nodes, parent, level);
      var count := NextOf(rng, mix);
      var top := |nodes| + SegmentCount - 1;
      GrowUnfold(nodes, parent, level, rng, mix);
      PivotsPrefix(leafed, top, level, ChildCount(count.word), count.state, mix);
      LeafedPrefix(nodes, parent, level);
      var r := Pivots(leafed, top, level, ChildCount(count.word), count.state, mix);
      PrefixTrans(nodes, leafed, r.nodes);
      assert nodes <= r.nodes;
    } else {
      assert Grow(nodes, parent, level, rng, mix) == Grown(nodes, rng);
    }
  }

  lemma {:induction false} PivotsPrefix(nodes: seq<SceneNode>, top: nat, level: nat, n: nat, rng: int, mix: int -> int)
    requires level <= MaxLevel
    ensures nodes <= Pivots(nodes, top, level, n, rng, mix).nodes
    decreases MaxLevel + 1 - level, 0, n
  {
    if n > 0 {
      var before := Pivots(nodes, top, level, n - 1, rng, mix);
      PivotsPrefix(nodes, top, level, n - 1, rng, mix);
      var x := NextOf(before.rng, mix);
      var z := NextOf(x.state, mix);
      var pn := before.nodes + [SceneNode(Some(top), Pivot(Some(Rotation(x.word, z.word))))];
      GrowPrefix(pn, |before.nodes|, level + 1, z.state, mix);
      var g := Grow(pn, |before.nodes|, level + 1, z.state, mix);
      assert Pivots(nodes, top, level, n, rng, mix) == g;
      PrefixTrans(before.nodes, pn, g.nodes);
      PrefixTrans(nodes, before.nodes, g.nodes);
    }
  }

  /** Every object a build adds hangs from an object added before it. */
  lemma {:induction false} GrowEarlier(nodes: seq<SceneNode>, parent: nat, level: nat, rng: int, mix: int -> int)
    requires parent < |nodes| && ParentsEarlier(nodes)
    ensures ParentsEarlier(Grow(nodes, parent, level, rng, mix).nodes)
    decreases MaxLevel + 1 - level, 1, 0
  {
    var g := Grow(nodes, parent, level, rng, mix);
    if level <= MaxLevel {
      var count := NextOf(rng, mix);
      var leafed := Leafed(nodes, parent, level);
      var top := |nodes| + SegmentCount - 1;
      LeafedEarlier(nodes, parent, level);
      PivotsEarlier(leafed, top, level, ChildCount(count.word), count.state, mix);
      GrowUnfold(nodes, parent, level, rng, mix);
      assert g == Pivots(leafed, top, level, ChildCount(count.word), count.state, mix);
    } else {
      assert g == Grown(nodes, rng);
    }
    assert ParentsEarlier(g.nodes);
  }

  lemma {:induction false} PivotsEarlier(nodes: seq<SceneNode>, top: nat, level: nat, n: nat, rng: int, mix: int -> int)
    requires level <= MaxLevel && top < |nodes| && ParentsEarlier(nodes)
    ensures ParentsEarlier(Pivots(nodes, top, level, n, rng, mix).nodes)
    decreases MaxLevel + 1 - level, 0, n
  {
    if n > 0 {
      var before := Pivots(nodes, top, level, n - 1, rng, mix);
      PivotsEarlier(nodes, top, level, n - 1, rng, mix);
      PivotsPrefix(nodes, top, level, n - 1, rng, mix);
      var x := NextOf(before.rng, mix);
      var z := NextOf(x.state, mix);
      var pivot := SceneNode(Some(top), Pivot(Some(Rotation(x.word, z.word))));
      var pn := before.nodes + [pivot];
      AppendEarlier(before.nodes, [pivot]);
      GrowEarlier(pn, |before.nodes|, level + 1, z.state, mix);
      assert Pivots(nodes, top, level, n, rng, mix) == Grow(pn, |before.nodes|, level + 1, z.state, mix);
    }
  }

  // ---------------------------------------------------------------------
  // Children

  /** The segments and the leaf hang from `parent`, from each other and, for the leaf, from the top segment. */
  lemma LeafedHanging(nodes: seq<SceneNode>, parent: nat, level: nat, q: nat)
    requires q != parent
    ensures var b := |nodes|;
      Hanging(Leafed(nodes, parent, level), q)
        == Hanging(nodes, q) + (if q == b || q == b + 1 || (q == b + 2 && level >= LeafLevel) then 1 else 0)
    ensures PivotsAt(Leafed(nodes, parent, level), q) == PivotsAt(nodes, q)
  {
    var b := |nodes|;
    var s0 := SegmentNodeAt(b, parent, level, 0);
    var s1 := SegmentNodeAt(b, parent, level, 1);
    var s2 := SegmentNodeAt(b, parent, level, 2);
    var chained := nodes + [s0, s1, s2];
    assert chained == nodes + [s0] + [s1] + [s2];
    HangingSnoc(nodes, s0, q);
    HangingSnoc(nodes + [s0], s1, q);
    HangingSnoc(nodes + [s0] + [s1], s2, q);
    if level >= LeafLevel {
      HangingSnoc(chained, SceneNode(Some(b + 2), Foliage), q);
    }
  }

  /** A build hangs nothing from an older object other than `parent`. */
  lemma {:induction false} GrowHanging(nodes: seq<SceneNode>, parent: nat, level: nat, rng: int, mix: int -> int, q: nat)
    requires q < |nodes| && q != parent
    ensures Hanging(Grow(nodes, parent, level, rng, mix).nodes, q) == Hanging(nodes, q)
    ensures PivotsAt(Grow(nodes, parent, level, rng, mix).nodes, q) == PivotsAt(nodes, q)
    decreases MaxLevel + 1 - level, 1, 0
  {
    if level <= MaxLevel {
      var count := NextOf(rng, mix);
      var laid := Leafed(nodes, parent, level);
      var r := Pivots(laid, |nodes| + SegmentCount - 1, level, ChildCount(count.word), count.state, mix);
      assert Grow(nodes, parent, level, rng, mix) == r by {
        GrowUnfold(nodes, parent, level, rng, mix);
      }
      assert Hanging(laid, q) == Hanging(nodes, q) && PivotsAt(laid, q) == PivotsAt(nodes, q) by {
        LeafedHanging(nodes, parent, level, q);
      }
      PivotsHanging(laid, |nodes| + SegmentCount - 1, level, ChildCount(count.word), count.state, mix, q);
    }
  }

  /** The children loop hangs exactly `n` new objects from `top`, all of them pivots, and none from another older object. */
  lemma {:induction false} PivotsHanging(nodes: seq<SceneNode>, top: nat, level: nat, n: nat, rng: int, mix: int -> int, q: nat)
    requires level <= MaxLevel && q < |nodes|
    ensures var r := Pivots(nodes, top, level, n, rng, mix);
      && Hanging(r.nodes, q) == Hanging(nodes, q) + (if q == top then n else 0)
      && PivotsAt(r.nodes, q) == PivotsAt(nodes, q) + (if q == top then n else 0)
    decreases MaxLevel + 1 - level, 0, n
  {
    if n > 0 {
      var before := Pivots(nodes, top, level, n - 1, rng, mix);
      PivotsHanging(nodes, top, level, n - 1, rng, mix, q);
      PivotsPrefix(nodes, top, level, n - 1, rng, mix);
      var x := NextOf(before.rng, mix);
      var z := NextOf(x.state, mix);
      var pivot := SceneNode(Some(top), Pivot(Some(Rotation(x.word, z.word))));
      var pn := before.nodes + [pivot];
      HangingSnoc(before.nodes, pivot, q);
      GrowHanging(pn, |before.nodes|, level + 1, z.state, mix, q);
      assert Pivots(nodes, top, level, n, rng, mix) == Grow(pn, |before.nodes|, level + 1, z.state, mix);
    }
  }

  /**
   * From index `from` on, every object hanging from `top` is a pivot and,
   * below level 5, is followed by the first segment of its child branch,
   * one level deeper, hanging from it.
   */
  predicate ChildrenStart(nodes: seq<SceneNode>, from: nat, top: nat, level: nat) {
    forall i {:trigger ParentOf(nodes, i)} :: from <= i < |nodes| && ParentOf(nodes, i) == Some(top) ==>
      && nodes[i].tag.Pivot?
      && (level < MaxLevel ==>
            i + 1 < |nodes| && nodes[i + 1] == SceneNode(Some(i), Cylinder(Some(SegmentLabel(level + 1, 0)))))
  }

  /** Each pivot of the children loop carries a child branch built one level deeper. */
  lemma {:induction false} PivotsChildren(nodes: seq<SceneNode>, top: nat, level: nat, n: nat, rng: int, mix: int -> int)
    requires level <= MaxLevel && top < |nodes|
    ensures ChildrenStart(Pivots(nodes, top, level, n, rng, mix).nodes, |nodes|, top, level)
    decreases n
  {
    if n > 0 {
      PivotsChildren(nodes, top, level, n - 1, rng, mix);
      PivotsChildrenStep(nodes, top, level, n, rng, mix);
    }
  }

  /** One more iteration of the children loop keeps `ChildrenStart`. */
  lemma PivotsChildrenStep(nodes: seq<SceneNode>, top: nat, level: nat, n: nat, rng: int, mix: int -> int)
    requires level <= MaxLevel && top < |nodes| && n > 0
    requires ChildrenStart(Pivots(nodes, top, level, n - 1, rng, mix).nodes, |nodes|, top, level)
    ensures ChildrenStart(Pivots(nodes, top, level, n, rng, mix).nodes, |nodes|, top, level)
  {
    var before := Pivots(nodes, top, level, n - 1, rng, mix);
    var x := NextOf(before.rng, mix);
    var z := NextOf(x.state, mix);
    var pivot := SceneNode(Some(top), Pivot(Some(Rotation(x.word, z.word))));
    var pn := before.nodes + [pivot];
    var h := |before.nodes|;
    var g := Grow(pn, h, level + 1, z.state, mix);
    assert |nodes| <= h by {
      PivotsPrefix(nodes, top, level, n - 1, rng, mix);
    }
    assert pn <= g.nodes by {
      GrowPrefix(pn, h, level + 1, z.state, mix);
    }
    assert Hanging(g.nodes, top) == Hanging(pn, top) by {
      GrowHanging(pn, h, level + 1, z.state, mix, top);
    }
    if level < MaxLevel {
      assert |pn| < |g.nodes| && g.nodes[|pn|] == SceneNode(Some(h), Cylinder(Some(SegmentLabel(level + 1, 0)))) by {
        GrowShape(pn, h, level + 1, z.state, mix);
      }
    }
    ChildrenStartSnoc(before.nodes, pivot, g.nodes, |nodes|, top, level);
    assert Pivots(nodes, top, level, n, rng, mix) == g;
  }

  /**
   * Appending a pivot on `top` and then a build under it that starts with
   * the child's first segment and hangs nothing else from `top` keeps
   * `ChildrenStart`.
   */
  lemma ChildrenStartSnoc(before: seq<SceneNode>, pivot: SceneNode, grown: seq<SceneNode>, from: nat, top: nat, level: nat)
    requires from <= |before| && top < |before|
    requires ChildrenStart(before, from, top, level)
    requires pivot.parent == Some(top) && pivot.tag.Pivot?
    requires before + [pivot] <= grown && Hanging(grown, top) == Hanging(before + [pivot], top)
    requires level < MaxLevel ==>
      |before| + 1 < |grown| && grown[|before| + 1] == SceneNode(Some(|before|), Cylinder(Some(SegmentLabel(level + 1, 0))))
    ensures ChildrenStart(grown, from, top, level)
  {
    var pn := before + [pivot];
    forall i | from <= i < |grown| && ParentOf(grown, i) == Some(top)
      ensures grown[i].tag.Pivot?
      ensures level < MaxLevel ==>
        i + 1 < |grown| && grown[i + 1] == SceneNode(Some(i), Cylinder(Some(SegmentLabel(level + 1, 0))))
    {
      if i < |before| {
        assert grown[i] == pn[i] == before[i];
        assert ParentOf(before, i) == Some(top);
        if level < MaxLevel {
          assert i + 1 < |before|;
          assert grown[i + 1] == pn[i + 1] == before[i + 1];
        }
      } else if i > |before| {
        HangingGrows(pn, grown, top, i);
        assert false;
      } else {
        assert grown[i] == pn[i];
      }
    }
  }

  /**
   * A branch at a level up to 5 hangs from its top segment its leaf (from
   * level 3 up) and exactly `ChildCount` of the child count draw pivots, two
   * to four, each carrying a child branch one level deeper.
   */
  lemma GrowChildren(nodes: seq<SceneNode>, parent: nat, level: nat, rng: int, mix: int -> int)
    requires parent < |nodes| && level <= MaxLevel
    ensures var r := Grow(nodes, parent, level, rng, mix);
      var top := |nodes| + SegmentCount - 1;
      var k := ChildCount(Draw(rng, 0, mix));
      && 2 <= k <= 4
      && PivotsAt(r.nodes, top) == PivotsAt(nodes, top) + k
      && Hanging(r.nodes, top) == Hanging(nodes, top) + k + (if level >= LeafLevel then 1 else 0)
      && ChildrenStart(r.nodes, |Leafed(nodes, parent, level)|, top, level)
  {
    var top := |nodes| + SegmentCount - 1;
    var leafed := Leafed(nodes, parent, level);
    var count := NextOf(rng, mix);
    var k := ChildCount(count.word);
    GrowUnfold(nodes, parent, level, rng, mix);
    LeafedHanging(nodes, parent, level, top);
    PivotsHanging(leafed, top, level, k, count.state, mix, top);
    PivotsChildren(leafed, top, level, k, count.state, mix);
  }

  /**
   * The shape of a branch at a level up to 5: three segments chained from
   * `parent`, labelled with the level and their index; a leaf on the top
   * segment exactly from level 3 up; then the first pivot, hanging from the
   * top segment, carrying the two draws that follow the child count draw.
   */
  lemma GrowShape(nodes: seq<SceneNode>, parent: nat, level: nat, rng: int, mix: int -> int)
    requires parent < |nodes| && level <= MaxLevel
    ensures var r := Grow(nodes, parent, level, rng, mix);
      var b := |nodes|;
      var leafAt := b + SegmentCount;
      var pivotAt := leafAt + (if level >= LeafLevel then 1 else 0);
      && pivotAt < |r.nodes|
      && r.nodes[b] == SceneNode(Some(parent), Cylinder(Some(SegmentLabel(level, 0))))
      && r.nodes[b + 1] == SceneNode(Some(b), Cylinder(Some(SegmentLabel(level, 1))))
      && r.nodes[b + 2] == SceneNode(Some(b + 1), Cylinder(Some(SegmentLabel(level, 2))))
      && (level >= LeafLevel <==> r.nodes[leafAt] == SceneNode(Some(b + 2), Foliage))
      && r.nodes[pivotAt] == SceneNode(Some(b + 2), Pivot(Some(Rotation(Draw(rng, 1, mix), Draw(rng, 2, mix)))))
  {
    var top := |nodes| + SegmentCount - 1;
    var leafed := Leafed(nodes, parent, level);
    var count := NextOf(rng, mix);
    var k := ChildCount(count.word);
    var r := Pivots(leafed, top, level, k, count.state, mix);
    GrowUnfold(nodes, parent, level, rng, mix);
    PivotsPrefix(leafed, top, level, k, count.state, mix);
    PivotsFirst(leafed, top, level, k, count.state, mix);
    ShapeAfter(nodes, parent, level, r.nodes, Rotation(Draw(count.state, 0, mix), Draw(count.state, 1, mix)));
    assert Draw(count.state, 0, mix) == Draw(rng, 1, mix);
    assert Draw(count.state, 1, mix) == Draw(rng, 2, mix);
  }

  /** The shape of any node list that extends a branch's segments and leaf with its first pivot. */
  lemma ShapeAfter(nodes: seq<SceneNode>, parent: nat, level: nat, grown: seq<SceneNode>, rotation: Rotation)
    requires Leafed(nodes, parent, level) <= grown
    requires |Leafed(nodes, parent, level)| < |grown|
    requires grown[|Leafed(nodes, parent, level)|] == SceneNode(Some(|nodes| + SegmentCount - 1), Pivot(Some(rotation)))
    ensures var b := |nodes|;
      var leafAt := b + SegmentCount;
      var pivotAt := leafAt + (if level >= LeafLevel then 1 else 0);
      && pivotAt < |grown|
      && grown[b] == SceneNode(Some(parent), Cylinder(Some(SegmentLabel(level, 0))))
      && grown[b + 1] == SceneNode(Some(b), Cylinder(Some(SegmentLabel(level, 1))))
      && grown[b + 2] == SceneNode(Some(b + 1), Cylinder(Some(SegmentLabel(level, 2))))
      && (level >= LeafLevel <==> grown[leafAt] == SceneNode(Some(b + 2), Foliage))
      && grown[pivotAt] == SceneNode(Some(b + 2), Pivot(Some(rotation)))
  {
    var leafed := Leafed(nodes, parent, level);
    var b := |nodes|;
    LeafedLayout(nodes, parent, level);
    assert grown[b] == leafed[b] && grown[b + 1] == leafed[b + 1] && grown[b + 2] == leafed[b + 2];
    if level >= LeafLevel {
      assert grown[b + SegmentCount] == leafed[b + SegmentCount];
    }
  }

  /** The first pivot of a children loop that runs at least once, right after the nodes it started from. */
  lemma PivotsFirst(nodes: seq<SceneNode>, top: nat, level: nat, n: nat, rng: int, mix: int -> int)
    requires level <= MaxLevel && top < |nodes| && n >= 1
    ensures var r := Pivots(nodes, top, level, n, rng, mix);
      && |nodes| < |r.nodes|
      && r.nodes[|nodes|] == SceneNode(Some(top), Pivot(Some(Rotation(Draw(rng, 0, mix), Draw(rng, 1, mix)))))
  {
    var x := NextOf(rng, mix);
    var z := NextOf(x.state, mix);
    var pivot := SceneNode(Some(top), Pivot(Some(Rotation(x.word, z.word))));
    var pn := nodes + [pivot];
    assert Pivots(nodes, top, level, 0, rng, mix) == Grown(nodes, rng);
    var p1 := Pivots(nodes, top, level, 1, rng, mix);
    assert p1 == Grow(pn, |nodes|, level + 1, z.state, mix);
    GrowPrefix(pn, |nodes|, level + 1, z.state, mix);
    FirstPivot(nodes, top, level, n, rng, mix);
    var r := Pivots(nodes, top, level, n, rng, mix);
    PrefixTrans(pn, p1.nodes, r.nodes);
    assert r.nodes[|nodes|] == pn[|nodes|];
  }

  /** The first pivot stays in place while later pivots are added. */
  lemma {:induction false} FirstPivot(nodes: seq<SceneNode>, top: nat, level: nat, n: nat, rng: int, mix: int -> int)
    requires level <= MaxLevel && top < |nodes| && n >= 1
    ensures Pivots(nodes, top, level, 1, rng, mix).nodes <= Pivots(nodes, top, level, n, rng, mix).nodes
    decreases n
  {
    if n > 1 {
      FirstPivot(nodes, top, level, n - 1, rng, mix);
      var before := Pivots(nodes, top, level, n - 1, rng, mix);
      var x := NextOf(before.rng, mix);
      var z := NextOf(x.state, mix);
      var pn := before.nodes + [SceneNode(Some(top), Pivot(Some(Rotation(x.word, z.word))))];
      PivotsPrefix(nodes, top, level, n - 1, rng, mix);
      GrowPrefix(pn, |before.nodes|, level + 1, z.state, mix);
    }
  }

  // ---------------------------------------------------------------------
  // Draws

  /**
   * Every draw is charged to an object built by the same call: one per
   * built branch (its first segment) for the child count and two per pivot
   * for its rotation, whether or not a branch is built under the pivot.
   */
  lemma {:induction false} GrowDraws(nodes: seq<SceneNode>, parent: nat, level: nat, rng: int, mix: int -> int)
    requires parent < |nodes|
    ensures var r := Grow(nodes, parent, level, rng, mix);
      Skip(r.rng, DrawCost(nodes)) == Skip(rng, DrawCost(r.nodes))
    decreases MaxLevel + 1 - level, 1, 0
  {
    if level <= MaxLevel {
      var count := NextOf(rng, mix);
      LeafedCost(nodes, parent, level);
      PivotsDraws(Leafed(nodes, parent, level), |nodes| + SegmentCount - 1, level, ChildCount(count.word), count.state, mix);
    }
  }

  lemma {:induction false} PivotsDraws(nodes: seq<SceneNode>, top: nat, level: nat, n: nat, rng: int, mix: int -> int)
    requires level <= MaxLevel
    ensures var r := Pivots(nodes, top, level, n, rng, mix);
      Skip(r.rng, DrawCost(nodes)) == Skip(rng, DrawCost(r.nodes))
    decreases MaxLevel + 1 - level, 0, n
  {
    if n > 0 {
      var before := Pivots(nodes, top, level, n - 1, rng, mix);
      PivotsDraws(nodes, top, level, n - 1, rng, mix);
      var x := NextOf(before.rng, mix);
      var z := NextOf(x.state, mix);
      var pivot := SceneNode(Some(top), Pivot(Some(Rotation(x.word, z.word))));
      var pn := before.nodes + [pivot];
      DrawCostSnoc(before.nodes, pivot);
      GrowDraws(pn, |before.nodes|, level + 1, z.state, mix);
      var g := Grow(pn, |before.nodes|, level + 1, z.state, mix);
      assert Pivots(nodes, top, level, n, rng, mix) == g;
      assert Skip(g.rng, DrawCost(pn)) == Skip(z.state, DrawCost(g.nodes));
      assert Skip(before.rng, DrawCost(nodes)) == Skip(rng, DrawCost(before.nodes));
      assert z.state == Skip(before.rng, 2);
    }
  }

  /** Above level 5 nothing is built and nothing is drawn. */
  lemma BeyondMaxLevel(nodes: seq<SceneNode>, parent: nat, level: nat, rng: int, mix: int -> int)
    requires level > MaxLevel
    ensures Grow(nodes, parent, level, rng, mix) == Grown(nodes, rng)
  {
  }

  /**
   * A branch at level 5 draws its child count and then two rotation draws
   * for each pivot, although no branch is built under them; the main
   * variant's level-5 branch draws only its child count.
   */
  lemma LastLevelDraws(nodes: seq<SceneNode>, parent: nat, rng: int, mix: int -> int, st: GenState)
    ensures Grow(nodes, parent, MaxLevel, rng, mix).rng == Skip(rng, 1 + 2 * ChildCount(Draw(rng, 0, mix)))
    ensures GenBranch(MaxLevel, st, mix).state.rng == Skip(st.rng, 1)
  {
    var count := NextOf(rng, mix);
    EmptyPivots(Leafed(nodes, parent, MaxLevel), |nodes| + SegmentCount - 1, ChildCount(count.word), count.state, mix);
    DrawsConsumed(MaxLevel, st, mix);
    var g := GenBranch(MaxLevel, st, mix);
    var kids := GenChildren(MaxLevel, ChildCount(NextOf(st.rng, mix).word),
                            GenState(NextOf(st.rng, mix).state, AfterLeaf(st.nextId, MaxLevel)), mix);
    NoGrandchildren(ChildCount(NextOf(st.rng, mix).word), GenState(NextOf(st.rng, mix).state, AfterLeaf(st.nextId, MaxLevel)), mix);
    assert g.branch.value.children == [];
  }

  /** At level 5 each pivot takes two draws and builds nothing under it. */
  lemma {:induction false} EmptyPivots(nodes: seq<SceneNode>, top: nat, n: nat, rng: int, mix: int -> int)
    ensures Pivots(nodes, top, MaxLevel, n, rng, mix).rng == Skip(rng, 2 * n)
    decreases n
  {
    if n > 0 {
      EmptyPivots(nodes, top, n - 1, rng, mix);
    }
  }

  /**
   * The part of `generateTree` after the old tree is removed: a generator
   * seeded with `seed`, a new tree object added under `root`, and the trunk
   * grown under it.
   */
  method PlantTree(scene: SceneGraph, root: nat, seed: int) returns (t: nat)
    requires root < |scene.nodes|
    modifies scene
    ensures t == |old(scene.nodes)|
    ensures scene.nodes == Grow(old(scene.nodes) + [SceneNode(Some(root), Group)], t, 0, seed, Mix).nodes
  {
    var random := new Mulberry32(seed);
    t := scene.Add(root, Group);
    CreateBranch(scene, t, 0, random);
  }

  // ---------------------------------------------------------------------
  // The page

  /**
   * The object a click removes when `h` is highlighted: a leaf stands for
   * its parent segment; `None` when that is the trunk's first segment
   * (level 0, index 0), which is never removed.
   */
  function CutTarget(nodes: seq<SceneNode>, h: nat): Option<nat>
    requires ParentsEarlier(nodes) && h < |nodes|
    requires nodes[h].tag.Foliage? ==> nodes[h].parent.Some?
  {
    var t := if nodes[h].tag.Foliage? then nodes[h].parent.value else h;
    if nodes[t].tag == Cylinder(Some(SegmentLabel(0, 0))) then None else Some(t)
  }

  /**
   * What a highlighted object must be for a click on it to be handled: an
   * object of the scene, and when it is a leaf, one with a parent segment.
   */
  predicate Highlightable(nodes: seq<SceneNode>, highlighted: Option<nat>) {
    highlighted.Some? ==>
      highlighted.value < |nodes|
      && (nodes[highlighted.value].tag.Foliage? ==> nodes[highlighted.value].parent.Some?)
  }

  /** Objects added after the old ones leave a highlighted old object as it was. */
  lemma PrefixKeeps(nodes: seq<SceneNode>, grown: seq<SceneNode>, highlighted: Option<nat>)
    requires nodes <= grown && Highlightable(nodes, highlighted)
    ensures Highlightable(grown, highlighted)
  {
    if highlighted.Some? && highlighted.value < |nodes| {
      assert grown[highlighted.value] == nodes[highlighted.value];
    }
  }

  /** Removing the old tree keeps every object's kind, and a leaf's parent. */
  lemma DetachKeeps(nodes: seq<SceneNode>, tree: Option<nat>, highlighted: Option<nat>)
    requires Highlightable(nodes, highlighted)
    requires tree.Some? ==> tree.value < |nodes| && nodes[tree.value].tag == Group
    ensures Highlightable(Detached(nodes, tree), highlighted)
  {
  }

  /**
   * What `generateTree` keeps of the page's invariant: with the old tree
   * detached and a new tree object grown under `root`, every object still
   * comes after its parent, the new tree object is the group at the old
   * length, and a highlighted object can still be handled.
   */
  lemma RegrowKeeps(nodes: seq<SceneNode>, tree: Option<nat>, root: nat, seed: int, mix: int -> int,
                    highlighted: Option<nat>)
    requires ParentsEarlier(nodes) && root < |nodes| && Highlightable(nodes, highlighted)
    requires tree.Some? ==> tree.value < |nodes| && nodes[tree.value].tag == Group
    ensures var g := Grow(Detached(nodes, tree) + [SceneNode(Some(root), Group)], |nodes|, 0, seed, mix).nodes;
      && |nodes| < |g| && g[|nodes|].tag == Group
      && ParentsEarlier(g) && Highlightable(g, highlighted)
  {
    var d := Detached(nodes, tree);
    var base := d + [SceneNode(Some(root), Group)];
    DetachEarlier(nodes, tree);
    DetachKeeps(nodes, tree, highlighted);
    AppendEarlier(d, [SceneNode(Some(root), Group)]);
    PrefixKeeps(d, base, highlighted);
    var g := Grow(base, |nodes|, 0, seed, mix).nodes;
    GrowPrefix(base, |nodes|, 0, seed, mix);
    GrowEarlier(base, |nodes|, 0, seed, mix);
    PrefixKeeps(base, g, highlighted);
    assert g[|nodes|] == base[|nodes|];
  }

  /** The globals of bkp/2/script.js that the tree logic reads and writes. */
  class Page {
    const scene: SceneGraph
    /** The Three.js scene the tree is added to. */
    const root: nat
    /** `tree`, the object holding the current tree. */
    var tree: Option<nat>
    /** `highlightedObject`, set by highlighting. */
    var highlighted: Option<nat>

    predicate Valid()
      reads this, scene
    {
      && ParentsEarlier(scene.nodes)
      && root < |scene.nodes|
      && (tree.Some? ==> tree.value < |scene.nodes| && scene.nodes[tree.value].tag == Group)
      && Highlightable(scene.nodes, highlighted)
    }

    constructor ()
      ensures Valid() && fresh(scene) && |scene.nodes| == 1 && tree == None && highlighted == None
    {
      var sg := new SceneGraph();
      var r := sg.Create(Group);
      scene := sg;
      root := r;
      tree := None;
      highlighted := None;
    }

    /**
     * `generateTree(seed)`: the old tree is removed, a fresh generator is
     * seeded, and a new tree object added to the scene grows the trunk.
     */
    method GenerateTree(seed: int)
      requires Valid()
      modifies this, scene
      ensures Valid() && highlighted == old(highlighted) && tree == Some(|old(scene.nodes)|)
      ensures scene.nodes == Grow(Detached(old(scene.nodes), old(tree)) + [SceneNode(Some(root), Group)],
                                  |old(scene.nodes)|, 0, seed, Mix).nodes
    {
      if tree.Some? {
        scene.Detach(tree.value);
      }
      assert scene.nodes == Detached(old(scene.nodes), old(tree));
      RegrowKeeps(old(scene.nodes), old(tree), root, seed, Mix, highlighted);
      var t := PlantTree(scene, root, seed);
      tree := Some(t);
    }

    /**
     * `onMouseDown`: on the canvas, with an object highlighted, the object
     * (or the leaf's segment) is detached with its subtree unless it is the
     * trunk's first segment.
     */
    method OnMouseDown(onCanvas: bool)
      requires Valid()
      modifies this, scene
      ensures Valid() && tree == old(tree)
      ensures var acted := onCanvas && old(highlighted).Some?
                           && CutTarget(old(scene.nodes), old(highlighted).value).Some?;
        && (acted ==> scene.nodes == Detached(old(scene.nodes), CutTarget(old(scene.nodes), old(highlighted).value))
                      && highlighted == None)
        && (!acted ==> scene.nodes == old(scene.nodes) && highlighted == old(highlighted))
    {
      if !onCanvas {
        return;
      }
      if highlighted.Some? {
        var objectToRemove := highlighted.value;
        if scene.nodes[objectToRemove].tag.Foliage? {
          objectToRemove := scene.nodes[objectToRemove].parent.value;
        }
        if scene.nodes[objectToRemove].tag == Cylinder(Some(SegmentLabel(0, 0))) {
          return;
        }
        scene.Detach(objectToRemove);
        DetachCuts(old(scene.nodes), objectToRemove, objectToRemove);
        highlighted := None;
      }
    }
  }

  /**
   * In a freshly grown trunk the first segment is refused, and the second
   * and third segments and the leaf-free pivots above are not: unlike the
   * main variant, this guard protects only segment 0 of level 0.
   */
  lemma TrunkGuard(nodes: seq<SceneNode>, parent: nat, rng: int, mix: int -> int)
    requires parent < |nodes| && ParentsEarlier(nodes)
    ensures var r := Grow(nodes, parent, 0, rng, mix);
      var b := |nodes|;
      && ParentsEarlier(r.nodes) && b + 2 < |r.nodes|
      && r.nodes[b].tag == Cylinder(Some(SegmentLabel(0, 0)))
      && r.nodes[b + 1].tag == Cylinder(Some(SegmentLabel(0, 1)))
      && r.nodes[b + 2].tag == Cylinder(Some(SegmentLabel(0, 2)))
      && CutTarget(r.nodes, b) == None
      && CutTarget(r.nodes, b + 1) == Some(b + 1)
      && CutTarget(r.nodes, b + 2) == Some(b + 2)
  {
    GrowShape(nodes, parent, 0, rng, mix);
    GrowEarlier(nodes, parent, 0, rng, mix);
  }

  /**
   * A click that removes `t` cuts off exactly `t`'s subtree: every object
   * under `t` no longer reaches the scene, every other object keeps its top.
   */
  lemma ClickCutsSubtree(nodes: seq<SceneNode>, h: nat, i: nat)
    requires ParentsEarlier(nodes) && h < |nodes| && i < |nodes|
    requires nodes[h].tag.Foliage? ==> nodes[h].parent.Some?
    requires CutTarget(nodes, h).Some?
    ensures var t := CutTarget(nodes, h).value;
      var after := Detached(nodes, Some(t));
      t < |nodes| && ParentsEarlier(after)
      && (Under(nodes, i, t) ==> Top(after, i) == t)
      && (!Under(nodes, i, t) ==> Top(after, i) == Top(nodes, i))
  {
    DetachCuts(nodes, CutTarget(nodes, h).value, i);
  }
}
