/**
 * The first earlier variant, bkp/1/script.js: `createBranch` builds one
 * cylinder mesh per branch under its parent, a leaf mesh on it from level 3
 * up, and two to four child pivots on the branch, drawing each pivot's
 * rotation before building the child under it. There is no pruning.
 */
module Bkp1 {
  import opened Wrappers
  import opened Prng
  import opened TreeModel
  import opened Scene
  import opened Legacy
  import Bkp2

  /** The nodes of a branch at `level` before its child count draw: its mesh and, from level 3 up, its leaf. */
  function Meshed(nodes: seq<SceneNode>, parent: nat, level: nat): (r: seq<SceneNode>)
    ensures |r| == |nodes| + 1 + (if level >= LeafLevel then 1 else 0)
  {
    var withBranch := nodes + [SceneNode(Some(parent), Cylinder(None))];
    if level >= LeafLevel then withBranch + [SceneNode(Some(|nodes|), Foliage)] else withBranch
  }

  /**
   * `createBranch(parent, level, random)`: above level 5 nothing; otherwise
   * the branch mesh, its leaf from level 3 up, the child count draw and the
   * children's pivots.
   */
  function Grow(nodes: seq<SceneNode>, parent: nat, level: nat, rng: int, mix: int -> int): Grown
    decreases MaxLevel + 1 - level, 1, 0
  {
    if level > MaxLevel then Grown(nodes, rng)
    else
      var count := NextOf(rng, mix);
      Pivots(Meshed(nodes, parent, level), |nodes|, level, ChildCount(count.word), count.state, mix)
  }

  /**
   * The first `n` iterations of the children loop: two rotation draws, the
   * pivot on the branch mesh, then the child branch built under it.
   */
  function Pivots(nodes: seq<SceneNode>, branch: nat, level: nat, n: nat, rng: int, mix: int -> int): Grown
    requires level <= MaxLevel
    decreases MaxLevel + 1 - level, 0, n
  {
    if n == 0 then Grown(nodes, rng)
    else
      var before := Pivots(nodes, branch, level, n - 1, rng, mix);
      var x := NextOf(before.rng, mix);
      var z := NextOf(x.state, mix);
      Grow(before.nodes + [SceneNode(Some(branch), Pivot(Some(Rotation(x.word, z.word))))], |before.nodes|, level + 1, z.state, mix)
  }

  /** `createBranch(parent, level, random)` on the scene graph. */
  method CreateBranch(scene: SceneGraph, parent: nat, level: nat, random: Mulberry32)
    requires parent < |scene.nodes| && IsWordValued(random.mix)
    modifies scene, random
    ensures Grown(scene.nodes, random.a) == Grow(old(scene.nodes), parent, level, old(random.a), random.mix)
    decreases MaxLevel + 1 - level, 1, 0
  {
    if level > MaxLevel {
      return;
    }
    ghost var start := scene.nodes;
    var branch := scene.Add(parent, Cylinder(None));
    if level >= LeafLevel {
      var leaves := scene.Add(branch, Foliage);
    }
    assert scene.nodes == Meshed(start, parent, level);
    var k := random.Next();
    var numBranches := ChildCount(k);
    AddPivots(scene, branch, level, numBranches, random);
  }

  /** The children loop of `createBranch`. */
  method AddPivots(scene: SceneGraph, branch: nat, level: nat, numBranches: nat, random: Mulberry32)
    requires level <= MaxLevel && branch < |scene.nodes| && IsWordValued(random.mix)
    modifies scene, random
    ensures Grown(scene.nodes, random.a) == Pivots(old(scene.nodes), branch, level, numBranches, old(random.a), random.mix)
    decreases MaxLevel + 1 - level, 0, numBranches
  {
    var i := 0;
    while i < numBranches
      invariant 0 <= i <= numBranches
      invariant Grown(scene.nodes, random.a) == Pivots(old(scene.nodes), branch, level, i, old(random.a), random.mix)
      invariant branch < |scene.nodes|
    {
      var x := random.Next();
      var z := random.Next();
      var pivot := scene.Add(branch, Pivot(Some(Rotation(x, z))));
      ghost var pn := scene.nodes;
      ghost var a := random.a;
      CreateBranch(scene, pivot, level + 1, random);
      GrowPrefix(pn, pivot, level + 1, a, random.mix);
      i := i + 1;
    }
  }

  // ---------------------------------------------------------------------
  // Structure

  /** One unfolding of `Grow` at a level up to 5. */
  lemma GrowUnfold(nodes: seq<SceneNode>, parent: nat, level: nat, rng: int, mix: int -> int)
    requires level <= MaxLevel
    ensures Grow(nodes, parent, level, rng, mix)
         == Pivots(Meshed(nodes, parent, level), |nodes|, level,
                   ChildCount(NextOf(rng, mix).word), NextOf(rng, mix).state, mix)
  {
  }

  /** The mesh and the leaf come after the nodes they were appended to. */
  lemma MeshedPrefix(nodes: seq<SceneNode>, parent: nat, level: nat)
    ensures nodes <= Meshed(nodes, parent, level)
  {
  }

  /** The mesh hangs from the parent, the leaf from the mesh: both from earlier objects. */
  lemma MeshedEarlier(nodes: seq<SceneNode>, parent: nat, level: nat)
    requires parent < |nodes| && ParentsEarlier(nodes)
    ensures var m := Meshed(nodes, parent, level);
      && m[|nodes|].parent == Some(parent)
      && (level >= LeafLevel ==> m[|nodes| + 1].parent == Some(|nodes|))
      && ParentsEarlier(m)
  {
    var m := Meshed(nodes, parent, level);
    forall i | 0 <= i < |m| && m[i].parent.Some?
      ensures m[i].parent.value < i
    {
      if i < |nodes| {
        assert m[i] == nodes[i];
      }
    }
  }

  /** The mesh is charged one draw, the child count; the leaf none. */
  lemma MeshedCost(nodes: seq<SceneNode>, parent: nat, level: nat)
    ensures DrawCost(Meshed(nodes, parent, level)) == DrawCost(nodes) + 1
  {
    var withBranch := nodes + [SceneNode(Some(parent), Cylinder(None))];
    DrawCostSnoc(nodes, SceneNode(Some(parent), Cylinder(None)));
    if level >= LeafLevel {
      DrawCostSnoc(withBranch, SceneNode(Some(|nodes|), Foliage));
    }
  }

  /** Building only appends: the nodes before the call are kept as they are. */
  lemma {:induction false} GrowPrefix(nodes: seq<SceneNode>, parent: nat, level: nat, rng: int, mix: int -> int)
    ensures nodes <= Grow(nodes, parent, level, rng, mix).nodes
    decreases MaxLevel + 1 - level, 1, 0
  {
    if level <= MaxLevel {
      var meshed := Meshed(nodes, parent, level);
      var count := NextOf(rng, mix);
      GrowUnfold(nodes, parent, level, rng, mix);
      PivotsPrefix(meshed, |nodes|, level, ChildCount(count.word), count.state, mix);
      MeshedPrefix(nodes, parent, level);
      var r := Pivots(meshed, |nodes|, level, ChildCount(count.word), count.state, mix);
      PrefixTrans(nodes, meshed, r.nodes);
      assert nodes <= r.nodes;
    } else {
      assert Grow(nodes, parent, level, rng, mix) == Grown(nodes, rng);
    }
  }

  lemma {:induction false} PivotsPrefix(nodes: seq<SceneNode>, branch: nat, level: nat, n: nat, rng: int, mix: int -> int)
    requires level <= MaxLevel
    ensures nodes <= Pivots(nodes, branch, level, n, rng, mix).nodes
    decreases MaxLevel + 1 - level, 0, n
  {
    if n > 0 {
      var before := Pivots(nodes, branch, level, n - 1, rng, mix);
      PivotsPrefix(nodes, branch, level, n - 1, rng, mix);
      var x := NextOf(before.rng, mix);
      var z := NextOf(x.state, mix);
      var pn := before.nodes + [SceneNode(Some(branch), Pivot(Some(Rotation(x.word, z.word))))];
      GrowPrefix(pn, |before.nodes|, level + 1, z.state, mix);
      var g := Grow(pn, |before.nodes|, level + 1, z.state, mix);
      assert Pivots(nodes, branch, level, n, rng, mix) == g;
      PrefixTrans(before.nodes, pn, g.nodes);
      PrefixTrans(nodes, before.nodes, g.nodes);
    }
  }

  /** Every object a build adds hangs from an object added before it. */
  lemma {:induction false} GrowEarlier(nodes: seq<SceneNode>, parent: nat, level: nat, rng: int, mix: int -> int)
    requires parent < |nodes| && ParentsEarlier(nodes)
    ensures ParentsEarlier(Grow(nodes, parent, level, rng, mix).nodes)
    decreases MaxLevel + 1 - level, 1, 0
  {
    var g := Grow(nodes, parent, level, rng, mix);
    if level <= MaxLevel {
      var count := NextOf(rng, mix);
      var meshed := Meshed(nodes, parent, level);
      MeshedEarlier(nodes, parent, level);
      PivotsEarlier(meshed, |nodes|, level, ChildCount(count.word), count.state, mix);
      GrowUnfold(nodes, parent, level, rng, mix);
      assert g == Pivots(meshed, |nodes|, level, ChildCount(count.word), count.state, mix);
    } else {
      assert g == Grown(nodes, rng);
    }
    assert ParentsEarlier(g.nodes);
  }

  lemma {:induction false} PivotsEarlier(nodes: seq<SceneNode>, branch: nat, level: nat, n: nat, rng: int, mix: int -> int)
    requires level <= MaxLevel && branch < |nodes| && ParentsEarlier(nodes)
    ensures ParentsEarlier(Pivots(nodes, branch, level, n, rng, mix).nodes)
    decreases MaxLevel + 1 - level, 0, n
  {
    if n > 0 {
      var before := Pivots(nodes, branch, level, n - 1, rng, mix);
      PivotsEarlier(nodes, branch, level, n - 1, rng, mix);
      PivotsPrefix(nodes, branch, level, n - 1, rng, mix);
      var x := NextOf(before.rng, mix);
      var z := NextOf(x.state, mix);
      var pivot := SceneNode(Some(branch), Pivot(Some(Rotation(x.word, z.word))));
      var pn := before.nodes + [pivot];
      AppendEarlier(before.nodes, [pivot]);
      GrowEarlier(pn, |before.nodes|, level + 1, z.state, mix);
      assert Pivots(nodes, branch, level, n, rng, mix) == Grow(pn, |before.nodes|, level + 1, z.state, mix);
    }
  }

  /**
   * The shape of a branch at a level up to 5: its mesh hangs from `parent`;
   * a leaf hangs from the mesh exactly from level 3 up; then comes the first
   * pivot, on the mesh, carrying the two draws that follow the child count
   * draw.
   */
  lemma GrowShape(nodes: seq<SceneNode>, parent: nat, level: nat, rng: int, mix: int -> int)
    requires level <= MaxLevel
    ensures var r := Grow(nodes, parent, level, rng, mix);
      var b := |nodes|;
      var pivotAt := b + 1 + (if level >= LeafLevel then 1 else 0);
      && pivotAt < |r.nodes|
      && r.nodes[b] == SceneNode(Some(parent), Cylinder(None))
      && (level >= LeafLevel <==> r.nodes[b + 1] == SceneNode(Some(b), Foliage))
      && r.nodes[pivotAt] == SceneNode(Some(b), Pivot(Some(Rotation(Draw(rng, 1, mix), Draw(rng, 2, mix)))))
  {
    var b := |nodes|;
    var meshed := Meshed(nodes, parent, level);
    var count := NextOf(rng, mix);
    var k := ChildCount(count.word);
    var r := Pivots(meshed, b, level, k, count.state, mix);
    GrowUnfold(nodes, parent, level, rng, mix);
    PivotsPrefix(meshed, b, level, k, count.state, mix);
    PivotsFirst(meshed, b, level, k, count.state, mix);
    assert Draw(count.state, 0, mix) == Draw(rng, 1, mix);
    assert Draw(count.state, 1, mix) == Draw(rng, 2, mix);
    assert r.nodes[b] == meshed[b];
    if level >= LeafLevel {
      assert r.nodes[b + 1] == meshed[b + 1];
    }
  }

  /** The first pivot of a children loop that runs at least once, right after the nodes it started from. */
  lemma PivotsFirst(nodes: seq<SceneNode>, branch: nat, level: nat, n: nat, rng: int, mix: int -> int)
    requires level <= MaxLevel && n >= 1
    ensures var r := Pivots(nodes, branch, level, n, rng, mix);
      && |nodes| < |r.nodes|
      && r.nodes[|nodes|] == SceneNode(Some(branch), Pivot(Some(Rotation(Draw(rng, 0, mix), Draw(rng, 1, mix)))))
  {
    var x := NextOf(rng, mix);
    var z := NextOf(x.state, mix);
    var pivot := SceneNode(Some(branch), Pivot(Some(Rotation(x.word, z.word))));
    var pn := nodes + [pivot];
    assert Pivots(nodes, branch, level, 0, rng, mix) == Grown(nodes, rng);
    var p1 := Pivots(nodes, branch, level, 1, rng, mix);
    assert p1 == Grow(pn, |nodes|, level + 1, z.state, mix);
    GrowPrefix(pn, |nodes|, level + 1, z.state, mix);
    FirstPivot(nodes, branch, level, n, rng, mix);
    var r := Pivots(nodes, branch, level, n, rng, mix);
    PrefixTrans(pn, p1.nodes, r.nodes);
    assert r.nodes[|nodes|] == pn[|nodes|];
  }

  /** The first pivot stays in place while later pivots are added. */
  lemma {:induction false} FirstPivot(nodes: seq<SceneNode>, branch: nat, level: nat, n: nat, rng: int, mix: int -> int)
    requires level <= MaxLevel && n >= 1
    ensures Pivots(nodes, branch, level, 1, rng, mix).nodes <= Pivots(nodes, branch, level, n, rng, mix).nodes
    decreases n
  {
    if n > 1 {
      FirstPivot(nodes, branch, level, n - 1, rng, mix);
      var before := Pivots(nodes, branch, level, n - 1, rng, mix);
      var x := NextOf(before.rng, mix);
      var z := NextOf(x.state, mix);
      var pn := before.nodes + [SceneNode(Some(branch), Pivot(Some(Rotation(x.word, z.word))))];
      GrowPrefix(pn, |before.nodes|, level + 1, z.state, mix);
      var g := Grow(pn, |before.nodes|, level + 1, z.state, mix);
      assert Pivots(nodes, branch, level, n, rng, mix) == g;
      PrefixTrans(before.nodes, pn, g.nodes);
      PrefixTrans(Pivots(nodes, branch, level, 1, rng, mix).nodes, before.nodes, g.nodes);
    }
  }

  // ---------------------------------------------------------------------
  // Children

  /** The mesh hangs from `parent` and the leaf from the mesh. */
  lemma MeshedHanging(nodes: seq<SceneNode>, parent: nat, level: nat, q: nat)
    requires q != parent
    ensures Hanging(Meshed(nodes, parent, level), q)
         == Hanging(nodes, q) + (if q == |nodes| && level >= LeafLevel then 1 else 0)
    ensures PivotsAt(Meshed(nodes, parent, level), q) == PivotsAt(nodes, q)
  {
    var mesh := SceneNode(Some(parent), Cylinder(None));
    HangingSnoc(nodes, mesh, q);
    if level >= LeafLevel {
      HangingSnoc(nodes + [mesh], SceneNode(Some(|nodes|), Foliage), q);
    }
  }

  /** A build hangs nothing from an older object other than `parent`. */
  lemma {:induction false} GrowHanging(nodes: seq<SceneNode>, parent: nat, level: nat, rng: int, mix: int -> int, q: nat)
    requires q < |nodes| && q != parent
    ensures Hanging(Grow(nodes, parent, level, rng, mix).nodes, q) == Hanging(nodes, q)
    ensures PivotsAt(Grow(nodes, parent, level, rng, mix).nodes, q) == PivotsAt(nodes, q)
    decreases MaxLevel + 1 - level, 1, 0
  {
    if level <= MaxLevel {
      var count := NextOf(rng, mix);
      var laid := Meshed(nodes, parent, level);
      var r := Pivots(laid, |nodes|, level, ChildCount(count.word), count.state, mix);
      assert Grow(nodes, parent, level, rng, mix) == r by {
        GrowUnfold(nodes, parent, level, rng, mix);
      }
      assert Hanging(laid, q) == Hanging(nodes, q) && PivotsAt(laid, q) == PivotsAt(nodes, q) by {
        MeshedHanging(nodes, parent, level, q);
      }
      PivotsHanging(laid, |nodes|, level, ChildCount(count.word), count.state, mix, q);
    }
  }

  /** The children loop hangs exactly `n` new objects from the mesh, all of them pivots, and none from another older object. */
  lemma {:induction false} PivotsHanging(nodes: seq<SceneNode>, branch: nat, level: nat, n: nat, rng: int, mix: int -> int, q: nat)
    requires level <= MaxLevel && q < |nodes|
    ensures var r := Pivots(nodes, branch, level, n, rng, mix);
      && Hanging(r.nodes, q) == Hanging(nodes, q) + (if q == branch then n else 0)
      && PivotsAt(r.nodes, q) == PivotsAt(nodes, q) + (if q == branch then n else 0)
    decreases MaxLevel + 1 - level, 0, n
  {
    if n > 0 {
      var before := Pivots(nodes, branch, level, n - 1, rng, mix);
      PivotsHanging(nodes, branch, level, n - 1, rng, mix, q);
      PivotsPrefix(nodes, branch, level, n - 1, rng, mix);
      var x := NextOf(before.rng, mix);
      var z := NextOf(x.state, mix);
      var pivot := SceneNode(Some(branch), Pivot(Some(Rotation(x.word, z.word))));
      var pn := before.nodes + [pivot];
      HangingSnoc(before.nodes, pivot, q);
      GrowHanging(pn, |before.nodes|, level + 1, z.state, mix, q);
      assert Pivots(nodes, branch, level, n, rng, mix) == Grow(pn, |before.nodes|, level + 1, z.state, mix);
    }
  }

  /**
   * From index `from` on, every object hanging from `branch` is a pivot
   * and, below level 5, is followed by the mesh of its child branch hanging
   * from it.
   */
  predicate ChildrenStart(nodes: seq<SceneNode>, from: nat, branch: nat, level: nat) {
    forall i {:trigger ParentOf(nodes, i)} :: from <= i < |nodes| && ParentOf(nodes, i) == Some(branch) ==>
      && nodes[i].tag.Pivot?
      && (level < MaxLevel ==> i + 1 < |nodes| && nodes[i + 1] == SceneNode(Some(i), Cylinder(None)))
  }

  /** Each pivot of the children loop carries a child branch. */
  lemma {:induction false} PivotsChildren(nodes: seq<SceneNode>, branch: nat, level: nat, n: nat, rng: int, mix: int -> int)
    requires level <= MaxLevel && branch < |nodes|
    ensures ChildrenStart(Pivots(nodes, branch, level, n, rng, mix).nodes, |nodes|, branch, level)
    decreases n
  {
    if n > 0 {
      PivotsChildren(nodes, branch, level, n - 1, rng, mix);
      PivotsChildrenStep(nodes, branch, level, n, rng, mix);
    }
  }

  /** One more iteration of the children loop keeps `ChildrenStart`. */
  lemma PivotsChildrenStep(nodes: seq<SceneNode>, branch: nat, level: nat, n: nat, rng: int, mix: int -> int)
    requires level <= MaxLevel && branch < |nodes| && n > 0
    requires ChildrenStart(Pivots(nodes, branch, level, n - 1, rng, mix).nodes, |nodes|, branch, level)
    ensures ChildrenStart(Pivots(nodes, branch, level, n, rng, mix).nodes, |nodes|, branch, level)
  {
    var before := Pivots(nodes, branch, level, n - 1, rng, mix);
    var x := NextOf(before.rng, mix);
    var z := NextOf(x.state, mix);
    var pivot := SceneNode(Some(branch), Pivot(Some(Rotation(x.word, z.word))));
    var pn := before.nodes + [pivot];
    var h := |before.nodes|;
    var g := Grow(pn, h, level + 1, z.state, mix);
    assert |nodes| <= h by {
      PivotsPrefix(nodes, branch, level, n - 1, rng, mix);
    }
    assert pn <= g.nodes by {
      GrowPrefix(pn, h, level + 1, z.state, mix);
    }
    assert Hanging(g.nodes, branch) == Hanging(pn, branch) by {
      GrowHanging(pn, h, level + 1, z.state, mix, branch);
    }
    if level < MaxLevel {
      assert |pn| < |g.nodes| && g.nodes[|pn|] == SceneNode(Some(h), Cylinder(None)) by {
        GrowShape(pn, h, level + 1, z.state, mix);
      }
    }
    ChildrenStartSnoc(before.nodes, pivot, g.nodes, |nodes|, branch, level);
    assert Pivots(nodes, branch, level, n, rng, mix) == g;
  }

  /**
   * Appending a pivot on `branch` and then a build under it that starts
   * with the child's mesh and hangs nothing else from `branch` keeps
   * `ChildrenStart`.
   */
  lemma ChildrenStartSnoc(before: seq<SceneNode>, pivot: SceneNode, grown: seq<SceneNode>, from: nat, branch: nat, level: nat)
    requires from <= |before| && branch < |before|
    requires ChildrenStart(before, from, branch, level)
    requires pivot.parent == Some(branch) && pivot.tag.Pivot?
    requires before + [pivot] <= grown && Hanging(grown, branch) == Hanging(before + [pivot], branch)
    requires level < MaxLevel ==> |before| + 1 < |grown| && grown[|before| + 1] == SceneNode(Some(|before|), Cylinder(None))
    ensures ChildrenStart(grown, from, branch, level)
  {
    var pn := before + [pivot];
    forall i | from <= i < |grown| && ParentOf(grown, i) == Some(branch)
      ensures grown[i].tag.Pivot?
      ensures level < MaxLevel ==> i + 1 < |grown| && grown[i + 1] == SceneNode(Some(i), Cylinder(None))
    {
      if i < |before| {
        assert grown[i] == pn[i] == before[i];
        assert ParentOf(before, i) == Some(branch);
        if level < MaxLevel {
          assert i + 1 < |before|;
          assert grown[i + 1] == pn[i + 1] == before[i + 1];
        }
      } else if i > |before| {
        HangingGrows(pn, grown, branch, i);
        assert false;
      } else {
        assert grown[i] == pn[i];
      }
    }
  }

  /**
   * A branch at a level up to 5 hangs from its mesh its leaf (from level 3
   * up) and exactly `ChildCount` of the child count draw pivots, two to
   * four, each carrying a child branch.
   */
  lemma GrowChildren(nodes: seq<SceneNode>, parent: nat, level: nat, rng: int, mix: int -> int)
    requires parent < |nodes| && level <= MaxLevel
    ensures var r := Grow(nodes, parent, level, rng, mix);
      var mesh := |nodes|;
      var k := ChildCount(Draw(rng, 0, mix));
      && 2 <= k <= 4
      && PivotsAt(r.nodes, mesh) == PivotsAt(nodes, mesh) + k
      && Hanging(r.nodes, mesh) == Hanging(nodes, mesh) + k + (if level >= LeafLevel then 1 else 0)
      && ChildrenStart(r.nodes, |Meshed(nodes, parent, level)|, mesh, level)
  {
    var mesh := |nodes|;
    var meshed := Meshed(nodes, parent, level);
    var count := NextOf(rng, mix);
    var k := ChildCount(count.word);
    GrowUnfold(nodes, parent, level, rng, mix);
    MeshedHanging(nodes, parent, level, mesh);
    PivotsHanging(meshed, mesh, level, k, count.state, mix, mesh);
    PivotsChildren(meshed, mesh, level, k, count.state, mix);
  }

  // ---------------------------------------------------------------------
  // Draws

  /**
   * Every draw is charged to an object built by the same call: one per
   * branch mesh for the child count and two per pivot for its rotation,
   * whether or not a branch is built under the pivot.
   */
  lemma {:induction false} GrowDraws(nodes: seq<SceneNode>, parent: nat, level: nat, rng: int, mix: int -> int)
    ensures var r := Grow(nodes, parent, level, rng, mix);
      Skip(r.rng, DrawCost(nodes)) == Skip(rng, DrawCost(r.nodes))
    decreases MaxLevel + 1 - level, 1, 0
  {
    if level <= MaxLevel {
      var count := NextOf(rng, mix);
      MeshedCost(nodes, parent, level);
      GrowUnfold(nodes, parent, level, rng, mix);
      PivotsDraws(Meshed(nodes, parent, level), |nodes|, level, ChildCount(count.word), count.state, mix);
    } else {
      assert Grow(nodes, parent, level, rng, mix) == Grown(nodes, rng);
    }
  }

  lemma {:induction false} PivotsDraws(nodes: seq<SceneNode>, branch: nat, level: nat, n: nat, rng: int, mix: int -> int)
    requires level <= MaxLevel
    ensures var r := Pivots(nodes, branch, level, n, rng, mix);
      Skip(r.rng, DrawCost(nodes)) == Skip(rng, DrawCost(r.nodes))
    decreases MaxLevel + 1 - level, 0, n
  {
    if n > 0 {
      var before := Pivots(nodes, branch, level, n - 1, rng, mix);
      PivotsDraws(nodes, branch, level, n - 1, rng, mix);
      var x := NextOf(before.rng, mix);
      var z := NextOf(x.state, mix);
      var pivot := SceneNode(Some(branch), Pivot(Some(Rotation(x.word, z.word))));
      var pn := before.nodes + [pivot];
      DrawCostSnoc(before.nodes, pivot);
      GrowDraws(pn, |before.nodes|, level + 1, z.state, mix);
      var g := Grow(pn, |before.nodes|, level + 1, z.state, mix);
      assert Pivots(nodes, branch, level, n, rng, mix) == g;
      assert Skip(g.rng, DrawCost(pn)) == Skip(z.state, DrawCost(g.nodes));
      assert Skip(before.rng, DrawCost(nodes)) == Skip(rng, DrawCost(before.nodes));
      assert z.state == Skip(before.rng, 2);
    } else {
      assert Pivots(nodes, branch, level, n, rng, mix) == Grown(nodes, rng);
    }
  }

  /**
   * The two earlier variants draw alike: from the same generator state a
   * branch of either consumes the same number of draws, so the same seed
   * gives the same child counts and pivot rotations in both; only the meshes
   * differ.
   */
  lemma {:induction false} SameDraws(nodes: seq<SceneNode>, parent: nat, nodes2: seq<SceneNode>, parent2: nat,
                                     level: nat, rng: int, mix: int -> int)
    ensures Grow(nodes, parent, level, rng, mix).rng == Bkp2.Grow(nodes2, parent2, level, rng, mix).rng
    decreases MaxLevel + 1 - level, 1, 0
  {
    if level <= MaxLevel {
      var count := NextOf(rng, mix);
      GrowUnfold(nodes, parent, level, rng, mix);
      Bkp2.GrowUnfold(nodes2, parent2, level, rng, mix);
      PivotsSameDraws(Meshed(nodes, parent, level), |nodes|,
                      Bkp2.Leafed(nodes2, parent2, level), |nodes2| + SegmentCount - 1,
                      level, ChildCount(count.word), count.state, mix);
    } else {
      assert Grow(nodes, parent, level, rng, mix) == Grown(nodes, rng);
      assert Bkp2.Grow(nodes2, parent2, level, rng, mix) == Grown(nodes2, rng);
    }
  }

  lemma {:induction false} PivotsSameDraws(nodes: seq<SceneNode>, branch: nat, nodes2: seq<SceneNode>, top2: nat,
                                           level: nat, n: nat, rng: int, mix: int -> int)
    requires level <= MaxLevel
    ensures Pivots(nodes, branch, level, n, rng, mix).rng == Bkp2.Pivots(nodes2, top2, level, n, rng, mix).rng
    decreases MaxLevel + 1 - level, 0, n
  {
    if n > 0 {
      var before := Pivots(nodes, branch, level, n - 1, rng, mix);
      var before2 := Bkp2.Pivots(nodes2, top2, level, n - 1, rng, mix);
      PivotsSameDraws(nodes, branch, nodes2, top2, level, n - 1, rng, mix);
      var x := NextOf(before.rng, mix);
      var z := NextOf(x.state, mix);
      var pn := before.nodes + [SceneNode(Some(branch), Pivot(Some(Rotation(x.word, z.word))))];
      var pn2 := before2.nodes + [SceneNode(Some(top2), Pivot(Some(Rotation(x.word, z.word))))];
      SameDraws(pn, |before.nodes|, pn2, |before2.nodes|, level + 1, z.state, mix);
      assert Pivots(nodes, branch, level, n, rng, mix) == Grow(pn, |before.nodes|, level + 1, z.state, mix);
      assert Bkp2.Pivots(nodes2, top2, level, n, rng, mix) == Bkp2.Grow(pn2, |before2.nodes|, level + 1, z.state, mix);
    } else {
      assert Pivots(nodes, branch, level, n, rng, mix) == Grown(nodes, rng);
      assert Bkp2.Pivots(nodes2, top2, level, n, rng, mix) == Grown(nodes2, rng);
    }
  }

  /**
   * What `generateTree` keeps of the page's invariant: with the old tree
   * detached and a new tree object grown under `root`, every object still
   * comes after its parent, and the new tree object is the group at the old
   * length.
   */
  lemma RegrowKeeps(nodes: seq<SceneNode>, tree: Option<nat>, root: nat, seed: int, mix: int -> int)
    requires ParentsEarlier(nodes) && root < |nodes|
    ensures var g := Grow(Detached(nodes, tree) + [SceneNode(Some(root), Group)], |nodes|, 0, seed, mix).nodes;
      |nodes| < |g| && g[|nodes|].tag == Group && ParentsEarlier(g)
  {
    var d := Detached(nodes, tree);
    var base := d + [SceneNode(Some(root), Group)];
    DetachEarlier(nodes, tree);
    AppendEarlier(d, [SceneNode(Some(root), Group)]);
    var g := Grow(base, |nodes|, 0, seed, mix).nodes;
    GrowPrefix(base, |nodes|, 0, seed, mix);
    GrowEarlier(base, |nodes|, 0, seed, mix);
    assert g[|nodes|] == base[|nodes|];
  }

  /**
   * The part of `generateTree` after the old tree is removed: a generator
   * seeded with `seed`, a new tree object added under `root`, and the trunk
   * grown under it.
   */
  method PlantTree(scene: SceneGraph, root: nat, seed: int) returns (t: nat)
    requires root < |scene.nodes|
    modifies scene
    ensures t == |old(scene.nodes)|
    ensures scene.nodes == Grow(old(scene.nodes) + [SceneNode(Some(root), Group)], t, 0, seed, Mix).nodes
  {
    var random := new Mulberry32(seed);
    t := scene.Add(root, Group);
    CreateBranch(scene, t, 0, random);
  }

  // ---------------------------------------------------------------------
  // The page

  /** The globals of bkp/1/script.js that the tree logic reads and writes. */
  class Page {
    const scene: SceneGraph
    /** The Three.js scene the tree is added to. */
    const root: nat
    /** `tree`, the object holding the current tree. */
    var tree: Option<nat>

    predicate Valid()
      reads this, scene
    {
      && ParentsEarlier(scene.nodes)
      && root < |scene.nodes|
      && (tree.Some? ==> tree.value < |scene.nodes| && scene.nodes[tree.value].tag == Group)
    }

    constructor ()
      ensures Valid() && fresh(scene) && |scene.nodes| == 1 && tree == None
    {
      var sg := new SceneGraph();
      var r := sg.Create(Group);
      scene := sg;
      root := r;
      tree := None;
    }

    /**
     * `generateTree(seed)`: the old tree is removed from the scene, a fresh
     * generator is seeded, and a new tree object added to the scene grows
     * the trunk.
     */
    method GenerateTree(seed: int)
      requires Valid()
      modifies this, scene
      ensures Valid() && tree == Some(|old(scene.nodes)|)
      ensures scene.nodes == Grow(Detached(old(scene.nodes), old(tree)) + [SceneNode(Some(root), Group)],
                                  |old(scene.nodes)|, 0, seed, Mix).nodes
    {
      if tree.Some? {
        scene.Detach(tree.value);
      }
      assert scene.nodes == Detached(old(scene.nodes), old(tree));
      RegrowKeeps(old(scene.nodes), old(tree), root, seed, Mix);
      var t := PlantTree(scene, root, seed);
      tree := Some(t);
    }
  }
}
