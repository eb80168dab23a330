/**
 * What the two earlier variants of the generator (bkp/1/script.js and
 * bkp/2/script.js) have in common: `createBranch` builds scene objects
 * directly while it draws from the generator, so its specification threads
 * the node list and the generator state together; and every draw can be
 * charged to one of the objects it builds.
 */
module Legacy {
  import opened Wrappers
  import opened Prng
  import opened Scene

  /** The node list and the generator state after a call of `createBranch`. */
  datatype Grown = Grown(nodes: seq<SceneNode>, rng: int)

  /**
   * The draws an object accounts for: the first (or only) mesh of a
   * branch stands for the branch's child count draw, and a pivot for the
   * two rotation draws made when it is created.
   */
  function Weight(t: Tag): nat {
    match t
    case Cylinder(userData) => if userData.None? || userData.value.segmentIndex == 0 then 1 else 0
    case Pivot(_) => 2
    case _ => 0
  }

  /** The total weight of a node list. */
  function DrawCost(nodes: seq<SceneNode>): nat
    decreases |nodes|
  {
    if nodes == [] then 0 else DrawCost(nodes[..|nodes| - 1]) + Weight(nodes[|nodes| - 1].tag)
  }

  lemma DrawCostSnoc(nodes: seq<SceneNode>, n: SceneNode)
    ensures DrawCost(nodes + [n]) == DrawCost(nodes) + Weight(n.tag)
  {
    assert (nodes + [n])[..|nodes|] == nodes;
  }

  /** The weight of a node list is the sum of the weights of its parts. */
  lemma {:induction false} DrawCostAppend(a: seq<SceneNode>, b: seq<SceneNode>)
    ensures DrawCost(a + b) == DrawCost(a) + DrawCost(b)
    decreases |b|
  {
    if b == [] {
      assert a + b == a;
    } else {
      var init := b[..|b| - 1];
      DrawCostAppend(a, init);
      assert a + b == (a + init) + [b[|b| - 1]];
      DrawCostSnoc(a + init, b[|b| - 1]);
      assert init + [b[|b| - 1]] == b;
      DrawCostSnoc(init, b[|b| - 1]);
    }
  }

  /** A prefix of a prefix is a prefix. */
  lemma PrefixTrans(a: seq<SceneNode>, b: seq<SceneNode>, c: seq<SceneNode>)
    requires a <= b && b <= c
    ensures a <= c
  {
    assert c[..|a|] == b[..|a|];
  }

  /** Taking an object out of its parent keeps every object after its parent. */
  lemma DetachEarlier(nodes: seq<SceneNode>, tree: Option<nat>)
    requires ParentsEarlier(nodes)
    ensures ParentsEarlier(Detached(nodes, tree))
  {
    if tree.Some? && tree.value < |nodes| {
      DetachCuts(nodes, tree.value, tree.value);
    }
  }

  /** Appending objects that hang from existing ones keeps every object after its parent. */
  lemma AppendEarlier(nodes: seq<SceneNode>, added: seq<SceneNode>)
    requires ParentsEarlier(nodes)
    requires forall i :: 0 <= i < |added| && added[i].parent.Some? ==> added[i].parent.value < |nodes|
    ensures ParentsEarlier(nodes + added)
  {
    var all := nodes + added;
    forall i | 0 <= i < |all| && all[i].parent.Some?
      ensures all[i].parent.value < i
    {
      if i >= |nodes| {
        assert all[i] == added[i - |nodes|];
      } else {
        assert all[i] == nodes[i];
      }
    }
  }

  // ---------------------------------------------------------------------
  // Children of an object

  /** The parent of object `i`. */
  function ParentOf(nodes: seq<SceneNode>, i: nat): Option<nat>
    requires i < |nodes|
  {
    nodes[i].parent
  }

  /** How many objects of `nodes` hang directly from object `p`. */
  function Hanging(nodes: seq<SceneNode>, p: nat): nat
    decreases |nodes|
  {
    if nodes == [] then 0
    else Hanging(nodes[..|nodes| - 1], p) + (if nodes[|nodes| - 1].parent == Some(p) then 1 else 0)
  }

  /** How many pivots of `nodes` hang directly from object `p`. */
  function PivotsAt(nodes: seq<SceneNode>, p: nat): nat
    decreases |nodes|
  {
    if nodes == [] then 0
    else
      var last := nodes[|nodes| - 1];
      PivotsAt(nodes[..|nodes| - 1], p) + (if last.parent == Some(p) && last.tag.Pivot? then 1 else 0)
  }

  lemma HangingSnoc(nodes: seq<SceneNode>, n: SceneNode, p: nat)
    ensures Hanging(nodes + [n], p) == Hanging(nodes, p) + (if n.parent == Some(p) then 1 else 0)
    ensures PivotsAt(nodes + [n], p) == PivotsAt(nodes, p) + (if n.parent == Some(p) && n.tag.Pivot? then 1 else 0)
  {
    assert (nodes + [n])[..|nodes|] == nodes;
  }

  /**
   * Objects appended after `short` only add children: and one appended
   * object that hangs from `p` makes `p`'s count grow.
   */
  lemma {:induction false} HangingGrows(short: seq<SceneNode>, long: seq<SceneNode>, p: nat, j: nat)
    requires short <= long
    ensures Hanging(short, p) <= Hanging(long, p)
    ensures |short| <= j < |long| && long[j].parent == Some(p) ==> Hanging(short, p) < Hanging(long, p)
    decreases |long|
  {
    if |short| < |long| {
      var init := long[..|long| - 1];
      assert short <= init;
      HangingGrows(short, init, p, j);
      assert long == init + [long[|long| - 1]];
      HangingSnoc(init, long[|long| - 1], p);
    } else {
      assert short == long;
    }
  }
}
