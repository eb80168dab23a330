/**
 * The part of a Three.js scene graph the tree code relies on: objects with
 * a parent and a kind. Objects live in an arena and are named by their
 * index (handle); `parent.add(child)` is `Add`, removing an object from its
 * parent is `Detach`. Geometry, materials and transforms are left out; a
 * node keeps only what the builders record in it.
 */
module Scene {
  import opened Wrappers
  import opened TreeModel

  /** What a node is, as far as structure and the ids in `userData` go. */
  datatype Tag =
    | Point                             // a skeleton point (base or joint)
    | SegmentNode(segment: Segment)     // a segment: skeleton joint object or mesh
    | LeafNode(id: int)                 // a leaf point or a leaf mesh
    | Pivot(rotation: Option<Rotation>) // the pivot a child branch hangs from
    | Group                             // a plain container such as the "tree" object
    | Cylinder(userData: Option<SegmentLabel>) // a branch mesh of the earlier variants
    | Foliage                           // a leaf mesh of the earlier variants, with no id

  /** The `userData` the second earlier variant records on each segment mesh. */
  datatype SegmentLabel = SegmentLabel(level: int, segmentIndex: nat)

  /** A node and its parent; `None` is an object in no parent. */
  datatype SceneNode = SceneNode(parent: Option<nat>, tag: Tag)

  class SceneGraph {
    var nodes: seq<SceneNode>

    constructor ()
      ensures nodes == []
    {
      nodes := [];
    }

    /** A new object of kind `tag` that is in no parent yet. */
    method Create(tag: Tag) returns (h: nat)
      modifies this
      ensures h == |old(nodes)| && nodes == old(nodes) + [SceneNode(None, tag)]
    {
      h := |nodes|;
      nodes := nodes + [SceneNode(None, tag)];
    }

    /** `parent.add(new Object(tag))`: a new object attached under `parent`. */
    method Add(parent: nat, tag: Tag) returns (h: nat)
      requires parent < |nodes|
      modifies this
      ensures h == |old(nodes)| && nodes == old(nodes) + [SceneNode(Some(parent), tag)]
    {
      h := |nodes|;
      nodes := nodes + [SceneNode(Some(parent), tag)];
    }

    /** `parent.add(h)` for an existing object: re-parents it. */
    method Attach(h: nat, parent: nat)
      requires h < |nodes| && parent < |nodes|
      modifies this
      ensures nodes == old(nodes)[h := SceneNode(Some(parent), old(nodes)[h].tag)]
    {
      nodes := nodes[h := SceneNode(Some(parent), nodes[h].tag)];
    }

    /** `h.parent.remove(h)`: the object and its subtree leave the graph. */
    method Detach(h: nat)
      requires h < |nodes|
      modifies this
      ensures nodes == old(nodes)[h := SceneNode(None, old(nodes)[h].tag)]
    {
      nodes := nodes[h := SceneNode(None, nodes[h].tag)];
    }
  }

  /** The node list after the object `tree`, if there is one, is taken out of its parent. */
  function Detached(nodes: seq<SceneNode>, tree: Option<nat>): (r: seq<SceneNode>)
    ensures |r| == |nodes|
  {
    if tree.Some? && tree.value < |nodes| then nodes[tree.value := SceneNode(None, nodes[tree.value].tag)] else nodes
  }

  // ---------------------------------------------------------------------
  // Parent chains

  /** Every object was added after its parent, so parent chains end. */
  predicate ParentsEarlier(nodes: seq<SceneNode>) {
    forall i :: 0 <= i < |nodes| && nodes[i].parent.Some? ==> nodes[i].parent.value < i
  }

  /** The object at the top of `i`'s parent chain: the scene it is shown in, or a detached object. */
  function Top(nodes: seq<SceneNode>, i: nat): nat
    requires ParentsEarlier(nodes) && i < |nodes|
    decreases i
  {
    if nodes[i].parent.None? then i else Top(nodes, nodes[i].parent.value)
  }

  /** Whether `t` is on `i`'s parent chain: `i` is `t` or lies in `t`'s subtree. */
  predicate Under(nodes: seq<SceneNode>, i: nat, t: nat)
    requires ParentsEarlier(nodes) && i < |nodes|
    decreases i
  {
    i == t || (nodes[i].parent.Some? && Under(nodes, nodes[i].parent.value, t))
  }

  /**
   * Detaching `t` cuts exactly its subtree off: every object under `t` now
   * tops out at `t`, and every other object keeps the top it had.
   */
  lemma {:induction false} DetachCuts(nodes: seq<SceneNode>, t: nat, i: nat)
    requires ParentsEarlier(nodes) && t < |nodes| && i < |nodes|
    ensures ParentsEarlier(Detached(nodes, Some(t)))
    ensures Under(nodes, i, t) ==> Top(Detached(nodes, Some(t)), i) == t
    ensures !Under(nodes, i, t) ==> Top(Detached(nodes, Some(t)), i) == Top(nodes, i)
    decreases i
  {
    var after := Detached(nodes, Some(t));
    assert ParentsEarlier(after) by {
      forall j | 0 <= j < |after| && after[j].parent.Some?
        ensures after[j].parent.value < j
      {
        assert after[j] == nodes[j];
      }
    }
    if i != t && nodes[i].parent.Some? {
      assert after[i] == nodes[i];
      DetachCuts(nodes, t, nodes[i].parent.value);
    }
  }
}
