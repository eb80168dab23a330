/**
 * The falling pieces of script.js: a pruned piece is pushed onto
 * `fallingObjects`, and every frame `animateFallingObjects` applies gravity,
 * moves and spins each piece and drops the pieces that fell out of view.
 * Vectors are modelled over `real`; floating-point rounding is not modelled.
 */
module Debris {

  /** The gravity constant of script.js, in units per second squared. */
  const Gravity: real := 9.8

  /** A piece is removed once its height falls below this. */
  const FloorY: real := -10.0

  datatype Vec3 = Vec3(x: real, y: real, z: real)

  /** `obj.mesh.position`, `obj.mesh.rotation`, `obj.velocity` and `obj.angularVelocity`. */
  datatype Body = Body(position: Vec3, rotation: Vec3, velocity: Vec3, angularVelocity: Vec3)

  function AddScaled(v: Vec3, w: Vec3, s: real): Vec3 {
    Vec3(v.x + w.x * s, v.y + w.y * s, v.z + w.z * s)
  }

  /**
   * One frame of one piece, in the source's order: gravity first, then the
   * position moves by the updated velocity, then the rotation by the
   * angular velocity.
   */
  function Step(b: Body, dt: real): Body {
    var v := b.velocity.(y := b.velocity.y - Gravity * dt);
    Body(AddScaled(b.position, v, dt), AddScaled(b.rotation, b.angularVelocity, dt), v, b.angularVelocity)
  }

  /** Whether a piece is still in view. */
  predicate InView(b: Body) {
    b.position.y >= FloorY
  }

  /** Every piece advanced by one frame, in list order. */
  function Stepped(bs: seq<Body>, dt: real): (r: seq<Body>)
    ensures |r| == |bs|
  {
    seq(|bs|, i requires 0 <= i < |bs| => Step(bs[i], dt))
  }

  /** The pieces in view, in list order. */
  function Filter(bs: seq<Body>): seq<Body>
    decreases |bs|
  {
    if bs == [] then [] else (if InView(bs[0]) then [bs[0]] else []) + Filter(bs[1..])
  }

  class FallingObjects {
    /** `fallingObjects`. */
    var bodies: seq<Body>

    constructor ()
      ensures bodies == []
    {
      bodies := [];
    }

    /** `fallingObjects.push(...)` of a freshly cut piece. */
    method Push(b: Body)
      modifies this
      ensures bodies == old(bodies) + [b]
    {
      bodies := bodies + [b];
    }

    /**
     * `animateFallingObjects(delta)`: a loop from the last piece down to the
     * first updates each piece in place and splices it out when it has
     * fallen below the floor.
     */
    method AnimateFallingObjects(delta: real)
      modifies this
      ensures bodies == Filter(Stepped(old(bodies), delta))
    {
      ghost var orig := bodies;
      var i := |bodies|;
      assert orig[i..] == [];
      while i > 0
        invariant 0 <= i <= |orig|
        invariant bodies == orig[..i] + Filter(Stepped(orig[i..], delta))
        decreases i
      {
        i := i - 1;
        SteppedCons(orig[i..], delta);
        assert orig[i..][1..] == orig[i + 1..];
        FilterCons(Step(orig[i], delta), Stepped(orig[i + 1..], delta));
        var obj := bodies[i];
        assert obj == orig[i];
        var velocity := obj.velocity.(y := obj.velocity.y - Gravity * delta);
        var position := AddScaled(obj.position, velocity, delta);
        var rotation := AddScaled(obj.rotation, obj.angularVelocity, delta);
        bodies := bodies[i := Body(position, rotation, velocity, obj.angularVelocity)];
        if position.y < FloorY {
          bodies := bodies[..i] + bodies[i + 1..];
        }
        assert orig[..i + 1] == orig[..i] + [orig[i]];
      }
      assert orig[..0] == [];
    }
  }

  // ---------------------------------------------------------------------
  // Lemmas

  lemma SteppedCons(bs: seq<Body>, dt: real)
    requires bs != []
    ensures Stepped(bs, dt) == [Step(bs[0], dt)] + Stepped(bs[1..], dt)
  {
  }

  lemma FilterCons(b: Body, bs: seq<Body>)
    ensures Filter([b] + bs) == (if InView(b) then [b] else []) + Filter(bs)
  {
    assert ([b] + bs)[1..] == bs;
  }

  /** A piece survives the filter exactly when it is in the list and in view. */
  lemma {:induction false} FilterMembers(bs: seq<Body>, b: Body)
    ensures b in Filter(bs) <==> b in bs && InView(b)
    decreases |bs|
  {
    if bs != [] {
      FilterMembers(bs[1..], b);
      assert bs == [bs[0]] + bs[1..];
    }
  }

  /** Filtering keeps the order: it distributes over concatenation. */
  lemma {:induction false} FilterAppend(s: seq<Body>, t: seq<Body>)
    ensures Filter(s + t) == Filter(s) + Filter(t)
    decreases |s|
  {
    if s != [] {
      FilterAppend(s[1..], t);
      assert (s + t)[1..] == s[1..] + t;
    } else {
      assert s + t == t;
    }
  }

  /** Nothing is removed while every piece stays in view. */
  lemma {:induction false} FilterAllInView(bs: seq<Body>)
    requires forall i :: 0 <= i < |bs| ==> InView(bs[i])
    ensures Filter(bs) == bs
    decreases |bs|
  {
    if bs != [] {
      FilterAllInView(bs[1..]);
      assert [bs[0]] + bs[1..] == bs;
    }
  }

  /** The filtered list is never longer than the list. */
  lemma {:induction false} FilterShorter(bs: seq<Body>)
    ensures |Filter(bs)| <= |bs|
    decreases |bs|
  {
    if bs != [] {
      FilterShorter(bs[1..]);
    }
  }

  /**
   * After one frame the list holds exactly the advanced pieces whose new
   * height is at least -10; a piece whose new height is below -10 is gone.
   */
  lemma AnimateKeeps(bs: seq<Body>, dt: real, i: nat)
    requires i < |bs|
    ensures Step(bs[i], dt) in Filter(Stepped(bs, dt)) <==> Step(bs[i], dt).position.y >= FloorY
  {
    FilterMembers(Stepped(bs, dt), Step(bs[i], dt));
    assert Stepped(bs, dt)[i] == Step(bs[i], dt);
  }

  /**
   * Gravity is applied before the move: a frame lowers the height by
   * `Gravity * dt * dt` more than moving with the old velocity would, so over
   * a positive frame the piece ends strictly lower than that; the other
   * two coordinates move by the unchanged velocity.
   */
  lemma StepOrder(b: Body, dt: real)
    ensures Step(b, dt).position.y == b.position.y + b.velocity.y * dt - Gravity * dt * dt
    ensures dt > 0.0 ==> Step(b, dt).position.y < b.position.y + b.velocity.y * dt
    ensures Step(b, dt).position.x == b.position.x + b.velocity.x * dt
    ensures Step(b, dt).position.z == b.position.z + b.velocity.z * dt
  {
    var y := Step(b, dt).position.y;
    assert y == b.position.y + (b.velocity.y - Gravity * dt) * dt;
    assert (b.velocity.y - Gravity * dt) * dt == b.velocity.y * dt - Gravity * dt * dt;
    if dt > 0.0 {
      var drop := Gravity * dt * dt;
      assert drop > 0.0 by {
        assert Gravity * dt > 0.0;
      }
      assert y == b.position.y + b.velocity.y * dt - drop;
    }
  }
}
