/**
 * The two in-place transforms the estimators apply to particle positions, which
 * live in the unit box [0,1)^N:
 *
 *  - the interlacing shift by half a grid cell along every axis and its undo
 *    (compute_power_spectrum_interlacing), where axis 0 is never wrapped;
 *  - the redshift-space displacement along a coordinate axis and its undo
 *    (compute_power_spectrum_multipoles on particles), each followed by a
 *    single-step periodic correction of every coordinate.
 *
 * Both transforms walk an array of particles and update every position in place.
 */
module Particles {
  import opened Vectors

  /** A particle: its position in units of the box and its velocity. */
  datatype Particle = Particle(pos: seq<real>, vel: seq<real>)

  /** Every coordinate lies in [0,1). */
  predicate InBox(pos: seq<real>) {
    forall d :: 0 <= d < |pos| ==> 0.0 <= pos[d] < 1.0
  }

  //------------------------------------------------------------------
  // Interlacing shift
  //------------------------------------------------------------------

  /** pos[0] += shift; for the other axes, pos += shift and one period off when >= 1. */
  function ShiftCoord(x: real, axis: nat, shift: real): real {
    if axis == 0 then x + shift
    else if x + shift >= 1.0 then x + shift - 1.0
    else x + shift
  }

  /** pos[0] -= shift; for the other axes, pos -= shift and one period on when < 0. */
  function UnshiftCoord(x: real, axis: nat, shift: real): real {
    if axis == 0 then x - shift
    else if x - shift < 0.0 then x - shift + 1.0
    else x - shift
  }

  function ShiftPos(pos: seq<real>, shift: real): (r: seq<real>)
    ensures |r| == |pos|
  {
    seq(|pos|, d requires 0 <= d < |pos| => ShiftCoord(pos[d], d, shift))
  }

  function UnshiftPos(pos: seq<real>, shift: real): (r: seq<real>)
    ensures |r| == |pos|
  {
    seq(|pos|, d requires 0 <= d < |pos| => UnshiftCoord(pos[d], d, shift))
  }

  /**
   * For a shift in [0,1): axis 0 is moved by exactly the shift (and may leave the
   * box), every other axis stays in [0,1).
   */
  lemma ShiftBounds(pos: seq<real>, shift: real)
    requires InBox(pos) && 0.0 <= shift < 1.0 && |pos| > 0
    ensures ShiftPos(pos, shift)[0] == pos[0] + shift
    ensures forall d :: 1 <= d < |pos| ==> 0.0 <= ShiftPos(pos, shift)[d] < 1.0
  {
  }

  /** The undo restores every coordinate of a position in the box. */
  lemma ShiftRoundTrip(pos: seq<real>, shift: real)
    requires InBox(pos) && 0.0 <= shift < 1.0
    ensures UnshiftPos(ShiftPos(pos, shift), shift) == pos
  {
  }

  /** Every particle shifted, velocities untouched. */
  function ShiftedAll(ps: seq<Particle>, shift: real): (r: seq<Particle>)
    ensures |r| == |ps|
  {
    seq(|ps|, i requires 0 <= i < |ps| => ps[i].(pos := ShiftPos(ps[i].pos, shift)))
  }

  function UnshiftedAll(ps: seq<Particle>, shift: real): (r: seq<Particle>)
    ensures |r| == |ps|
  {
    seq(|ps|, i requires 0 <= i < |ps| => ps[i].(pos := UnshiftPos(ps[i].pos, shift)))
  }

  /** Shifting every particle and shifting it back restores the whole set. */
  lemma InterlaceRoundTrip(ps: seq<Particle>, shift: real)
    requires forall i :: 0 <= i < |ps| ==> InBox(ps[i].pos)
    requires 0.0 <= shift < 1.0
    ensures UnshiftedAll(ShiftedAll(ps, shift), shift) == ps
  {
    forall i | 0 <= i < |ps|
      ensures UnshiftedAll(ShiftedAll(ps, shift), shift)[i] == ps[i]
    {
      ShiftRoundTrip(ps[i].pos, shift);
    }
  }

  /** The shift loop over the components of one position. */
  method ShiftPosition(pos: seq<real>, shift: real) returns (p: seq<real>)
    requires |pos| > 0
    ensures p == ShiftPos(pos, shift)
  {
    p := pos;
    p := p[0 := p[0] + shift];
    var d := 1;
    while d < |p|
      invariant 1 <= d <= |p| == |pos|
      invariant forall e :: 0 <= e < d ==> p[e] == ShiftCoord(pos[e], e, shift)
      invariant forall e :: d <= e < |p| ==> p[e] == pos[e]
    {
      p := p[d := p[d] + shift];
      if p[d] >= 1.0 {
        p := p[d := p[d] - 1.0];
      }
      d := d + 1;
    }
  }

  /** The unshift loop over the components of one position. */
  method UnshiftPosition(pos: seq<real>, shift: real) returns (p: seq<real>)
    requires |pos| > 0
    ensures p == UnshiftPos(pos, shift)
  {
    p := pos;
    p := p[0 := p[0] - shift];
    var d := 1;
    while d < |p|
      invariant 1 <= d <= |p| == |pos|
      invariant forall e :: 0 <= e < d ==> p[e] == UnshiftCoord(pos[e], e, shift)
      invariant forall e :: d <= e < |p| ==> p[e] == pos[e]
    {
      p := p[d := p[d] - shift];
      if p[d] < 0.0 {
        p := p[d := p[d] + 1.0];
      }
      d := d + 1;
    }
  }

  /** The shift loop over the first numPart particles. */
  method ShiftParticles(parts: array<Particle>, numPart: nat, shift: real)
    requires numPart <= parts.Length
    requires forall i :: 0 <= i < numPart ==> |parts[i].pos| > 0
    modifies parts
    ensures forall i :: 0 <= i < numPart ==>
      parts[i] == old(parts[i]).(pos := ShiftPos(old(parts[i]).pos, shift))
    ensures forall i :: numPart <= i < parts.Length ==> parts[i] == old(parts[i])
    ensures parts[..numPart] == ShiftedAll(old(parts[..numPart]), shift)
  {
    var i := 0;
    while i < numPart
      invariant 0 <= i <= numPart
      invariant forall j :: 0 <= j < i ==>
        parts[j] == old(parts[j]).(pos := ShiftPos(old(parts[j]).pos, shift))
      invariant forall j :: i <= j < parts.Length ==> parts[j] == old(parts[j])
    {
      var p := ShiftPosition(parts[i].pos, shift);
      parts[i] := parts[i].(pos := p);
      i := i + 1;
    }
  }

  /** The unshift loop over the first numPart particles. */
  method UnshiftParticles(parts: array<Particle>, numPart: nat, shift: real)
    requires numPart <= parts.Length
    requires forall i :: 0 <= i < numPart ==> |parts[i].pos| > 0
    modifies parts
    ensures forall i :: 0 <= i < numPart ==>
      parts[i] == old(parts[i]).(pos := UnshiftPos(old(parts[i]).pos, shift))
    ensures forall i :: numPart <= i < parts.Length ==> parts[i] == old(parts[i])
    ensures parts[..numPart] == UnshiftedAll(old(parts[..numPart]), shift)
  {
    var i := 0;
    while i < numPart
      invariant 0 <= i <= numPart
      invariant forall j :: 0 <= j < i ==>
        parts[j] == old(parts[j]).(pos := UnshiftPos(old(parts[j]).pos, shift))
      invariant forall j :: i <= j < parts.Length ==> parts[j] == old(parts[j])
    {
      var p := UnshiftPosition(parts[i].pos, shift);
      parts[i] := parts[i].(pos := p);
      i := i + 1;
    }
  }

  //------------------------------------------------------------------
  // Redshift-space displacement along a coordinate axis
  //------------------------------------------------------------------

  /** The periodic correction: +1 when below 0, then -1 when at or above 1. */
  function Wrap(y: real): real {
    var z := if y < 0.0 then y + 1.0 else y;
    if z >= 1.0 then z - 1.0 else z
  }

  /** v . r for the unit line of sight along axis dir. */
  function LosVelocity(p: Particle, dir: nat): real
    requires dir < |p.pos| == |p.vel|
  {
    Dot(p.vel, UnitVector(|p.pos|, dir), |p.pos|)
  }

  /** One coordinate moved forward (+=) or back (-=) by delta, then corrected. */
  function Moved(x: real, delta: real, forward: bool): real {
    Wrap(if forward then x + delta else x - delta)
  }

  /** (v.r) r[d] f */
  function Delta(vdotr: real, losComponent: real, f: real): real {
    vdotr * losComponent * f
  }

  /** Every coordinate d moved by vdotr * los[d] * f. */
  function MoveAlong(pos: seq<real>, vdotr: real, los: seq<real>, f: real, forward: bool): (r: seq<real>)
    requires |los| == |pos|
    ensures |r| == |pos|
  {
    seq(|pos|, d requires 0 <= d < |pos| => Moved(pos[d], Delta(vdotr, los[d], f), forward))
  }

  /** pos[idim] += (v.r) r[idim] f, then the periodic correction, for every axis. */
  function Displaced(p: Particle, dir: nat, f: real): (r: seq<real>)
    requires dir < |p.pos| == |p.vel|
    ensures |r| == |p.pos|
  {
    MoveAlong(p.pos, LosVelocity(p, dir), UnitVector(|p.pos|, dir), f, true)
  }

  /** pos[idim] -= (v.r) r[idim] f, then the periodic correction, for every axis. */
  function Undisplaced(p: Particle, dir: nat, f: real): (r: seq<real>)
    requires dir < |p.pos| == |p.vel|
    ensures |r| == |p.pos|
  {
    MoveAlong(p.pos, LosVelocity(p, dir), UnitVector(|p.pos|, dir), f, false)
  }

  /** The displacement along dir is shorter than the box: |v[dir] f| < 1. */
  predicate ShortMove(p: Particle, dir: nat, f: real)
    requires dir < |p.vel|
  {
    -1.0 < AxisDisplacement(p, dir, f) < 1.0
  }

  /** v[dir] f: how far the particle moves along the line of sight. */
  function AxisDisplacement(p: Particle, dir: nat, f: real): real
    requires dir < |p.vel|
  {
    p.vel[dir] * f
  }

  lemma LosVelocityIsComponent(p: Particle, dir: nat)
    requires dir < |p.pos| == |p.vel|
    ensures LosVelocity(p, dir) == p.vel[dir]
  {
    DotUnit(p.vel, dir, |p.vel|);
  }

  /** The step (v.r) r[d] f is v[dir] f along the line of sight and 0 across it. */
  lemma AxisStep(p: Particle, dir: nat, f: real, d: nat)
    requires dir < |p.pos| == |p.vel| && d < |p.pos|
    ensures Delta(LosVelocity(p, dir), UnitVector(|p.pos|, dir)[d], f) == if d == dir then AxisDisplacement(p, dir, f) else 0.0
  {
    LosVelocityIsComponent(p, dir);
    var v := LosVelocity(p, dir);
    if d == dir {
      assert v * 1.0 * f == v * f;
    } else {
      assert v * 0.0 * f == 0.0;
    }
  }

  /** A coordinate in [0,1) moved by less than one period and back is unchanged. */
  lemma WrapRoundTrip(x: real, delta: real)
    requires 0.0 <= x < 1.0 && -1.0 < delta < 1.0
    ensures Wrap(Wrap(x + delta) - delta) == x
    ensures 0.0 <= Wrap(x + delta) < 1.0
  {
  }

  /**
   * Only coordinate dir moves, by v[dir] f wrapped once; when |v[dir] f| < 1 it
   * stays in [0,1).
   */
  lemma DisplacedOnlyAlongAxis(p: Particle, dir: nat, f: real)
    requires dir < |p.pos| == |p.vel| && InBox(p.pos)
    ensures forall d :: 0 <= d < |p.pos| && d != dir ==> Displaced(p, dir, f)[d] == p.pos[d]
    ensures Displaced(p, dir, f)[dir] == Wrap(p.pos[dir] + AxisDisplacement(p, dir, f))
    ensures ShortMove(p, dir, f) ==> InBox(Displaced(p, dir, f))
  {
    forall d | 0 <= d < |p.pos|
      ensures Displaced(p, dir, f)[d] == if d == dir then Wrap(p.pos[dir] + AxisDisplacement(p, dir, f)) else p.pos[d]
    {
      AxisStep(p, dir, f, d);
    }
    if ShortMove(p, dir, f) {
      WrapRoundTrip(p.pos[dir], AxisDisplacement(p, dir, f));
    }
  }

  /**
   * The undo uses the same velocity (velocities are not changed), so for a particle
   * in the box and a displacement shorter than the box it restores the position.
   */
  lemma DisplaceRoundTrip(p: Particle, dir: nat, f: real)
    requires dir < |p.pos| == |p.vel| && InBox(p.pos)
    requires ShortMove(p, dir, f)
    ensures Undisplaced(p.(pos := Displaced(p, dir, f)), dir, f) == p.pos
  {
    var q := p.(pos := Displaced(p, dir, f));
    forall d | 0 <= d < |p.pos|
      ensures Undisplaced(q, dir, f)[d] == p.pos[d]
    {
      AxisStep(p, dir, f, d);
      AxisStep(q, dir, f, d);
      if d == dir {
        WrapRoundTrip(p.pos[d], AxisDisplacement(p, dir, f));
      }
    }
  }

  /** The displacement of one particle: vdotr, then the loop over the axes. */
  method DisplaceParticle(p: Particle, dir: nat, f: real, forward: bool) returns (pos: seq<real>)
    requires dir < |p.pos| == |p.vel|
    ensures pos == if forward then Displaced(p, dir, f) else Undisplaced(p, dir, f)
  {
    var los := UnitVector(|p.pos|, dir);
    var vdotr := DotProduct(p.vel, los);
    pos := p.pos;
    var d := 0;
    while d < |pos|
      invariant 0 <= d <= |pos| == |p.pos|
      invariant forall e :: 0 <= e < d ==> pos[e] == MoveAlong(p.pos, vdotr, los, f, forward)[e]
      invariant forall e :: d <= e < |pos| ==> pos[e] == p.pos[e]
    {
      var y := if forward then pos[d] + vdotr * los[d] * f else pos[d] - vdotr * los[d] * f;
      if y < 0.0 {
        y := y + 1.0;
      }
      if y >= 1.0 {
        y := y - 1.0;
      }
      assert y == Moved(p.pos[d], Delta(vdotr, los[d], f), forward);
      pos := pos[d := y];
      d := d + 1;
    }
    assert vdotr == LosVelocity(p, dir);
  }

  /** The particle after the displacement (forward) or its undo (not forward). */
  function MovedParticle(p: Particle, dir: nat, f: real, forward: bool): Particle
    requires dir < |p.pos| == |p.vel|
  {
    p.(pos := if forward then Displaced(p, dir, f) else Undisplaced(p, dir, f))
  }

  /** Every particle can be displaced along axis dir. */
  predicate AxisFits(ps: seq<Particle>, dir: nat) {
    forall i :: 0 <= i < |ps| ==> dir < |ps[i].pos| == |ps[i].vel|
  }

  /** Every particle displaced (forward) or restored (not forward) along axis dir. */
  function MovedAll(ps: seq<Particle>, dir: nat, f: real, forward: bool): (r: seq<Particle>)
    requires AxisFits(ps, dir)
    ensures |r| == |ps|
    ensures forall i :: 0 <= i < |ps| ==> |r[i].pos| == |ps[i].pos| && r[i].vel == ps[i].vel
  {
    seq(|ps|, i requires 0 <= i < |ps| => MovedParticle(ps[i], dir, f, forward))
  }

  /** A particle in the box displaced by less than the box and moved back is unchanged. */
  lemma MovedAllRoundTrip(ps: seq<Particle>, dir: nat, f: real)
    requires AxisFits(ps, dir)
    requires forall i :: 0 <= i < |ps| ==> InBox(ps[i].pos) && ShortMove(ps[i], dir, f)
    ensures MovedAll(MovedAll(ps, dir, f, true), dir, f, false) == ps
  {
    forall i | 0 <= i < |ps|
      ensures MovedAll(MovedAll(ps, dir, f, true), dir, f, false)[i] == ps[i]
    {
      assert ShortMove(ps[i], dir, f);
      DisplaceRoundTrip(ps[i], dir, f);
    }
  }

  /** Displaces (forward) or restores (not forward) every particle along axis dir. */
  method DisplaceParticles(parts: array<Particle>, dir: nat, f: real, forward: bool)
    requires AxisFits(parts[..], dir)
    modifies parts
    ensures parts[..] == MovedAll(old(parts[..]), dir, f, forward)
  {
    var i := 0;
    while i < parts.Length
      invariant 0 <= i <= parts.Length
      invariant forall j :: 0 <= j < i ==> parts[j] == MovedParticle(old(parts[j]), dir, f, forward)
      invariant forall j :: i <= j < parts.Length ==> parts[j] == old(parts[j])
    {
      var pos := DisplaceParticle(parts[i], dir, f, forward);
      parts[i] := parts[i].(pos := pos);
      i := i + 1;
    }
  }
}
