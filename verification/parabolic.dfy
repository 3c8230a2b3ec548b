/** The linear-segment-with-parabolic-blends generator
    (libs/trajectory_generation_parabolic.py): per axis and per segment, a
    constant-acceleration blend of length tb, a constant-velocity cruise and
    a constant-deceleration blend of length tb. */
module ParabolicTrajectory {
  import opened Results
  import opened Geometry
  import opened Seqs
  import opened Sampling

  /** The blend acceleration is (p0 - p1) / (tb^2 - h tb); the source
      divides without checking, so tb == 0 and tb == h are the degenerate
      blend times. */
  predicate BlendDefined(h: real, tb: real)
  {
    tb * tb - h * tb != 0.0
  }

  /** Every segment's blend acceleration is defined. */
  predicate BlendsDefined(times: seq<real>, tb: real)
  {
    forall i :: 0 <= i < |times| - 1 ==> BlendDefined(SegmentLength(times, i), tb)
  }

  /** The blend time is positive and shorter than every segment. */
  predicate BlendShorterThanSegments(times: seq<real>, tb: real)
  {
    0.0 < tb && forall i :: 0 <= i < |times| - 1 ==> tb < SegmentLength(times, i)
  }

  /** Acceleration of the first blend of a segment of length h from p0 to p1. */
  function SegmentAcc(p0: real, p1: real, h: real, tb: real): real
    requires BlendDefined(h, tb)
  {
    (p0 - p1) / (tb * tb - h * tb)
  }

  /** Cruise velocity, reached at the end of the first blend. */
  function CruiseVel(acc: real, tb: real): real
  {
    acc * tb
  }

  /** First blend: starts at p0 at rest, constant acceleration acc. */
  function Blend1(p0: real, acc: real, trel: real): Sample
  {
    Sample(acc / 2.0 * trel * trel + p0, acc * trel, acc)
  }

  /** Cruise: constant velocity acc * tb from where the first blend ends. */
  function Cruise(p0: real, acc: real, tb: real, trel: real): Sample
  {
    var blendEnd := acc / 2.0 * tb * tb + p0;
    Sample(acc * tb * (trel - tb) + blendEnd, CruiseVel(acc, tb), 0.0)
  }

  /** Second blend, measured from the segment end (fromEnd <= 0): reaches p1
      at rest, constant acceleration -acc. */
  function Blend2(p1: real, acc: real, fromEnd: real): Sample
  {
    Sample(-(acc / 2.0) * fromEnd * fromEnd + p1, -acc * fromEnd, -acc)
  }

  /** Three-phase evaluation at trel in [0, h]. The third guard of the
      source always holds once the first two fail. */
  function EvalPhase(p0: real, p1: real, h: real, tb: real, trel: real): Sample
    requires BlendDefined(h, tb) && 0.0 <= trel <= h
  {
    var acc := SegmentAcc(p0, p1, h, tb);
    if 0.0 <= trel < tb then Blend1(p0, acc, trel)
    else if tb <= trel < h - tb then Cruise(p0, acc, tb, trel)
    else
      assert h - tb <= trel <= h;
      Blend2(p1, acc, trel - h)
  }

  /** Each segment starts at its first waypoint and ends at its second, at
      rest at both ends, whenever 0 < tb < h. */
  lemma SegmentEndpoints(p0: real, p1: real, h: real, tb: real)
    requires 0.0 < tb < h
    ensures BlendDefined(h, tb)
    ensures EvalPhase(p0, p1, h, tb, 0.0).pos == p0 && EvalPhase(p0, p1, h, tb, 0.0).vel == 0.0
    ensures EvalPhase(p0, p1, h, tb, h).pos == p1 && EvalPhase(p0, p1, h, tb, h).vel == 0.0
  {
    assert tb * tb - h * tb == tb * (tb - h);
    assert tb * (tb - h) < 0.0;
  }

  /** With the source's acceleration formula and 2 tb <= h, position and
      velocity agree across both blend junctions, t = tb and t = h - tb. */
  lemma BlendJunctionsContinuous(p0: real, p1: real, h: real, tb: real)
    requires 0.0 < tb && 2.0 * tb <= h
    ensures BlendDefined(h, tb)
    ensures var acc := SegmentAcc(p0, p1, h, tb);
      Blend1(p0, acc, tb).pos == Cruise(p0, acc, tb, tb).pos &&
      Blend1(p0, acc, tb).vel == Cruise(p0, acc, tb, tb).vel &&
      Cruise(p0, acc, tb, h - tb).pos == Blend2(p1, acc, -tb).pos &&
      Cruise(p0, acc, tb, h - tb).vel == Blend2(p1, acc, -tb).vel
  {
    assert tb * tb - h * tb == tb * (tb - h);
    assert tb * (tb - h) < 0.0;
    var acc := SegmentAcc(p0, p1, h, tb);
    assert acc * (tb * tb - h * tb) == p0 - p1;
    assert acc * tb * (h - tb - tb) + acc / 2.0 * tb * tb + p0 == -(acc / 2.0) * tb * tb + p1 by {
      assert acc * tb * (h - tb - tb) + acc * tb * tb == -(acc * (tb * tb - h * tb));
    }
  }

  /** The square of a shifted time, expanded. */
  lemma SquareShift(x: real, e: real)
    ensures (x + e) * (x + e) == x * x + 2.0 * x * e + e * e
  {
  }

  /** The first blend is a parabola with second derivative acc. */
  lemma Blend1Taylor(p0: real, acc: real, trel: real, e: real)
    ensures var a := Blend1(p0, acc, trel); var b := Blend1(p0, acc, trel + e);
      a.acc == acc && b.pos == a.pos + a.vel * e + a.acc * e * e / 2.0 && b.vel == a.vel + a.acc * e
  {
    SquareShift(trel, e);
    assert acc / 2.0 * (trel + e) * (trel + e) == acc / 2.0 * ((trel + e) * (trel + e));
    assert acc / 2.0 * trel * trel == acc / 2.0 * (trel * trel);
  }

  /** The second blend is a parabola with second derivative -acc. */
  lemma Blend2Taylor(p1: real, acc: real, trel: real, e: real)
    ensures var a := Blend2(p1, acc, trel); var b := Blend2(p1, acc, trel + e);
      a.acc == -acc && b.pos == a.pos + a.vel * e + a.acc * e * e / 2.0 && b.vel == a.vel + a.acc * e
  {
    SquareShift(trel, e);
    assert -(acc / 2.0) * (trel + e) * (trel + e) == -(acc / 2.0) * ((trel + e) * (trel + e));
    assert -(acc / 2.0) * trel * trel == -(acc / 2.0) * (trel * trel);
  }

  /** Within each phase the acceleration is constant (acc, 0, -acc) and is
      the second derivative of position: the exact Taylor expansion of each
      phase's position and velocity uses the phase's sampled values. */
  lemma PhaseTaylor(p0: real, p1: real, acc: real, tb: real, trel: real, e: real)
    ensures var a := Blend1(p0, acc, trel); var b := Blend1(p0, acc, trel + e);
      a.acc == acc && b.pos == a.pos + a.vel * e + a.acc * e * e / 2.0 && b.vel == a.vel + a.acc * e
    ensures var a := Cruise(p0, acc, tb, trel); var b := Cruise(p0, acc, tb, trel + e);
      a.acc == 0.0 && b.pos == a.pos + a.vel * e && b.vel == a.vel
    ensures var a := Blend2(p1, acc, trel); var b := Blend2(p1, acc, trel + e);
      a.acc == -acc && b.pos == a.pos + a.vel * e + a.acc * e * e / 2.0 && b.vel == a.vel + a.acc * e
  {
    Blend1Taylor(p0, acc, trel, e);
    Blend2Taylor(p1, acc, trel, e);
  }

  /** Evaluates one axis at time tm on the first segment whose closed
      interval contains tm (the source breaks after the first match). */
  function EvalAxis(p: seq<real>, t: seq<real>, tb: real, tm: real): Sample
    requires 2 <= |p| == |t| && StrictlyIncreasing(t) && BlendsDefined(t, tb)
  {
    match FindSegment(t, tm)
    case None => Untouched
    case Some(i) => EvalPhase(p[i], p[i + 1], SegmentLength(t, i), tb, tm - t[i])
  }

  /** With a blend time shorter than every segment, the path passes through
      every waypoint at its own time and is at rest there. */
  lemma {:induction false} EvalAtWaypoint(p: seq<real>, t: seq<real>, tb: real, j: nat)
    requires 2 <= |p| == |t| && StrictlyIncreasing(t) && j < |t|
    requires BlendShorterThanSegments(t, tb)
    ensures BlendsDefined(t, tb)
    ensures EvalAxis(p, t, tb, t[j]).pos == p[j] && EvalAxis(p, t, tb, t[j]).vel == 0.0
  {
    forall i | 0 <= i < |t| - 1
      ensures BlendDefined(SegmentLength(t, i), tb)
    {
      SegmentEndpoints(p[i], p[i + 1], SegmentLength(t, i), tb);
    }
    FindSegmentAtWaypoint(t, j);
    if j == 0 {
      SegmentEndpoints(p[0], p[1], SegmentLength(t, 0), tb);
    } else {
      SegmentEndpoints(p[j - 1], p[j], SegmentLength(t, j - 1), tb);
    }
  }

  /** Every grid point evaluated on each axis's three-phase profile. */
  function Evaluate(poses: seq<Vec3>, times: seq<real>, tb: real, grid: seq<real>): (tr: Trajectory)
    requires ValidWaypoints(poses, times) && BlendsDefined(times, tb)
    ensures tr.WellFormed() && tr.times == grid
    ensures forall i, k: Axis :: 0 <= i < |grid| ==>
      Coord(tr.poses[i], k) == EvalAxis(Component(poses, k), times, tb, grid[i]).pos &&
      Coord(tr.vels[i], k) == EvalAxis(Component(poses, k), times, tb, grid[i]).vel &&
      Coord(tr.accs[i], k) == EvalAxis(Component(poses, k), times, tb, grid[i]).acc
  {
    Assemble(grid, (k, tm) => EvalAxis(Component(poses, k), times, tb, tm))
  }

  /** On one axis, with a blend time shorter than every segment, a grid
      point at a waypoint's time is at that waypoint's coordinate, at
      rest. */
  lemma EvaluateAxisAtWaypoint(poses: seq<Vec3>, times: seq<real>, tb: real, grid: seq<real>, n: nat, j: nat, k: Axis)
    requires ValidWaypoints(poses, times) && BlendShorterThanSegments(times, tb)
    requires n < |grid| && j < |times| && grid[n] == times[j]
    ensures BlendsDefined(times, tb)
    ensures var tr := Evaluate(poses, times, tb, grid);
      Coord(tr.poses[n], k) == Coord(poses[j], k) && Coord(tr.vels[n], k) == 0.0
  {
    EvalAtWaypoint(Component(poses, k), times, tb, j);
  }

  /** With a blend time shorter than every segment, a grid point at a
      waypoint's time is at that waypoint, at rest. */
  lemma EvaluateAtWaypoint(poses: seq<Vec3>, times: seq<real>, tb: real, grid: seq<real>, n: nat, j: nat)
    requires ValidWaypoints(poses, times) && BlendShorterThanSegments(times, tb)
    requires n < |grid| && j < |times| && grid[n] == times[j]
    ensures BlendsDefined(times, tb)
    ensures var tr := Evaluate(poses, times, tb, grid);
      tr.poses[n] == poses[j] && tr.vels[n] == Zero
  {
    EvaluateAxisAtWaypoint(poses, times, tb, grid, n, j, X);
    EvaluateAxisAtWaypoint(poses, times, tb, grid, n, j, Y);
    EvaluateAxisAtWaypoint(poses, times, tb, grid, n, j, Z);
    var tr := Evaluate(poses, times, tb, grid);
    SameCoords(tr.poses[n], poses[j]);
    SameCoords(tr.vels[n], Zero);
  }

  /** With a blend time shorter than every segment, a grid that starts at
      the first waypoint's time starts the samples at that waypoint, at
      rest. */
  lemma EvaluateStart(poses: seq<Vec3>, times: seq<real>, tb: real, grid: seq<real>)
    requires ValidWaypoints(poses, times) && BlendsDefined(times, tb)
    requires |grid| >= 1 ==> grid[0] == times[0]
    ensures var tr := Evaluate(poses, times, tb, grid);
      BlendShorterThanSegments(times, tb) && |grid| >= 1 ==> tr.poses[0] == poses[0] && tr.vels[0] == Zero
  {
    if BlendShorterThanSegments(times, tb) && |grid| >= 1 {
      EvaluateAtWaypoint(poses, times, tb, grid, 0, 0);
    }
  }

  /** With a blend time shorter than every segment, a grid of two or more
      points that ends at the last waypoint's time ends the samples at that
      waypoint, at rest. */
  lemma EvaluateEnd(poses: seq<Vec3>, times: seq<real>, tb: real, grid: seq<real>)
    requires ValidWaypoints(poses, times) && BlendsDefined(times, tb)
    requires |grid| >= 2 ==> Last(grid) == Last(times)
    ensures var tr := Evaluate(poses, times, tb, grid);
      BlendShorterThanSegments(times, tb) && |grid| >= 2 ==> Last(tr.poses) == Last(poses) && Last(tr.vels) == Zero
  {
    if BlendShorterThanSegments(times, tb) && |grid| >= 2 {
      var tr := Evaluate(poses, times, tb, grid);
      EvaluateAtWaypoint(poses, times, tb, grid, |grid| - 1, |times| - 1);
      assert Last(tr.poses) == tr.poses[|grid| - 1] && Last(tr.vels) == tr.vels[|grid| - 1];
    }
  }

  /** generate_trajectory_3d with blend time tb. The source divides by
      tb^2 - h tb unchecked; this model reports DegenerateBlend where that
      divisor is zero. */
  function Generate(poses: seq<Vec3>, times: seq<real>, freq: real, tb: real): (r: Result<Trajectory, GenError>)
    ensures CheckInputs(poses, times).Some? ==> r == Err(CheckInputs(poses, times).value)
    ensures r.Ok? <==>
      ValidWaypoints(poses, times) && SampleCount(times[0], Last(times), freq) >= 0 && BlendsDefined(times, tb)
    ensures r.Err? && ValidWaypoints(poses, times) && SampleCount(times[0], Last(times), freq) < 0 ==>
      r.error == NegativeSampleCount
    ensures r.Err? && ValidWaypoints(poses, times) && SampleCount(times[0], Last(times), freq) >= 0 ==>
      r.error == DegenerateBlend
    ensures r.Ok? ==> r.value.WellFormed()
    ensures r.Ok? ==> r.value.times == Linspace(times[0], Last(times), SampleCount(times[0], Last(times), freq))
    ensures r.Ok? ==> forall i, k: Axis :: 0 <= i < |r.value.times| ==>
      Coord(r.value.poses[i], k) == EvalAxis(Component(poses, k), times, tb, r.value.times[i]).pos &&
      Coord(r.value.vels[i], k) == EvalAxis(Component(poses, k), times, tb, r.value.times[i]).vel &&
      Coord(r.value.accs[i], k) == EvalAxis(Component(poses, k), times, tb, r.value.times[i]).acc
    ensures r.Ok? && BlendShorterThanSegments(times, tb) && |r.value.times| >= 1 ==>
      r.value.poses[0] == poses[0] && r.value.vels[0] == Zero
    ensures r.Ok? && BlendShorterThanSegments(times, tb) && |r.value.times| >= 2 ==>
      Last(r.value.poses) == Last(poses) && Last(r.value.vels) == Zero
  {
    match CheckInputs(poses, times)
    case Some(e) => Err(e)
    case None =>
      match Grid(times, freq)
      case Err(e) => Err(e)
      case Ok(grid) =>
        if !BlendsDefined(times, tb) then Err(DegenerateBlend)
        else
          EvaluateStart(poses, times, tb, grid);
          EvaluateEnd(poses, times, tb, grid);
          Ok(Evaluate(poses, times, tb, grid))
  }
}
