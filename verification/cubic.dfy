/** The cubic generator with averaged interior velocities
    (libs/trajectory_generation_cubic_avg_vel.py): per axis, one Hermite
    cubic per segment, zero velocity at both ends, and each interior
    waypoint's velocity the mean of its two neighbouring secant slopes. */
module CubicTrajectory {
  import opened Results
  import opened Geometry
  import opened Seqs
  import opened Sampling

  /** Frequency the strokes sample at. */
  const StrokeFrequency: real := 50.0

  /** p(s) = a + b s + c s^2 + d s^3, with s the time since segment start. */
  datatype Cubic = Cubic(a: real, b: real, c: real, d: real)

  function PosAt(q: Cubic, s: real): real
  {
    q.a + q.b * s + q.c * s * s + q.d * s * s * s
  }

  function VelAt(q: Cubic, s: real): real
  {
    q.b + 2.0 * q.c * s + 3.0 * q.d * s * s
  }

  function AccAt(q: Cubic, s: real): real
  {
    2.0 * q.c + 6.0 * q.d * s
  }

  /** The velocity and acceleration formulas are the first and second
      derivatives of the position cubic: the exact Taylor expansion of p
      around any s uses them as its first two coefficients. */
  lemma CubicTaylor(q: Cubic, s: real, e: real)
    ensures PosAt(q, s + e) == PosAt(q, s) + VelAt(q, s) * e + AccAt(q, s) * e * e / 2.0 + q.d * e * e * e
    ensures VelAt(q, s + e) == VelAt(q, s) + AccAt(q, s) * e + 3.0 * q.d * e * e
    ensures AccAt(q, s + e) == AccAt(q, s) + 6.0 * q.d * e
  {
    PosTaylor(q, s, e);
    VelTaylor(q, s, e);
  }

  lemma PosTaylor(q: Cubic, s: real, e: real)
    ensures PosAt(q, s + e) == PosAt(q, s) + VelAt(q, s) * e + AccAt(q, s) * e * e / 2.0 + q.d * e * e * e
  {
    assert q.c * (s + e) * (s + e) == q.c * s * s + 2.0 * q.c * s * e + q.c * e * e;
    assert q.d * (s + e) * (s + e) * (s + e) ==
      q.d * s * s * s + 3.0 * q.d * s * s * e + 3.0 * q.d * s * e * e + q.d * e * e * e;
  }

  lemma VelTaylor(q: Cubic, s: real, e: real)
    ensures VelAt(q, s + e) == VelAt(q, s) + AccAt(q, s) * e + 3.0 * q.d * e * e
  {
    assert 3.0 * q.d * (s + e) * (s + e) == 3.0 * q.d * s * s + 6.0 * q.d * s * e + 3.0 * q.d * e * e;
  }

  /** The closed-form coefficients of one segment of length h from position
      p0 with velocity v0 to position p1 with velocity v1. */
  function Hermite(p0: real, p1: real, v0: real, v1: real, h: real): (q: Cubic)
    requires h != 0.0
    ensures PosAt(q, 0.0) == p0 && VelAt(q, 0.0) == v0
    ensures PosAt(q, h) == p1 && VelAt(q, h) == v1
  {
    var c := (3.0 * (p1 - p0) / h - 2.0 * v0 - v1) / h;
    var d := (2.0 * (p0 - p1) / h + v0 + v1) / (h * h);
    assert c * h * h == 3.0 * (p1 - p0) - 2.0 * v0 * h - v1 * h by {
      assert c * h == 3.0 * (p1 - p0) / h - 2.0 * v0 - v1;
      assert (3.0 * (p1 - p0) / h) * h == 3.0 * (p1 - p0);
    }
    assert d * h * h * h == 2.0 * (p0 - p1) + v0 * h + v1 * h by {
      assert d * (h * h) == 2.0 * (p0 - p1) / h + v0 + v1;
      assert (2.0 * (p0 - p1) / h) * h == 2.0 * (p0 - p1);
    }
    assert 2.0 * c * h * h == 6.0 * (p1 - p0) - 4.0 * v0 * h - 2.0 * v1 * h;
    assert 3.0 * d * h * h * h == 6.0 * (p0 - p1) + 3.0 * v0 * h + 3.0 * v1 * h;
    Cubic(p0, v0, c, d)
  }

  /** Average velocity over segment i. */
  function Secant(p: seq<real>, t: seq<real>, i: nat): real
    requires i + 1 < |p| == |t| && Rises(t, i)
  {
    (p[i + 1] - p[i]) / (t[i + 1] - t[i])
  }

  /** Velocities at the waypoints: zero at both ends, and at an interior
      waypoint the mean of the incoming and outgoing secant slopes. */
  function WaypointVelocities(p: seq<real>, t: seq<real>): (v: seq<real>)
    requires 2 <= |p| == |t| && StrictlyIncreasing(t)
    ensures |v| == |p| && v[0] == 0.0 && Last(v) == 0.0
    ensures forall i {:trigger v[i]} :: 0 < i < |p| - 1 ==>
      (Secant(p, t, i - 1) <= v[i] <= Secant(p, t, i)) || (Secant(p, t, i) <= v[i] <= Secant(p, t, i - 1))
    ensures forall i {:trigger v[i]} :: 0 < i < |p| - 1 ==> v[i] - Secant(p, t, i - 1) == Secant(p, t, i) - v[i]
  {
    seq(|p|, i requires 0 <= i < |p| =>
      if i == 0 || i == |p| - 1 then 0.0 else (Secant(p, t, i - 1) + Secant(p, t, i)) / 2.0)
  }

  /** Waypoints sampled from a motion at constant speed get exactly that
      speed at every interior waypoint. */
  lemma UniformMotionVelocities(p: seq<real>, t: seq<real>, speed: real)
    requires 2 <= |p| == |t| && StrictlyIncreasing(t)
    requires forall i :: 0 <= i < |p| ==> p[i] == p[0] + speed * (t[i] - t[0])
    ensures forall i :: 0 < i < |p| - 1 ==> WaypointVelocities(p, t)[i] == speed
  {
    forall i | 0 <= i < |p| - 1
      ensures Secant(p, t, i) == speed
    {
      var dt := t[i + 1] - t[i];
      assert Rises(t, i);
      assert p[i + 1] - p[i] == speed * dt;
      DivCancel(speed, dt);
    }
  }

  lemma DivCancel(x: real, d: real)
    requires d != 0.0
    ensures (x * d) / d == x
  {
  }

  /** The cubic of segment i (`a, b, c, d` of the source). */
  function Segment(p: seq<real>, t: seq<real>, i: nat): (q: Cubic)
    requires 2 <= |p| == |t| && StrictlyIncreasing(t) && i + 1 < |p|
    ensures q.a == p[i] && q.b == WaypointVelocities(p, t)[i]
  {
    var v := WaypointVelocities(p, t);
    assert Rises(t, i);
    Hermite(p[i], p[i + 1], v[i], v[i + 1], t[i + 1] - t[i])
  }

  /** Evaluates one axis at time tm on the first segment containing tm;
      outside every segment the zero-initialised output is kept. */
  function EvalAxis(p: seq<real>, t: seq<real>, tm: real): Sample
    requires 2 <= |p| == |t| && StrictlyIncreasing(t)
  {
    match FindSegment(t, tm)
    case None => Untouched
    case Some(i) =>
      var q := Segment(p, t, i);
      var s := tm - t[i];
      Sample(PosAt(q, s), VelAt(q, s), AccAt(q, s))
  }

  /** The sampled path passes through every waypoint at its own time, with
      that waypoint's assigned velocity. */
  lemma {:induction false} EvalAtWaypoint(p: seq<real>, t: seq<real>, j: nat)
    requires 2 <= |p| == |t| && StrictlyIncreasing(t) && j < |t|
    ensures EvalAxis(p, t, t[j]).pos == p[j]
    ensures EvalAxis(p, t, t[j]).vel == WaypointVelocities(p, t)[j]
  {
    FindSegmentAtWaypoint(t, j);
  }

  /** Position and velocity are continuous at every interior waypoint: the
      sample taken there (on the segment that ends at it) agrees with the
      start of the following segment's cubic. */
  lemma {:induction false} ContinuousAtWaypoint(p: seq<real>, t: seq<real>, j: nat)
    requires 2 <= |p| == |t| && StrictlyIncreasing(t) && 0 < j < |t| - 1
    ensures EvalAxis(p, t, t[j]).pos == PosAt(Segment(p, t, j), 0.0)
    ensures EvalAxis(p, t, t[j]).vel == VelAt(Segment(p, t, j), 0.0)
  {
    EvalAtWaypoint(p, t, j);
  }

  /** Every grid point evaluated on each axis's spline. */
  function Evaluate(poses: seq<Vec3>, times: seq<real>, grid: seq<real>): (tr: Trajectory)
    requires ValidWaypoints(poses, times)
    ensures tr.WellFormed() && tr.times == grid
    ensures forall i, k: Axis :: 0 <= i < |grid| ==>
      Coord(tr.poses[i], k) == EvalAxis(Component(poses, k), times, grid[i]).pos &&
      Coord(tr.vels[i], k) == EvalAxis(Component(poses, k), times, grid[i]).vel &&
      Coord(tr.accs[i], k) == EvalAxis(Component(poses, k), times, grid[i]).acc
  {
    Assemble(grid, (k, tm) => EvalAxis(Component(poses, k), times, tm))
  }

  /** On one axis, a grid point at the first or last waypoint's time is at
      that waypoint's coordinate, at rest. */
  lemma EvaluateAxisAtEnd(poses: seq<Vec3>, times: seq<real>, grid: seq<real>, n: nat, j: nat, k: Axis)
    requires ValidWaypoints(poses, times) && n < |grid| && (j == 0 || j == |times| - 1) && grid[n] == times[j]
    ensures var tr := Evaluate(poses, times, grid);
      Coord(tr.poses[n], k) == Coord(poses[j], k) && Coord(tr.vels[n], k) == 0.0
  {
    EvalAtWaypoint(Component(poses, k), times, j);
  }

  /** A grid point at the first or last waypoint's time is at that
      waypoint, at rest. */
  lemma EvaluateAtEnd(poses: seq<Vec3>, times: seq<real>, grid: seq<real>, n: nat, j: nat)
    requires ValidWaypoints(poses, times) && n < |grid| && (j == 0 || j == |times| - 1) && grid[n] == times[j]
    ensures var tr := Evaluate(poses, times, grid);
      tr.poses[n] == poses[j] && tr.vels[n] == Zero
  {
    var tr := Evaluate(poses, times, grid);
    EvaluateAxisAtEnd(poses, times, grid, n, j, X);
    EvaluateAxisAtEnd(poses, times, grid, n, j, Y);
    EvaluateAxisAtEnd(poses, times, grid, n, j, Z);
    SameCoords(tr.poses[n], poses[j]);
    SameCoords(tr.vels[n], Zero);
  }

  /** A grid that starts at the first waypoint's time starts the samples at
      that waypoint, at rest. */
  lemma EvaluateStart(poses: seq<Vec3>, times: seq<real>, grid: seq<real>)
    requires ValidWaypoints(poses, times)
    requires |grid| >= 1 ==> grid[0] == times[0]
    ensures var tr := Evaluate(poses, times, grid);
      |grid| >= 1 ==> tr.poses[0] == poses[0] && tr.vels[0] == Zero
  {
    if |grid| >= 1 {
      EvaluateAtEnd(poses, times, grid, 0, 0);
    }
  }

  /** A grid of two or more points that ends at the last waypoint's time
      ends the samples at that waypoint, at rest. */
  lemma EvaluateEnd(poses: seq<Vec3>, times: seq<real>, grid: seq<real>)
    requires ValidWaypoints(poses, times)
    requires |grid| >= 2 ==> Last(grid) == Last(times)
    ensures var tr := Evaluate(poses, times, grid);
      |grid| >= 2 ==> Last(tr.poses) == Last(poses) && Last(tr.vels) == Zero
  {
    if |grid| >= 2 {
      var tr := Evaluate(poses, times, grid);
      EvaluateAtEnd(poses, times, grid, |grid| - 1, |times| - 1);
      assert Last(tr.poses) == tr.poses[|grid| - 1] && Last(tr.vels) == tr.vels[|grid| - 1];
    }
  }

  /** generate_trajectory_3d: validation, the uniform grid, and per-axis
      evaluation of every grid point. */
  function Generate(poses: seq<Vec3>, times: seq<real>, freq: real): (r: Result<Trajectory, GenError>)
    ensures CheckInputs(poses, times).Some? ==> r == Err(CheckInputs(poses, times).value)
    ensures r.Ok? <==> ValidWaypoints(poses, times) && SampleCount(times[0], Last(times), freq) >= 0
    ensures r.Err? && ValidWaypoints(poses, times) ==> r.error == NegativeSampleCount
    ensures r.Ok? ==> r.value.WellFormed()
    ensures r.Ok? ==> r.value.times == Linspace(times[0], Last(times), SampleCount(times[0], Last(times), freq))
    ensures r.Ok? ==> forall i, k: Axis :: 0 <= i < |r.value.times| ==>
      Coord(r.value.poses[i], k) == EvalAxis(Component(poses, k), times, r.value.times[i]).pos &&
      Coord(r.value.vels[i], k) == EvalAxis(Component(poses, k), times, r.value.times[i]).vel &&
      Coord(r.value.accs[i], k) == EvalAxis(Component(poses, k), times, r.value.times[i]).acc
    ensures r.Ok? && |r.value.times| >= 1 ==> r.value.poses[0] == poses[0] && r.value.vels[0] == Zero
    ensures r.Ok? && |r.value.times| >= 2 ==> Last(r.value.poses) == Last(poses) && Last(r.value.vels) == Zero
  {
    match CheckInputs(poses, times)
    case Some(e) => Err(e)
    case None =>
      match Grid(times, freq)
      case Err(e) => Err(e)
      case Ok(grid) =>
        EvaluateStart(poses, times, grid);
        EvaluateEnd(poses, times, grid);
        Ok(Evaluate(poses, times, grid))
  }

  /** Axes are independent: coordinate k of every output sample depends only
      on coordinate k of the waypoints (and on the times). */
  lemma AxesIndependent(poses1: seq<Vec3>, poses2: seq<Vec3>, times: seq<real>, freq: real, k: Axis)
    requires Component(poses1, k) == Component(poses2, k)
    requires Generate(poses1, times, freq).Ok?
    ensures Generate(poses2, times, freq).Ok?
    ensures var a := Generate(poses1, times, freq).value;
            var b := Generate(poses2, times, freq).value;
            a.times == b.times &&
            forall i :: 0 <= i < |a.times| ==>
              Coord(a.poses[i], k) == Coord(b.poses[i], k) &&
              Coord(a.vels[i], k) == Coord(b.vels[i], k) &&
              Coord(a.accs[i], k) == Coord(b.accs[i], k)
  {
    assert |poses1| == |Component(poses1, k)| == |poses2|;
  }
}
