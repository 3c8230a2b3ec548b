/** The parts both trajectory generators share: input validation, the
    uniform sample grid, segment lookup and the sampled-trajectory record. */
module Sampling {
  import opened Results
  import opened Geometry
  import opened Seqs

  /** The ValueErrors a generator raises, plus the blend degeneracy of the
      parabolic generator (see ParabolicTrajectory). */
  datatype GenError =
    | LengthMismatch        // positions and times differ in length
    | TooFewWaypoints       // fewer than two waypoints
    | NotIncreasing         // timestamps not strictly increasing
    | NegativeSampleCount   // np.linspace refuses a negative count
    | DegenerateBlend       // parabolic blend time 0 or equal to a segment length

  /** The inputs every generator accepts. */
  predicate ValidWaypoints(poses: seq<Vec3>, times: seq<real>)
  {
    |poses| == |times| && |times| >= 2 && StrictlyIncreasing(times)
  }

  /** The three input checks, in the order the generators make them; the
      first failing one is reported. */
  function CheckInputs(poses: seq<Vec3>, times: seq<real>): (r: Option<GenError>)
    ensures r.None? <==> ValidWaypoints(poses, times)
    ensures r == Some(LengthMismatch) <==> |poses| != |times|
    ensures r == Some(TooFewWaypoints) <==> |poses| == |times| && |times| < 2
    ensures r == Some(NotIncreasing) <==>
      |poses| == |times| && |times| >= 2 && !StrictlyIncreasing(times)
  {
    if |poses| != |times| then Some(LengthMismatch)
    else if |poses| < 2 then Some(TooFewWaypoints)
    else if !StrictlyIncreasing(times) then Some(NotIncreasing)
    else None
  }

  /** Python's `int(x)` on a float: truncation toward zero. */
  function Trunc(x: real): (r: int)
    ensures 0.0 <= x ==> 0 <= r && r as real <= x < r as real + 1.0
    ensures x < 0.0 ==> r <= 0 && r as real - 1.0 < x <= r as real
  {
    if x >= 0.0 then x.Floor else -((-x).Floor)
  }

  /** `int(total_duration * frequency) + 1`: the number of grid points. */
  function SampleCount(t0: real, tN: real, freq: real): int
  {
    Trunc((tN - t0) * freq) + 1
  }

  /** Positive durations at a positive frequency always give at least one
      sample, and at least two as soon as one sampling period fits. */
  lemma SampleCountPositive(t0: real, tN: real, freq: real)
    requires t0 < tN && 0.0 < freq
    ensures SampleCount(t0, tN, freq) >= 1
    ensures (tN - t0) * freq >= 1.0 <==> SampleCount(t0, tN, freq) >= 2
  {
    PositiveProduct(tN - t0, freq);
  }

  lemma PositiveProduct(a: real, b: real)
    requires 0.0 < a && 0.0 < b
    ensures 0.0 < a * b
  {
  }

  /** Spacing between consecutive points of an n-point grid from a to b. */
  function Step(a: real, b: real, n: nat): real
  {
    if n > 1 then (b - a) / ((n - 1) as real) else 0.0
  }

  /** The k-th of n evenly spaced reals from a to b lies between them. */
  lemma GridPointBetween(a: real, b: real, n: nat, k: nat)
    requires a <= b && k < n
    ensures a <= a + (k as real) * Step(a, b, n) <= b
  {
    if n > 1 {
      var m := (n - 1) as real;
      var st := (b - a) / m;
      assert st * m == b - a;
      assert 0.0 <= st;
      assert (k as real) * st <= m * st;
    }
  }

  /** numpy's `np.linspace(a, b, n)` for n >= 0: n evenly spaced points with
      both end points included, the last one set to b exactly, and the single
      point a when n == 1. */
  function Linspace(a: real, b: real, n: nat): (r: seq<real>)
    ensures |r| == n
    ensures n >= 1 ==> r[0] == a
    ensures n >= 2 ==> r[n - 1] == b
    ensures forall k :: 0 <= k < n ==> r[k] == a + (k as real) * Step(a, b, n)
    ensures a <= b ==> forall k :: 0 <= k < n ==> a <= r[k] <= b
  {
    StepSpan(a, b, n);
    GridBetween(a, b, n);
    seq(n, k requires 0 <= k < n => if n > 1 && k == n - 1 then b else GridPoint(a, b, n, k))
  }

  /** Point k of the n-point grid from a to b, before the last point is
      set to b. */
  function GridPoint(a: real, b: real, n: nat, k: nat): real
  {
    a + (k as real) * Step(a, b, n)
  }

  /** n - 1 steps span the whole interval. */
  lemma StepSpan(a: real, b: real, n: nat)
    ensures n >= 2 ==> a + ((n - 1) as real) * Step(a, b, n) == b
  {
    if n >= 2 {
      var m := (n - 1) as real;
      assert m * ((b - a) / m) == b - a;
    }
  }

  /** Every point of the grid lies between its ends. */
  lemma GridBetween(a: real, b: real, n: nat)
    ensures a <= b ==> forall k :: 0 <= k < n ==> a <= GridPoint(a, b, n, k) <= b
  {
    if a <= b {
      forall k | 0 <= k < n
        ensures a <= GridPoint(a, b, n, k) <= b
      {
        GridPointBetween(a, b, n, k);
      }
    }
  }

  /** Sample times of a generator call: an error for a negative count,
      otherwise the endpoint-inclusive uniform grid over the waypoint times. */
  function Grid(times: seq<real>, freq: real): (r: Result<seq<real>, GenError>)
    requires |times| >= 1
    ensures r.Err? <==> SampleCount(times[0], Last(times), freq) < 0
    ensures r.Err? ==> r.error == NegativeSampleCount
    ensures r.Ok? ==> |r.value| == SampleCount(times[0], Last(times), freq)
    ensures r.Ok? && |r.value| >= 1 ==> r.value[0] == times[0]
    ensures r.Ok? && |r.value| >= 2 ==> Last(r.value) == Last(times)
  {
    var n := SampleCount(times[0], Last(times), freq);
    if n < 0 then Err(NegativeSampleCount) else Ok(Linspace(times[0], Last(times), n))
  }

  /** Duration of segment i (`h[i]` / `t_final - t_start` of the source). */
  function SegmentLength(times: seq<real>, i: nat): real
    requires i + 1 < |times|
  {
    times[i + 1] - times[i]
  }

  /** Segment j (from waypoint j to waypoint j + 1) contains time t. */
  predicate InSegment(times: seq<real>, j: nat, t: real)
    requires j + 1 < |times|
  {
    times[j] <= t <= times[j + 1]
  }

  /** The `for i in range(N): if time[i] <= t <= time[i + 1]: ... break`
      search, started at segment i. */
  function FindSegmentFrom(times: seq<real>, t: real, i: nat): (r: Option<nat>)
    requires i <= |times|
    ensures r.Some? ==> i <= r.value && r.value + 1 < |times| && InSegment(times, r.value, t)
    ensures r.Some? ==> forall j :: i <= j < r.value ==> !InSegment(times, j, t)
    ensures r.None? ==> forall j :: i <= j && j + 1 < |times| ==> !InSegment(times, j, t)
    decreases |times| - i
  {
    if i + 1 >= |times| then None
    else if InSegment(times, i, t) then Some(i)
    else FindSegmentFrom(times, t, i + 1)
  }

  /** The first segment whose closed interval contains t, if any. */
  function FindSegment(times: seq<real>, t: real): (r: Option<nat>)
    ensures r.Some? ==> r.value + 1 < |times| && InSegment(times, r.value, t)
    ensures r.Some? ==> forall j :: 0 <= j < r.value ==> !InSegment(times, j, t)
    ensures r.None? ==> forall j :: 0 <= j && j + 1 < |times| ==> !InSegment(times, j, t)
  {
    FindSegmentFrom(times, t, 0)
  }

  /** Every time between the first and last waypoint lies in some segment,
      so the search succeeds on every grid point. */
  lemma FindSegmentCovers(times: seq<real>, t: real)
    requires |times| >= 2 && times[0] <= t <= Last(times)
    ensures FindSegment(times, t).Some?
  {
    var j := 0;
    while times[j + 1] < t
      invariant j + 1 < |times| && times[j] <= t
      decreases |times| - j
    {
      j := j + 1;
    }
    assert InSegment(times, j, t);
  }

  /** At the time of waypoint j >= 1 the search stops on the segment that
      ends there; at the first waypoint it stops on segment 0. */
  lemma FindSegmentAtWaypoint(times: seq<real>, j: nat)
    requires StrictlyIncreasing(times) && 2 <= |times| && j < |times|
    ensures j == 0 ==> FindSegment(times, times[j]) == Some(0)
    ensures j > 0 ==> FindSegment(times, times[j]) == Some(j - 1)
  {
    var t := times[j];
    if j == 0 {
      assert Rises(times, 0);
      assert InSegment(times, 0, t);
    } else {
      assert Rises(times, j - 1);
      assert InSegment(times, j - 1, t);
      var r := FindSegment(times, t);
      assert r.Some?;
      if r.value < j - 1 {
        IncreasingPairwise(times, r.value + 1, j);
        assert false;
      }
    }
  }

  /** A sample of one axis: position, velocity and acceleration. */
  datatype Sample = Sample(pos: real, vel: real, acc: real)

  /** The value left in numpy's zero-initialised arrays when no segment
      matches a time. */
  const Untouched: Sample := Sample(0.0, 0.0, 0.0)

  /** Sampled output of a generator: times, positions, velocities and
      accelerations, one entry per grid point. */
  datatype Trajectory = Trajectory(times: seq<real>, poses: seq<Vec3>, vels: seq<Vec3>, accs: seq<Vec3>) {
    /** The four arrays have matching lengths. */
    predicate WellFormed()
    {
      |poses| == |times| && |vels| == |times| && |accs| == |times|
    }
  }

  /** Coordinate k of every waypoint (`pos_array[:, dim]`). */
  function Component(poses: seq<Vec3>, k: Axis): (r: seq<real>)
    ensures |r| == |poses|
    ensures forall i :: 0 <= i < |poses| ==> r[i] == Coord(poses[i], k)
  {
    seq(|poses|, i requires 0 <= i < |poses| => Coord(poses[i], k))
  }

  /** Fills the output arrays from a per-axis evaluator: coordinate k of
      every output sample comes from evaluating axis k alone. */
  function Assemble(grid: seq<real>, eval: (Axis, real) -> Sample): (tr: Trajectory)
    ensures tr.WellFormed() && tr.times == grid
    ensures forall i, k: Axis :: 0 <= i < |grid| ==> Coord(tr.poses[i], k) == eval(k, grid[i]).pos
    ensures forall i, k: Axis :: 0 <= i < |grid| ==> Coord(tr.vels[i], k) == eval(k, grid[i]).vel
    ensures forall i, k: Axis :: 0 <= i < |grid| ==> Coord(tr.accs[i], k) == eval(k, grid[i]).acc
  {
    Trajectory(
      grid,
      seq(|grid|, i requires 0 <= i < |grid| => FromAxes(k => eval(k, grid[i]).pos)),
      seq(|grid|, i requires 0 <= i < |grid| => FromAxes(k => eval(k, grid[i]).vel)),
      seq(|grid|, i requires 0 <= i < |grid| => FromAxes(k => eval(k, grid[i]).acc)))
  }
}
