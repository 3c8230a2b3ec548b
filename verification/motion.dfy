/** Motion composition (classes/base_letters.py): strokes sampled by the
    cubic generator, pen lifts between disconnected strokes, letters as
    sequences of moves on a running clock, and strings of letters laid out
    along x with a lift between neighbours. */
module Motion {
  import opened Results
  import opened Geometry
  import opened Seqs
  import opened Sampling
  import CubicTrajectory

  /** The constants the source imports from its `const` module (the
      bounding-box size, also the default letter pitch; the lift height; the
      duration of each vertical leg of a lift) and the generator strokes
      sample with. */
  datatype Config = Config(width: real, liftHeight: real, liftDuration: real, generate: StrokeGenerator)

  /** A 50 Hz trajectory generator: waypoint positions and their times in,
      the sampled trajectory or an input error out. */
  type Generator = (seq<Vec3>, seq<real>) -> Result<Trajectory, GenError>

  /** What a stroke generator promises for one call: it accepts exactly two
      or more waypoints with one strictly increasing time each, and then
      samples the whole time span at 50 Hz, starting at the first waypoint
      at rest and, once there are two samples, ending at the last one at
      rest. */
  predicate StrokeContract(poses: seq<Vec3>, times: seq<real>, r: Result<Trajectory, GenError>)
  {
    && (r.Ok? <==> ValidWaypoints(poses, times))
    && (r.Ok? ==>
          && r.value.WellFormed()
          && |r.value.times| == SampleCount(times[0], Last(times), CubicTrajectory.StrokeFrequency) >= 1
          && r.value.times[0] == times[0] && r.value.poses[0] == poses[0] && r.value.vels[0] == Zero
          && (|r.value.times| >= 2 ==>
                Last(r.value.times) == Last(times) && Last(r.value.poses) == Last(poses) && Last(r.value.vels) == Zero))
  }

  /** `generate_trajectory_3d` as the composer imports it: its own module
      only documents it (cubic, at rest at both ends), so strokes may use
      any generator that keeps the stroke contract. The averaged-velocity
      cubic generator does. */
  type StrokeGenerator = g: Generator | forall poses, times :: StrokeContract(poses, times, g(poses, times))
    witness CubicStrokes

  /** The averaged-velocity cubic generator at the stroke frequency keeps
      the stroke contract. */
  function CubicStrokes(poses: seq<Vec3>, times: seq<real>): (r: Result<Trajectory, GenError>)
    ensures StrokeContract(poses, times, r)
  {
    assert ValidWaypoints(poses, times) ==>
      SampleCount(times[0], Last(times), CubicTrajectory.StrokeFrequency) >= 1 by {
      if ValidWaypoints(poses, times) {
        IncreasingPairwise(times, 0, |times| - 1);
        SampleCountPositive(times[0], Last(times), CubicTrajectory.StrokeFrequency);
      }
    }
    CubicTrajectory.Generate(poses, times, CubicTrajectory.StrokeFrequency)
  }

  /** Duration of the horizontal leg of every lift the composer inserts. */
  const MoveDuration: real := 1.0

  /** A plain pen-down stroke or an inserted pen lift (the Lift subclass). */
  datatype MoveKind = Draw | Lift

  /** A stroke: its waypoints and their times, its duration, and the sampled
      trajectory. The source overwrites `poses` with the sampled positions;
      here those are `traj.poses`. */
  datatype Stroke = Stroke(kind: MoveKind, waypoints: seq<Vec3>, timeList: seq<real>, duration: real, traj: Trajectory)

  /** The assertion failures and exceptions of the composer. */
  datatype MotionError =
    | OutOfBounds             // a waypoint outside [0, W] x [0, W] x {0}
    | PoseTimeMismatch        // poses and time list differ in length
    | EmptyTimeList           // `time_list[-1]` on an empty list
    | Generator(cause: GenError)
    | NotSingleCharacter      // a letter name that is not one character
    | NoStrokes               // `strokes[-1]` on an empty list
    | Disconnected            // the move-connectivity assertion
    | NoLetters               // `np.concatenate` of nothing

  /** The stroke bounding box: x and y within [0, W], z exactly 0. */
  predicate InBox(cfg: Config, p: Vec3)
  {
    0.0 <= p.x <= cfg.width && 0.0 <= p.y <= cfg.width && p.z == 0.0
  }

  predicate AllInBox(cfg: Config, poses: seq<Vec3>)
  {
    forall i :: 0 <= i < |poses| ==> InBox(cfg, poses[i])
  }

  /** The shape of a constructed stroke the composer relies on: at least two
      waypoints with one time each, the duration as last time minus first
      time, and a well-formed trajectory of at least one sample. */
  predicate Valid(s: Stroke)
  {
    && |s.waypoints| == |s.timeList| >= 2
    && s.duration == Last(s.timeList) - s.timeList[0]
    && s.traj.WellFormed()
    && |s.traj.times| >= 1
  }

  /** First sampled position (`poses[0]` after construction). */
  function Start(s: Stroke): Vec3
    requires Valid(s)
  {
    s.traj.poses[0]
  }

  /** Last sampled position (`poses[-1]` after construction). */
  function End(s: Stroke): Vec3
    requires Valid(s)
  {
    Last(s.traj.poses)
  }

  /** The samples are pinned to the waypoints: the first sample is the first
      waypoint at the first time and, as soon as there are two samples, the
      last sample is the last waypoint at the last time. */
  predicate Anchored(s: Stroke)
    requires Valid(s)
  {
    && s.traj.times[0] == s.timeList[0]
    && Start(s) == s.waypoints[0]
    && (|s.traj.times| >= 2 ==> Last(s.traj.times) == Last(s.timeList) && End(s) == Last(s.waypoints))
  }

  /** The trajectory is the configured generator applied to the stroke's
      own waypoints and times, and the duration is last time minus first
      time. */
  predicate Sampled(cfg: Config, s: Stroke)
  {
    && |s.timeList| >= 1
    && cfg.generate(s.waypoints, s.timeList) == Ok(s.traj)
    && s.duration == Last(s.timeList) - s.timeList[0]
  }

  /** Every sampled stroke has the composer's shape, is anchored to its
      waypoints, and has two samples once its duration spans a sampling
      period. */
  lemma StrokeSamples(cfg: Config, s: Stroke)
    requires Sampled(cfg, s)
    ensures Valid(s) && Anchored(s)
    ensures s.duration * CubicTrajectory.StrokeFrequency >= 1.0 ==> |s.traj.times| >= 2
  {
    assert StrokeContract(s.waypoints, s.timeList, cfg.generate(s.waypoints, s.timeList));
    IncreasingPairwise(s.timeList, 0, |s.timeList| - 1);
    SampleCountPositive(s.timeList[0], Last(s.timeList), CubicTrajectory.StrokeFrequency);
  }

  /** Duration bookkeeping and the generator call, once the inputs have
      passed the bounds check. MakeStrokeSampled states what the trajectory
      is. */
  function MakeStroke(cfg: Config, kind: MoveKind, poses: seq<Vec3>, times: seq<real>): (r: Result<Stroke, MotionError>)
    requires |poses| == |times| >= 1
    ensures r.Ok? <==> |times| >= 2 && StrictlyIncreasing(times)
    ensures r.Err? ==> r.error.Generator?
    ensures r.Ok? ==> Valid(r.value) && r.value.kind == kind && r.value.traj.poses[0] == poses[0]
    ensures r.Ok? ==> r.value.waypoints == poses && r.value.timeList == times
  {
    var duration := Last(times) - times[0];
    match cfg.generate(poses, times)
    case Err(e) => Err(Generator(e))
    case Ok(tr) =>
      var s := Stroke(kind, poses, times, duration, tr);
      StrokeSamples(cfg, s);
      Ok(s)
  }

  /** A constructed stroke's trajectory is the generator's output for its
      own waypoints and times, anchored to them. */
  lemma MakeStrokeSampled(cfg: Config, kind: MoveKind, poses: seq<Vec3>, times: seq<real>, s: Stroke)
    requires |poses| == |times| >= 1 && MakeStroke(cfg, kind, poses, times) == Ok(s)
    ensures Sampled(cfg, s) && Anchored(s)
  {
    StrokeSamples(cfg, s);
  }

  /** Stroke.__init__: the bounding-box assertion, the length assertion,
      the duration and the sampled trajectory. */
  function NewStroke(cfg: Config, poses: seq<Vec3>, times: seq<real>): (r: Result<Stroke, MotionError>)
    ensures r.Ok? <==> AllInBox(cfg, poses) && |poses| == |times| && |times| >= 2 && StrictlyIncreasing(times)
    ensures !AllInBox(cfg, poses) ==> r == Err(OutOfBounds)
    ensures AllInBox(cfg, poses) && |poses| != |times| ==> r == Err(PoseTimeMismatch)
    ensures AllInBox(cfg, poses) && |poses| == |times| && !(|times| >= 2 && StrictlyIncreasing(times)) ==>
      r.Err? && r.error != OutOfBounds && r.error != PoseTimeMismatch
    ensures r.Ok? ==> Sampled(cfg, r.value) && Valid(r.value) && Anchored(r.value) && r.value.kind == Draw
    ensures r.Ok? ==> r.value.waypoints == poses && r.value.timeList == times
    ensures r.Ok? && cfg.generate == CubicStrokes ==>
      CubicTrajectory.Generate(poses, times, CubicTrajectory.StrokeFrequency) == Ok(r.value.traj)
  {
    if !AllInBox(cfg, poses) then Err(OutOfBounds)
    else if |poses| != |times| then Err(PoseTimeMismatch)
    else if |times| == 0 then Err(EmptyTimeList)
    else
      var r := MakeStroke(cfg, Draw, poses, times);
      assert r.Ok? ==> Sampled(cfg, r.value) && Anchored(r.value) by {
        if r.Ok? {
          MakeStrokeSampled(cfg, Draw, poses, times, r.value);
        }
      }
      r
  }

  /** A position raised by the lift height. */
  function Lifted(cfg: Config, p: Vec3): Vec3
  {
    Add(p, Vec3(0.0, 0.0, cfg.liftHeight))
  }

  /** Lift waypoints: start, start raised, end raised, end. */
  function LiftWaypoints(cfg: Config, start: Vec3, end: Vec3): seq<Vec3>
  {
    [start, Lifted(cfg, start), Lifted(cfg, end), end]
  }

  /** Lift times: a vertical leg, the horizontal move, a vertical leg. */
  function LiftTimes(cfg: Config, moveDuration: real): seq<real>
  {
    [0.0, cfg.liftDuration, cfg.liftDuration + moveDuration, cfg.liftDuration + moveDuration + cfg.liftDuration]
  }

  /** Lift.__init__ as written: it hands its waypoints to Stroke.__init__,
      whose bounding box demands z == 0, so every lift with a non-zero
      height is rejected. */
  function LiftAsWritten(cfg: Config, start: Vec3, end: Vec3, moveDuration: real): (r: Result<Stroke, MotionError>)
    ensures cfg.liftHeight != 0.0 ==> r == Err(OutOfBounds)
  {
    var poses := LiftWaypoints(cfg, start, end);
    assert cfg.liftHeight != 0.0 ==> !InBox(cfg, poses[0]) || !InBox(cfg, poses[1]);
    NewStroke(cfg, poses, LiftTimes(cfg, moveDuration))
  }

  /** A pen lift built without the pen-down bounding box (the behaviour the
      composer needs from Lift). It succeeds exactly when both leg
      durations are positive, starts at `start` and lasts
      2 * liftDuration + moveDuration; LiftShape states the rest. */
  function NewLift(cfg: Config, start: Vec3, end: Vec3, moveDuration: real): (r: Result<Stroke, MotionError>)
    ensures r.Ok? <==> 0.0 < cfg.liftDuration && 0.0 < moveDuration
    ensures r.Err? ==> r.error.Generator?
    ensures r.Ok? ==> Valid(r.value) && r.value.kind == Lift
    ensures r.Ok? ==> r.value.duration == 2.0 * cfg.liftDuration + moveDuration && Start(r.value) == start
  {
    LiftTimesIncreasing(cfg, moveDuration);
    MakeStroke(cfg, Lift, LiftWaypoints(cfg, start, end), LiftTimes(cfg, moveDuration))
  }

  /** A lift's four time stamps increase exactly when both leg durations
      are positive. */
  lemma LiftTimesIncreasing(cfg: Config, moveDuration: real)
    ensures |LiftTimes(cfg, moveDuration)| == 4
    ensures StrictlyIncreasing(LiftTimes(cfg, moveDuration)) <==> 0.0 < cfg.liftDuration && 0.0 < moveDuration
  {
    var ts := LiftTimes(cfg, moveDuration);
    if StrictlyIncreasing(ts) {
      assert Rises(ts, 0) && Rises(ts, 1);
    }
  }

  /** A lift is the cubic path through start, start raised, end raised and
      end, at times 0, liftDuration, liftDuration + moveDuration and
      2 * liftDuration + moveDuration; once it has two samples it ends
      exactly at `end`. */
  lemma LiftShape(cfg: Config, start: Vec3, end: Vec3, moveDuration: real, lift: Stroke)
    requires NewLift(cfg, start, end, moveDuration) == Ok(lift)
    ensures Sampled(cfg, lift) && Anchored(lift)
    ensures lift.waypoints == LiftWaypoints(cfg, start, end) && lift.timeList == LiftTimes(cfg, moveDuration)
    ensures |lift.traj.times| >= 2 ==> End(lift) == end
  {
    MakeStrokeSampled(cfg, Lift, LiftWaypoints(cfg, start, end), LiftTimes(cfg, moveDuration), lift);
  }

  /** Every lift the composer inserts (horizontal leg of MoveDuration) has
      at least 51 samples, so it ends exactly at `end`. */
  lemma InsertedLiftSamples(cfg: Config, start: Vec3, end: Vec3, lift: Stroke)
    requires NewLift(cfg, start, end, MoveDuration) == Ok(lift)
    ensures |lift.traj.times| >= 51 && End(lift) == end
  {
    LiftShape(cfg, start, end, MoveDuration, lift);
    StrokeSamples(cfg, lift);
    var x := (Last(lift.timeList) - lift.timeList[0]) * CubicTrajectory.StrokeFrequency;
    assert x >= 50.0;
  }

  /** A letter: its character, its moves (strokes and inserted lifts) and
      its duration. */
  datatype Letter = Letter(character: string, moves: seq<Stroke>, duration: real)

  predicate AllValid(ms: seq<Stroke>)
  {
    forall k :: 0 <= k < |ms| ==> Valid(ms[k])
  }

  /** Move i + 1 starts where move i ends. */
  predicate Joined(ms: seq<Stroke>, i: nat)
    requires AllValid(ms) && i + 1 < |ms|
  {
    End(ms[i]) == Start(ms[i + 1])
  }

  /** Each move starts where the previous one ends. */
  predicate Connected(ms: seq<Stroke>)
    requires AllValid(ms)
  {
    forall i: nat :: i + 1 < |ms| ==> Joined(ms, i)
  }

  /** One pass of the validation loop of Letter.__init__: move i starts
      where move i - 1 ends and ends where move i + 1 starts. */
  predicate MeetsNeighbours(ms: seq<Stroke>, i: nat)
    requires AllValid(ms) && i < |ms|
  {
    (i != 0 ==> Start(ms[i]) == End(ms[i - 1])) && (i != |ms| - 1 ==> End(ms[i]) == Start(ms[i + 1]))
  }

  /** The whole validation loop of Letter.__init__. */
  predicate ConnectionCheck(ms: seq<Stroke>)
    requires AllValid(ms)
  {
    forall i: nat :: i < |ms| ==> MeetsNeighbours(ms, i)
  }

  /** Move b starts where move a ends (both well-formed). */
  predicate Meets(a: Stroke, b: Stroke)
  {
    Valid(a) && Valid(b) && End(a) == Start(b)
  }

  /** A chain of meeting moves is valid and connected. */
  lemma ChainConnected(ms: seq<Stroke>)
    requires |ms| >= 1 && Valid(ms[0]) && Chain(ms, Meets)
    ensures AllValid(ms) && Connected(ms)
  {
    assert AllValid(ms) by {
      forall k | 0 < k < |ms|
        ensures Valid(ms[k])
      {
        assert Linked(ms, Meets, k - 1);
      }
    }
    forall i: nat | i + 1 < |ms|
      ensures Joined(ms, i)
    {
      assert Linked(ms, Meets, i);
    }
  }

  /** Sum of the durations of the first k moves: the clock value at which
      move k starts. */
  function Elapsed(ms: seq<Stroke>, k: nat): real
    requires k <= |ms|
  {
    if k == 0 then 0.0 else ms[0].duration + Elapsed(ms[1..], k - 1)
  }

  function SumDurations(ms: seq<Stroke>): real
  {
    Elapsed(ms, |ms|)
  }

  lemma {:induction false} ElapsedStep(ms: seq<Stroke>, k: nat)
    requires k < |ms|
    ensures Elapsed(ms, k + 1) == Elapsed(ms, k) + ms[k].duration
  {
    if k > 0 {
      ElapsedStep(ms[1..], k - 1);
    }
  }

  lemma SumDurationsCons(a: Stroke, rest: seq<Stroke>)
    ensures SumDurations([a] + rest) == a.duration + SumDurations(rest)
  {
    assert ([a] + rest)[1..] == rest;
  }

  /** The duration of a concatenation is the sum of the durations. */
  lemma {:induction false} SumDurationsAppend(a: seq<Stroke>, b: seq<Stroke>)
    ensures SumDurations(a + b) == SumDurations(a) + SumDurations(b)
  {
    if |a| > 0 {
      assert (a + b)[0] == a[0] && (a + b)[1..] == a[1..] + b;
      SumDurationsAppend(a[1..], b);
    } else {
      assert a + b == b;
    }
  }

  /** d added up n times: n back-to-back periods of length d, or n
      pitches of width d. */
  function Repeated(n: nat, d: real): real
  {
    if n == 0 then 0.0 else Repeated(n - 1, d) + d
  }

  lemma RepeatedSucc(n: nat, m: nat, d: real)
    requires n == m + 1
    ensures Repeated(n, d) == Repeated(m, d) + d
  {
  }

  lemma {:induction false} RepeatedIsProduct(n: nat, d: real)
    ensures Repeated(n, d) == (n as real) * d
  {
    if n > 0 {
      RepeatedIsProduct(n - 1, d);
      assert (n as real) * d == ((n - 1) as real) * d + d;
    }
  }

  /** Stroke a ends somewhere other than where stroke b starts (exact
      vector comparison). */
  predicate Disjoint(a: Stroke, b: Stroke)
    requires Valid(a) && Valid(b)
  {
    End(a) != Start(b)
  }

  /** Strokes i and i + 1 do not meet, so a lift must bridge them. */
  predicate Gap(ss: seq<Stroke>, i: nat)
    requires AllValid(ss) && i + 1 < |ss|
  {
    Disjoint(ss[i], ss[i + 1])
  }

  /** Number of disconnected neighbour pairs (k, k + 1) with k < i. */
  function GapsBefore(ss: seq<Stroke>, i: nat): nat
    requires AllValid(ss) && i < |ss|
  {
    if i == 0 then 0
    else GapsBefore(ss, i - 1) + (if Gap(ss, i - 1) then 1 else 0)
  }

  /** Number of disconnected neighbour pairs. */
  function Gaps(ss: seq<Stroke>): nat
    requires AllValid(ss) && |ss| >= 1
  {
    GapsBefore(ss, |ss| - 1)
  }

  /** No gap before position i exactly when every pair before it meets. */
  lemma {:induction false} GapsZero(ss: seq<Stroke>, i: nat)
    requires AllValid(ss) && i < |ss|
    ensures GapsBefore(ss, i) == 0 <==> forall j: nat :: j < i ==> !Gap(ss, j)
  {
    if i > 0 {
      GapsZero(ss, i - 1);
    }
  }

  /** Duration of every lift the composer inserts. */
  function BridgeDuration(cfg: Config): real
  {
    2.0 * cfg.liftDuration + MoveDuration
  }

  /** The lift inserted after stroke a when the next stroke b is disjoint. */
  function BridgeLift(cfg: Config, a: Stroke, b: Stroke): Result<Stroke, MotionError>
    requires Valid(a) && Valid(b)
  {
    NewLift(cfg, End(a), Start(b), MoveDuration)
  }

  /** What one pass of the lift-insertion loop adds after stroke i: the
      bridging lift when strokes i and i + 1 are disjoint, nothing when
      they meet. */
  function GapBridge(cfg: Config, ss: seq<Stroke>, i: nat): Result<Option<Stroke>, MotionError>
    requires AllValid(ss) && i + 1 < |ss|
  {
    if !Gap(ss, i) then Ok(None)
    else
      match BridgeLift(cfg, ss[i], ss[i + 1])
      case Err(e) => Err(e)
      case Ok(lift) => Ok(Some(lift))
  }

  /** What the loop adds after each stroke but the last, in order; the
      first lift that cannot be built stops it. */
  function GapBridges(cfg: Config, ss: seq<Stroke>): (r: Result<seq<Option<Stroke>>, MotionError>)
    requires |ss| >= 1 && AllValid(ss)
    ensures r.Ok? <==> forall i :: 0 <= i < |ss| - 1 ==> GapBridge(cfg, ss, i).Ok?
    ensures r.Err? ==> exists i :: 0 <= i < |ss| - 1 && GapBridge(cfg, ss, i) == Err(r.error)
    ensures r.Ok? ==> |r.value| == |ss| - 1
    ensures r.Ok? ==> forall i :: 0 <= i < |ss| - 1 ==> GapBridge(cfg, ss, i) == Ok(r.value[i])
  {
    var f := (i: nat) => if AllValid(ss) && i + 1 < |ss| then GapBridge(cfg, ss, i) else Ok(None);
    var r := MapResult(Indices(|ss| - 1), f);
    assert forall i :: 0 <= i < |ss| - 1 ==> f(Indices(|ss| - 1)[i]) == GapBridge(cfg, ss, i);
    r
  }

  /** The loop gets through every gap exactly when no gap needs a lift or
      lifts can be built at all (positive lift duration); it can only fail
      in the generator. */
  lemma GapBridgesOk(cfg: Config, ss: seq<Stroke>)
    requires |ss| >= 1 && AllValid(ss)
    ensures GapBridges(cfg, ss).Ok? <==> Gaps(ss) == 0 || 0.0 < cfg.liftDuration
    ensures GapBridges(cfg, ss).Err? ==> GapBridges(cfg, ss).error.Generator?
  {
    GapsZero(ss, |ss| - 1);
    var r := GapBridges(cfg, ss);
    if r.Err? {
      var i :| 0 <= i < |ss| - 1 && GapBridge(cfg, ss, i) == Err(r.error);
      assert Gap(ss, i);
    } else if Gaps(ss) != 0 {
      var i :| 0 <= i < |ss| - 1 && Gap(ss, i);
      assert GapBridge(cfg, ss, i).Ok?;
    }
  }

  /** The added lifts sit exactly at the disjoint pairs, last the bridge
      duration each, and join their neighbours. */
  lemma GapBridgesFit(cfg: Config, ss: seq<Stroke>, bs: seq<Option<Stroke>>)
    requires |ss| >= 1 && AllValid(ss) && GapBridges(cfg, ss) == Ok(bs)
    ensures |bs| == |ss| - 1
    ensures forall j :: 0 <= j < |bs| ==> (bs[j].Some? <==> Gap(ss, j))
    ensures forall j :: 0 <= j < |bs| && bs[j].Some? ==> bs[j].value.duration == BridgeDuration(cfg)
    ensures Bridged(ss, bs, Meets)
  {
    forall j | 0 <= j < |bs|
      ensures BridgedAt(ss, bs, Meets, j)
    {
      assert GapBridge(cfg, ss, j) == Ok(bs[j]);
      if bs[j].Some? {
        InsertedLiftSamples(cfg, End(ss[j]), Start(ss[j + 1]), bs[j].value);
      }
    }
  }

  /** The inserted lifts counted before stroke i are the gaps before it. */
  lemma {:induction false} GapsCounted(ss: seq<Stroke>, bs: seq<Option<Stroke>>, i: nat)
    requires AllValid(ss) && |bs| == |ss| - 1 && i < |ss|
    requires forall j :: 0 <= j < |bs| ==> (bs[j].Some? <==> Gap(ss, j))
    ensures PresentBefore(bs, i) == GapsBefore(ss, i)
  {
    if i > 0 {
      GapsCounted(ss, bs, i - 1);
      PresentBeforeStep(bs, i - 1);
    }
  }

  /** Interleaving lifts of duration d adds d per lift to the total. */
  lemma {:induction false} InterleaveDuration(ss: seq<Stroke>, bs: seq<Option<Stroke>>, d: real)
    requires |ss| >= 1 && |bs| == |ss| - 1
    requires forall j :: 0 <= j < |bs| && bs[j].Some? ==> bs[j].value.duration == d
    ensures SumDurations(Interleave(ss, bs)) == SumDurations(ss) + Repeated(PresentBefore(bs, |bs|), d)
    decreases |ss|
  {
    if |ss| == 1 {
      assert Interleave(ss, bs) == ss;
    } else {
      var tail := Interleave(ss[1..], bs[1..]);
      assert forall j :: 0 <= j < |bs| - 1 ==> bs[1..][j] == bs[j + 1];
      InterleaveDuration(ss[1..], bs[1..], d);
      assert Interleave(ss, bs) == [ss[0]] + Present(bs[0]) + tail;
      HeadGapDuration(ss[0], bs[0], tail, d);
      SumDurationsCons(ss[0], ss[1..]);
      assert [ss[0]] + ss[1..] == ss;
      var n := PresentBefore(bs[1..], |bs| - 1);
      assert PresentBefore(bs, |bs|) == |Present(bs[0])| + n;
      var extra := if bs[0].Some? then d else 0.0;
      if bs[0].Some? {
        RepeatedSucc(n + 1, n, d);
      }
      assert Repeated(PresentBefore(bs, |bs|), d) == Repeated(n, d) + extra;
    }
  }

  /** A stroke, then a lift of duration d when there is one, then the rest:
      the durations add up. */
  lemma HeadGapDuration(a: Stroke, g: Option<Stroke>, rest: seq<Stroke>, d: real)
    requires g.Some? ==> g.value.duration == d
    ensures SumDurations([a] + Present(g) + rest) == a.duration + SumDurations(rest) + (if g.Some? then d else 0.0)
  {
    SumDurationsAppend([a] + Present(g), rest);
    SumDurationsCons(a, Present(g));
    if g.Some? {
      SumDurationsCons(g.value, []);
      assert [g.value] + [] == Present(g);
    } else {
      assert Present(g) == [];
    }
  }

  /** The lift-insertion loop of Letter.__init__: the strokes in order,
      with the bridging lift after every stroke that does not meet the
      next one. The moves are connected and there are as many as strokes
      plus disjoint pairs. */
  function InsertLifts(cfg: Config, ss: seq<Stroke>): (r: Result<seq<Stroke>, MotionError>)
    requires |ss| >= 1 && AllValid(ss)
    ensures r.Ok? <==> Gaps(ss) == 0 || 0.0 < cfg.liftDuration
    ensures r.Err? ==> r.error.Generator?
    ensures r.Ok? ==> AllValid(r.value) && Connected(r.value)
    ensures r.Ok? ==> |r.value| == |ss| + Gaps(ss) && r.value[0] == ss[0] && Last(r.value) == Last(ss)
  {
    GapBridgesOk(cfg, ss);
    match GapBridges(cfg, ss)
    case Err(e) => Err(e)
    case Ok(bs) =>
      BridgedStrokes(cfg, ss, bs);
      Ok(Interleave(ss, bs))
  }

  /** The strokes with the lifts the loop built interleaved: valid,
      connected, one move per stroke and per gap, from the first stroke to
      the last. */
  lemma BridgedStrokes(cfg: Config, ss: seq<Stroke>, bs: seq<Option<Stroke>>)
    requires |ss| >= 1 && AllValid(ss) && GapBridges(cfg, ss) == Ok(bs)
    ensures AllValid(Interleave(ss, bs)) && Connected(Interleave(ss, bs))
    ensures |Interleave(ss, bs)| == |ss| + Gaps(ss)
    ensures Interleave(ss, bs)[0] == ss[0] && Last(Interleave(ss, bs)) == Last(ss)
  {
    GapBridgesFit(cfg, ss, bs);
    GapsCounted(ss, bs, |ss| - 1);
    InterleaveChain(ss, bs, Meets);
    ChainConnected(Interleave(ss, bs));
  }

  /** Strokes keep their order: stroke i sits at move i + (gaps before it),
      and the move right after it is the bridging lift when stroke i and
      stroke i + 1 are disjoint, and stroke i + 1 otherwise. */
  lemma InsertLiftsLayout(cfg: Config, ss: seq<Stroke>, ms: seq<Stroke>, i: nat)
    requires |ss| >= 1 && AllValid(ss) && InsertLifts(cfg, ss) == Ok(ms) && i < |ss|
    ensures i + GapsBefore(ss, i) < |ms| && ms[i + GapsBefore(ss, i)] == ss[i]
    ensures i + 1 < |ss| && Disjoint(ss[i], ss[i + 1]) ==>
      BridgeLift(cfg, ss[i], ss[i + 1]).Ok? &&
      i + GapsBefore(ss, i) + 1 < |ms| && ms[i + GapsBefore(ss, i) + 1] == BridgeLift(cfg, ss[i], ss[i + 1]).value
    ensures i + 1 < |ss| && !Disjoint(ss[i], ss[i + 1]) ==>
      i + GapsBefore(ss, i) + 1 < |ms| && ms[i + GapsBefore(ss, i) + 1] == ss[i + 1]
  {
    var bs := GapBridges(cfg, ss).value;
    assert ms == Interleave(ss, bs);
    BridgedLayout(cfg, ss, bs, ms, i);
  }

  /** The same for the interleaving of the lifts the loop built. */
  lemma BridgedLayout(cfg: Config, ss: seq<Stroke>, bs: seq<Option<Stroke>>, ms: seq<Stroke>, i: nat)
    requires |ss| >= 1 && AllValid(ss) && GapBridges(cfg, ss) == Ok(bs) && ms == Interleave(ss, bs) && i < |ss|
    ensures i + GapsBefore(ss, i) < |ms| && ms[i + GapsBefore(ss, i)] == ss[i]
    ensures i + 1 < |ss| && Disjoint(ss[i], ss[i + 1]) ==>
      BridgeLift(cfg, ss[i], ss[i + 1]).Ok? &&
      i + GapsBefore(ss, i) + 1 < |ms| && ms[i + GapsBefore(ss, i) + 1] == BridgeLift(cfg, ss[i], ss[i + 1]).value
    ensures i + 1 < |ss| && !Disjoint(ss[i], ss[i + 1]) ==>
      i + GapsBefore(ss, i) + 1 < |ms| && ms[i + GapsBefore(ss, i) + 1] == ss[i + 1]
  {
    GapBridgesFit(cfg, ss, bs);
    GapsCounted(ss, bs, i);
    InterleaveLayout(ss, bs, i);
    if i + 1 < |ss| {
      assert GapBridge(cfg, ss, i) == Ok(bs[i]);
    }
  }

  /** Inserted lifts add BridgeDuration each to the total duration. */
  lemma InsertLiftsDuration(cfg: Config, ss: seq<Stroke>, ms: seq<Stroke>)
    requires |ss| >= 1 && AllValid(ss) && InsertLifts(cfg, ss) == Ok(ms)
    ensures SumDurations(ms) == SumDurations(ss) + Repeated(Gaps(ss), BridgeDuration(cfg))
  {
    var bs := GapBridges(cfg, ss).value;
    assert ms == Interleave(ss, bs);
    BridgedDuration(cfg, ss, bs);
  }

  /** The same for the interleaving of the lifts the loop built. */
  lemma BridgedDuration(cfg: Config, ss: seq<Stroke>, bs: seq<Option<Stroke>>)
    requires |ss| >= 1 && AllValid(ss) && GapBridges(cfg, ss) == Ok(bs)
    ensures SumDurations(Interleave(ss, bs)) == SumDurations(ss) + Repeated(Gaps(ss), BridgeDuration(cfg))
  {
    GapBridgesFit(cfg, ss, bs);
    GapsCounted(ss, bs, |ss| - 1);
    InterleaveDuration(ss, bs, BridgeDuration(cfg));
  }

  /** A letter as the constructor leaves it. */
  predicate ValidLetter(l: Letter)
  {
    && |l.character| == 1
    && |l.moves| >= 1
    && AllValid(l.moves)
    && Connected(l.moves)
    && l.duration == SumDurations(l.moves)
  }

  /** Letter.__init__: the character assertion, lift insertion, the
      connectivity assertion (which never fails) and the duration. */
  function NewLetter(cfg: Config, character: string, strokes: seq<Stroke>): (r: Result<Letter, MotionError>)
    requires AllValid(strokes)
    ensures |character| != 1 ==> r == Err(NotSingleCharacter)
    ensures |character| == 1 && |strokes| == 0 ==> r == Err(NoStrokes)
    ensures r != Err(Disconnected)
    ensures r.Ok? <==> |character| == 1 && |strokes| >= 1 && (Gaps(strokes) == 0 || 0.0 < cfg.liftDuration)
    ensures r.Ok? ==> ValidLetter(r.value) && r.value.character == character
    ensures r.Ok? ==> InsertLifts(cfg, strokes) == Ok(r.value.moves)
  {
    if |character| != 1 then Err(NotSingleCharacter)
    else if |strokes| == 0 then Err(NoStrokes)
    else
      match InsertLifts(cfg, strokes)
      case Err(e) => Err(e)
      case Ok(ms) =>
        assert ConnectionCheck(ms) by {
          forall i: nat | i < |ms|
            ensures MeetsNeighbours(ms, i)
          {
            if i != 0 {
              assert Joined(ms, i - 1);
            }
            if i != |ms| - 1 {
              assert Joined(ms, i);
            }
          }
        }
        if !ConnectionCheck(ms) then Err(Disconnected)
        else Ok(Letter(character, ms, SumDurations(ms)))
  }

  /** A letter lasts as long as its strokes plus one bridge duration
      (2 * liftDuration + 1) for every inserted lift; RepeatedIsProduct
      turns the repeated sum into Gaps * BridgeDuration. */
  lemma LetterDuration(cfg: Config, character: string, strokes: seq<Stroke>, l: Letter)
    requires AllValid(strokes) && NewLetter(cfg, character, strokes) == Ok(l)
    ensures l.duration == SumDurations(strokes) + Repeated(Gaps(strokes), BridgeDuration(cfg))
  {
    assert l.duration == SumDurations(l.moves);
    InsertLiftsDuration(cfg, strokes, l.moves);
  }

  /** A trajectory with its times shifted by dt (positions unchanged). */
  function Retimed(tr: Trajectory, dt: real): Trajectory
  {
    Trajectory(ShiftAll(tr.times, dt), tr.poses, tr.vels, tr.accs)
  }

  /** Every position moved by off. */
  function ShiftPoses(ps: seq<Vec3>, off: Vec3): (r: seq<Vec3>)
    ensures |r| == |ps|
  {
    seq(|ps|, i requires 0 <= i < |ps| => Add(ps[i], off))
  }

  /** Moving the positions back by the same offset restores them: the shift
      neither adds, drops nor reorders a position. */
  lemma ShiftPosesUndo(ps: seq<Vec3>, off: Vec3)
    ensures ShiftPoses(ShiftPoses(ps, off), Sub(Zero, off)) == ps
  {
    var back := ShiftPoses(ShiftPoses(ps, off), Sub(Zero, off));
    forall i | 0 <= i < |ps|
      ensures back[i] == ps[i]
    {
      assert back[i] == Add(Add(ps[i], off), Sub(Zero, off));
    }
  }

  /** A trajectory with its times shifted by dt and positions moved by off;
      velocities and accelerations are unchanged. */
  function Shifted(tr: Trajectory, dt: real, off: Vec3): Trajectory
  {
    Trajectory(ShiftAll(tr.times, dt), ShiftPoses(tr.poses, off), tr.vels, tr.accs)
  }

  function TimesOf(trs: seq<Trajectory>): seq<seq<real>>
  {
    seq(|trs|, k requires 0 <= k < |trs| => trs[k].times)
  }

  function PosesOf(trs: seq<Trajectory>): seq<seq<Vec3>>
  {
    seq(|trs|, k requires 0 <= k < |trs| => trs[k].poses)
  }

  function VelsOf(trs: seq<Trajectory>): seq<seq<Vec3>>
  {
    seq(|trs|, k requires 0 <= k < |trs| => trs[k].vels)
  }

  function AccsOf(trs: seq<Trajectory>): seq<seq<Vec3>>
  {
    seq(|trs|, k requires 0 <= k < |trs| => trs[k].accs)
  }

  /** `np.concatenate` of each of the four arrays of a list of pieces. */
  function Concat(trs: seq<Trajectory>): Trajectory
  {
    Trajectory(Flatten(TimesOf(trs)), Flatten(PosesOf(trs)), Flatten(VelsOf(trs)), Flatten(AccsOf(trs)))
  }

  predicate AllWellFormed(trs: seq<Trajectory>)
  {
    forall m :: 0 <= m < |trs| ==> trs[m].WellFormed()
  }

  /** Well-formed pieces concatenate to a well-formed trajectory whose
      length is the sum of the pieces' lengths. */
  lemma ConcatWellFormed(trs: seq<Trajectory>)
    requires AllWellFormed(trs)
    ensures Concat(trs).WellFormed()
    ensures |Concat(trs).times| == TotalLength(TimesOf(trs))
  {
    FlattenLength(TimesOf(trs));
    FlattenLength(PosesOf(trs));
    FlattenLength(VelsOf(trs));
    FlattenLength(AccsOf(trs));
    OffsetSameShape(TimesOf(trs), PosesOf(trs), |trs|);
    OffsetSameShape(TimesOf(trs), VelsOf(trs), |trs|);
    OffsetSameShape(TimesOf(trs), AccsOf(trs), |trs|);
  }

  /** Sample j of piece k sits at Offset(k) + j of every concatenated array,
      unchanged. */
  lemma ConcatLayout(trs: seq<Trajectory>, k: nat, j: nat)
    requires AllWellFormed(trs)
    requires k < |trs| && j < |trs[k].times|
    ensures trs[k].WellFormed()
    ensures var c := Concat(trs); var n := Offset(TimesOf(trs), k);
      n + j < |c.times| && n + j < |c.poses| && n + j < |c.vels| && n + j < |c.accs| &&
      c.times[n + j] == trs[k].times[j] && c.poses[n + j] == trs[k].poses[j] &&
      c.vels[n + j] == trs[k].vels[j] && c.accs[n + j] == trs[k].accs[j]
  {
    assert trs[k].WellFormed();
    ConcatWellFormed(trs);
    OffsetSameShape(TimesOf(trs), PosesOf(trs), k);
    OffsetSameShape(TimesOf(trs), VelsOf(trs), k);
    OffsetSameShape(TimesOf(trs), AccsOf(trs), k);
    FlattenIndex(TimesOf(trs), k, j);
    FlattenIndex(PosesOf(trs), k, j);
    FlattenIndex(VelsOf(trs), k, j);
    FlattenIndex(AccsOf(trs), k, j);
  }

  /** Move k's samples with its times shifted by the moves before it. */
  function MovePieces(ms: seq<Stroke>): (ps: seq<Trajectory>)
    requires AllValid(ms)
    ensures |ps| == |ms| && AllWellFormed(ps)
    ensures forall k :: 0 <= k < |ms| ==> |ps[k].times| == |ms[k].traj.times|
  {
    seq(|ms|, k requires 0 <= k < |ms| => Retimed(ms[k].traj, Elapsed(ms, k)))
  }

  /** Sample index at which move k starts in the letter's trajectory. */
  function SampleStart(ms: seq<Stroke>, k: nat): nat
    requires AllValid(ms) && k <= |ms|
  {
    Offset(TimesOf(MovePieces(ms)), k)
  }

  /** Letter.get_trajectory: every move's samples in order, times shifted
      by the durations of the moves before it. It starts at the first
      move's start and ends at the last move's end. */
  function LetterTrajectory(l: Letter): (tr: Trajectory)
    requires ValidLetter(l)
    ensures tr.WellFormed() && |tr.times| >= 1
    ensures tr.poses[0] == Start(l.moves[0]) && Last(tr.poses) == End(Last(l.moves))
  {
    var ps := MovePieces(l.moves);
    var k := |l.moves| - 1;
    ConcatLayout(ps, 0, 0);
    ConcatLayout(ps, k, |ps[k].times| - 1);
    ConcatWellFormed(ps);
    OffsetStep(TimesOf(ps), k);
    Concat(ps)
  }

  /** No sample is dropped or altered: the letter's trajectory has as many
      samples as its moves together, and sample j of move k appears at
      SampleStart(k) + j with its time advanced by the durations of moves
      0..k-1 and its position, velocity and acceleration copied. */
  lemma LetterTrajectoryLayout(l: Letter, k: nat, j: nat)
    requires ValidLetter(l) && k < |l.moves| && j < |l.moves[k].traj.times|
    ensures var tr := LetterTrajectory(l); var n := SampleStart(l.moves, k);
      |tr.times| == SampleStart(l.moves, |l.moves|) && n + j < |tr.times| &&
      tr.times[n + j] == l.moves[k].traj.times[j] + Elapsed(l.moves, k) &&
      tr.poses[n + j] == l.moves[k].traj.poses[j] &&
      tr.vels[n + j] == l.moves[k].traj.vels[j] &&
      tr.accs[n + j] == l.moves[k].traj.accs[j]
  {
    var ps := MovePieces(l.moves);
    ConcatLayout(ps, k, j);
    ConcatWellFormed(ps);
  }

  /** Just before the seam where move k + 1 starts sits the last sample of
      move k, shifted by the durations before move k. */
  lemma LetterSeamBefore(l: Letter, k: nat)
    requires ValidLetter(l) && k + 1 < |l.moves|
    ensures var tr := LetterTrajectory(l); var ms := l.moves; var n := SampleStart(ms, k + 1);
      && 0 < n <= |tr.times|
      && tr.times[n - 1] == Last(ms[k].traj.times) + Elapsed(ms, k) && tr.poses[n - 1] == End(ms[k])
  {
    var ms := l.moves;
    var ps := MovePieces(ms);
    var last := |ms[k].traj.times| - 1;
    OffsetStep(TimesOf(ps), k);
    assert |TimesOf(ps)[k]| == last + 1;
    assert SampleStart(ms, k + 1) - 1 == SampleStart(ms, k) + last;
    LetterTrajectoryLayout(l, k, last);
  }

  /** At the seam sits the first sample of move k + 1, shifted by the
      durations before it. */
  lemma LetterSeamAfter(l: Letter, k: nat)
    requires ValidLetter(l) && k + 1 < |l.moves|
    ensures var tr := LetterTrajectory(l); var ms := l.moves; var n := SampleStart(ms, k + 1);
      && n < |tr.times|
      && tr.times[n] == ms[k + 1].traj.times[0] + Elapsed(ms, k + 1) && tr.poses[n] == Start(ms[k + 1])
  {
    LetterTrajectoryLayout(l, k + 1, 0);
  }

  /** Unlike a deduplicating concatenation, the seam between two anchored
      moves whose time lists start at the same value repeats a sample: the
      last sample of move k and the first of move k + 1 have equal times and
      positions. */
  lemma LetterSeamRepeatsSample(l: Letter, k: nat)
    requires ValidLetter(l) && k + 1 < |l.moves|
    requires Anchored(l.moves[k]) && Anchored(l.moves[k + 1])
    requires l.moves[k].timeList[0] == l.moves[k + 1].timeList[0]
    requires |l.moves[k].traj.times| >= 2
    ensures var tr := LetterTrajectory(l); var n := SampleStart(l.moves, k + 1);
      0 < n < |tr.times| && tr.times[n - 1] == tr.times[n] && tr.poses[n - 1] == tr.poses[n]
  {
    LetterSeamBefore(l, k);
    LetterSeamAfter(l, k);
    ElapsedStep(l.moves, k);
    assert Joined(l.moves, k);
  }

  /** A string of letters and the pitch between them. */
  datatype String = String(letters: seq<Letter>, width: real)

  /** Which time axis a lift piece of a string contributes: the four
      waypoint stamps (`lift.time_list`, as written) or its sample times. */
  datatype LiftClock = WaypointStamps | SampleTimes

  /** Offset of letter idx: idx pitches along x (`idx * width`, written
      as a repeated sum; see RepeatedIsProduct). */
  function LetterOffset(width: real, idx: nat): Vec3
  {
    Vec3(Repeated(idx, width), 0.0, 0.0)
  }

  /** Consecutive letters sit exactly one pitch apart along x. */
  lemma LetterOffsetStep(width: real, idx: nat)
    ensures Add(LetterOffset(width, idx), Vec3(width, 0.0, 0.0)) == LetterOffset(width, idx + 1)
  {
    RepeatedSucc(idx + 1, idx, width);
  }

  predicate AllValidLetters(letters: seq<Letter>)
  {
    forall m :: 0 <= m < |letters| ==> ValidLetter(letters[m])
  }

  /** Each letter's own trajectory (`letter.get_trajectory()`). */
  function LetterTrajectories(letters: seq<Letter>): (trs: seq<Trajectory>)
    requires AllValidLetters(letters)
    ensures |trs| == |letters| && AllWellFormed(trs)
    ensures forall m :: 0 <= m < |trs| ==> |trs[m].poses| >= 1
  {
    seq(|letters|, m requires 0 <= m < |letters| => LetterTrajectory(letters[m]))
  }

  function LetterDurations(letters: seq<Letter>): (ds: seq<real>)
    ensures |ds| == |letters|
    ensures forall m :: 0 <= m < |letters| ==> ds[m] == letters[m].duration
  {
    seq(|letters|, m requires 0 <= m < |letters| => letters[m].duration)
  }

  /** Sum of the first k entries. */
  function PrefixSum(xs: seq<real>, k: nat): real
    requires k <= |xs|
  {
    if k == 0 then 0.0 else xs[0] + PrefixSum(xs[1..], k - 1)
  }

  /** Where letter trajectory m + 1 starts once moved one pitch along x. */
  function NextStart(trs: seq<Trajectory>, m: nat, width: real): Vec3
    requires m + 1 < |trs| && |trs[m + 1].poses| >= 1
  {
    Add(trs[m + 1].poses[0], Vec3(width, 0.0, 0.0))
  }

  /** The lift String.get_trajectory builds after letter trajectory m: from
      its last (unshifted) position to the first position of trajectory
      m + 1 moved one pitch along x, with a horizontal leg of MoveDuration. */
  function LiftAfter(cfg: Config, trs: seq<Trajectory>, width: real, m: nat): Result<Stroke, MotionError>
    requires m + 1 < |trs| && |trs[m].poses| >= 1 && |trs[m + 1].poses| >= 1
  {
    NewLift(cfg, Last(trs[m].poses), NextStart(trs, m, width), MoveDuration)
  }

  /** What the assembly relies on from the lift after piece m: it starts
      at the last position of letter trajectory m, ends at the first
      position of letter trajectory m + 1 moved one pitch along x, lasts d,
      and has more samples (at least 51) than waypoint stamps (4). */
  predicate BridgeAt(trs: seq<Trajectory>, width: real, d: real, m: nat, lift: Stroke)
  {
    && m + 1 < |trs| && |trs[m].poses| >= 1 && |trs[m + 1].poses| >= 1
    && Valid(lift)
    && Start(lift) == Last(trs[m].poses)
    && End(lift) == NextStart(trs, m, width)
    && lift.duration == d
    && |lift.timeList| == 4 && |lift.traj.times| >= 51
  }

  /** The lift after trajectory m starts at its last position and ends at
      the first position of trajectory m + 1 moved one pitch: it bridges
      the two. */
  lemma LiftAfterBridges(cfg: Config, trs: seq<Trajectory>, width: real, m: nat, lift: Stroke)
    requires m + 1 < |trs| && |trs[m].poses| >= 1 && |trs[m + 1].poses| >= 1
    requires LiftAfter(cfg, trs, width, m) == Ok(lift)
    ensures BridgeAt(trs, width, BridgeDuration(cfg), m, lift)
  {
    LiftShape(cfg, Last(trs[m].poses), NextStart(trs, m, width), MoveDuration, lift);
    InsertedLiftSamples(cfg, Last(trs[m].poses), NextStart(trs, m, width), lift);
  }

  /** The loop of String.get_trajectory that builds the lift after every
      letter trajectory but the last (each trajectory with at least one
      sample); the first lift that cannot be built stops it. Every lift is
      the one LiftAfter describes, and bridges its two letters. */
  method StringLifts(cfg: Config, trs: seq<Trajectory>, width: real) returns (r: Result<seq<Stroke>, MotionError>)
    requires |trs| >= 1 && forall m :: 0 <= m < |trs| ==> |trs[m].poses| >= 1
    ensures r.Ok? <==> |trs| == 1 || 0.0 < cfg.liftDuration
    ensures r.Err? ==> r.error.Generator?
    ensures r.Ok? ==> |r.value| == |trs| - 1
    ensures r.Ok? ==> forall m :: 0 <= m < |r.value| ==> LiftAfter(cfg, trs, width, m) == Ok(r.value[m])
    ensures r.Ok? ==> forall m :: 0 <= m < |r.value| ==> BridgeAt(trs, width, BridgeDuration(cfg), m, r.value[m])
  {
    var lifts: seq<Stroke> := [];
    while |lifts| < |trs| - 1
      invariant |lifts| <= |trs| - 1
      invariant |lifts| > 0 ==> 0.0 < cfg.liftDuration
      invariant forall m :: 0 <= m < |lifts| ==> LiftAfter(cfg, trs, width, m) == Ok(lifts[m])
      invariant forall m :: 0 <= m < |lifts| ==> BridgeAt(trs, width, BridgeDuration(cfg), m, lifts[m])
    {
      var m := |lifts|;
      var lift := LiftAfter(cfg, trs, width, m);
      if lift.Err? {
        return Err(lift.error);
      }
      LiftAfterBridges(cfg, trs, width, m, lift.value);
      var built := lifts + [lift.value];
      assert forall j :: 0 <= j < m ==> built[j] == lifts[j];
      lifts := built;
    }
    return Ok(lifts);
  }

  /** The piece a lift contributes, starting on the clock at `at` and moved
      by the offset of the letter before it. */
  function LiftPiece(lift: Stroke, clock: LiftClock, at: real, off: Vec3): Trajectory
  {
    match clock
    case SampleTimes => Shifted(lift.traj, at, off)
    case WaypointStamps =>
      Trajectory(ShiftAll(lift.timeList, at), ShiftPoses(lift.traj.poses, off), lift.traj.vels, lift.traj.accs)
  }

  /** The loop of String.get_trajectory over the letter trajectories trs
      (with durations ds, the string from letter number idx on) and the
      lifts between them, with the clock at clockTime: each letter's piece
      moved by its offset, then (except after the last letter) the
      following lift's piece. */
  function StringPieces(trs: seq<Trajectory>, ds: seq<real>, lifts: seq<Stroke>, width: real, clock: LiftClock,
                        idx: nat, clockTime: real): (ps: seq<Trajectory>)
    requires |trs| >= 1 && |ds| == |trs| && |lifts| == |trs| - 1
    ensures |ps| == 2 * |trs| - 1
    decreases |trs|
  {
    var piece := Shifted(trs[0], clockTime, LetterOffset(width, idx));
    if |trs| == 1 then [piece]
    else
      var afterLetter := clockTime + ds[0];
      [piece, LiftPiece(lifts[0], clock, afterLetter, LetterOffset(width, idx))]
        + StringPieces(trs[1..], ds[1..], lifts[1..], width, clock, idx + 1, afterLetter + lifts[0].duration)
  }

  lemma ShiftedCongruent(a: Trajectory, b: Trajectory, t: real, u: real, off: Vec3)
    requires a == b && t == u
    ensures Shifted(a, t, off) == Shifted(b, u, off)
  {
  }

  /** Past the first letter and its lift, the pieces are those of the rest
      of the string, started after that letter and lift. */
  lemma StringPiecesTail(trs: seq<Trajectory>, ds: seq<real>, lifts: seq<Stroke>, width: real,
                         clock: LiftClock, idx: nat, clockTime: real, k: nat)
    requires |trs| >= 2 && |ds| == |trs| && |lifts| == |trs| - 1 && 2 <= k < 2 * |trs| - 1
    ensures StringPieces(trs, ds, lifts, width, clock, idx, clockTime)[k] ==
      StringPieces(trs[1..], ds[1..], lifts[1..], width, clock, idx + 1, clockTime + ds[0] + lifts[0].duration)[k - 2]
  {
  }

  /** Starting the rest of the string after the first letter and lift is
      the same clock as counting them in the prefix sums. */
  lemma ClockAfterFirst(ds: seq<real>, lifts: seq<Stroke>, clockTime: real, a: nat, b: nat)
    requires 1 <= a <= |ds| && 1 <= b <= |lifts|
    ensures clockTime + ds[0] + lifts[0].duration + PrefixSum(ds[1..], a - 1) + Elapsed(lifts[1..], b - 1)
         == clockTime + PrefixSum(ds, a) + Elapsed(lifts, b)
  {
    assert PrefixSum(ds, a) == ds[0] + PrefixSum(ds[1..], a - 1);
    assert Elapsed(lifts, b) == lifts[0].duration + Elapsed(lifts[1..], b - 1);
  }

  /** Piece 2m is letter m moved by idx + m pitches along x and started
      after the letters and lifts before it. */
  lemma {:induction false} StringPiecesLayout(trs: seq<Trajectory>, ds: seq<real>, lifts: seq<Stroke>, width: real,
                                            clock: LiftClock, idx: nat, clockTime: real, m: nat)
    requires |trs| >= 1 && |ds| == |trs| && |lifts| == |trs| - 1 && m < |trs|
    ensures StringPieces(trs, ds, lifts, width, clock, idx, clockTime)[2 * m] ==
      Shifted(trs[m], clockTime + PrefixSum(ds, m) + Elapsed(lifts, m), LetterOffset(width, idx + m))
    decreases m
  {
    if m > 0 {
      var next := clockTime + ds[0] + lifts[0].duration;
      StringPiecesLayout(trs[1..], ds[1..], lifts[1..], width, clock, idx + 1, next, m - 1);
      StringPiecesTail(trs, ds, lifts, width, clock, idx, clockTime, 2 * m);
      assert 2 * m - 2 == 2 * (m - 1);
      assert trs[1..][m - 1] == trs[m];
      ClockAfterFirst(ds, lifts, clockTime, m, m);
      assert LetterOffset(width, (idx + 1) + (m - 1)) == LetterOffset(width, idx + m);
    }
  }

  /** Piece 2m + 1 is the lift after letter m, started when that letter
      ends and moved like it. */
  lemma {:induction false} StringPiecesLiftLayout(trs: seq<Trajectory>, ds: seq<real>, lifts: seq<Stroke>, width: real,
                                                clock: LiftClock, idx: nat, clockTime: real, m: nat)
    requires |trs| >= 1 && |ds| == |trs| && |lifts| == |trs| - 1 && m + 1 < |trs|
    ensures StringPieces(trs, ds, lifts, width, clock, idx, clockTime)[2 * m + 1] ==
      LiftPiece(lifts[m], clock, clockTime + PrefixSum(ds, m + 1) + Elapsed(lifts, m), LetterOffset(width, idx + m))
    decreases m
  {
    if m > 0 {
      var next := clockTime + ds[0] + lifts[0].duration;
      StringPiecesLiftLayout(trs[1..], ds[1..], lifts[1..], width, clock, idx + 1, next, m - 1);
      StringPiecesTail(trs, ds, lifts, width, clock, idx, clockTime, 2 * m + 1);
      assert 2 * m + 1 - 2 == 2 * (m - 1) + 1;
      assert lifts[1..][m - 1] == lifts[m];
      ClockAfterFirst(ds, lifts, clockTime, m + 1, m);
      assert LetterOffset(width, (idx + 1) + (m - 1)) == LetterOffset(width, idx + m);
    }
  }

  /** When every move lasts d, the first k moves last k periods of d. */
  lemma {:induction false} ElapsedUniform(ms: seq<Stroke>, k: nat, d: real)
    requires k <= |ms|
    requires forall j :: 0 <= j < |ms| ==> ms[j].duration == d
    ensures Elapsed(ms, k) == Repeated(k, d)
  {
    if k > 0 {
      assert forall j :: 0 <= j < |ms| - 1 ==> ms[1..][j] == ms[j + 1];
      ElapsedUniform(ms[1..], k - 1, d);
      RepeatedSucc(k, k - 1, d);
    }
  }

  /** Letter piece m runs from letter m's first to its last position,
      moved by its offset. */
  lemma LetterPieceEnds(trs: seq<Trajectory>, ds: seq<real>, lifts: seq<Stroke>, width: real,
                        clock: LiftClock, idx: nat, clockTime: real, m: nat)
    requires |trs| >= 1 && |ds| == |trs| && |lifts| == |trs| - 1 && m < |trs| && |trs[m].poses| >= 1
    ensures var p := StringPieces(trs, ds, lifts, width, clock, idx, clockTime)[2 * m];
      && |p.poses| >= 1
      && p.poses[0] == Add(trs[m].poses[0], LetterOffset(width, idx + m))
      && Last(p.poses) == Add(Last(trs[m].poses), LetterOffset(width, idx + m))
  {
    StringPiecesLayout(trs, ds, lifts, width, clock, idx, clockTime, m);
  }

  /** Lift piece m runs from the lift's start to its end, moved by the
      offset of the letter before it. */
  lemma LiftPieceEnds(trs: seq<Trajectory>, ds: seq<real>, lifts: seq<Stroke>, width: real,
                      clock: LiftClock, idx: nat, clockTime: real, m: nat)
    requires |trs| >= 1 && |ds| == |trs| && |lifts| == |trs| - 1 && m + 1 < |trs| && Valid(lifts[m])
    ensures var p := StringPieces(trs, ds, lifts, width, clock, idx, clockTime)[2 * m + 1];
      && |p.poses| >= 1
      && p.poses[0] == Add(Start(lifts[m]), LetterOffset(width, idx + m))
      && Last(p.poses) == Add(End(lifts[m]), LetterOffset(width, idx + m))
  {
    StringPiecesLiftLayout(trs, ds, lifts, width, clock, idx, clockTime, m);
  }

  /** Every lift piece bridges its neighbours: it starts at the shifted last
      position of the letter piece before it and ends at the shifted first
      position of the letter piece after it. */
  lemma StringLiftsBridge(trs: seq<Trajectory>, ds: seq<real>, lifts: seq<Stroke>, width: real, d: real,
                          clock: LiftClock, m: nat)
    requires |trs| >= 1 && |ds| == |trs| && |lifts| == |trs| - 1 && m + 1 < |trs|
    requires forall j :: 0 <= j < |lifts| ==> BridgeAt(trs, width, d, j, lifts[j])
    ensures var ps := StringPieces(trs, ds, lifts, width, clock, 0, 0.0);
      |ps[2 * m].poses| >= 1 && |ps[2 * m + 1].poses| >= 1 && |ps[2 * m + 2].poses| >= 1 &&
      ps[2 * m + 1].poses[0] == Last(ps[2 * m].poses) &&
      Last(ps[2 * m + 1].poses) == ps[2 * m + 2].poses[0]
  {
    assert BridgeAt(trs, width, d, m, lifts[m]);
    LetterPieceEnds(trs, ds, lifts, width, clock, 0, 0.0, m);
    LiftPieceEnds(trs, ds, lifts, width, clock, 0, 0.0, m);
    LetterPieceEnds(trs, ds, lifts, width, clock, 0, 0.0, m + 1);
    assert 2 * (m + 1) == 2 * m + 2;
    LetterOffsetStep(width, m);
  }

  /** Shape of one piece: its velocities and accelerations match its
      positions and it has no more times than positions; with sample times
      it is well formed, and with the waypoint stamps a lift piece has
      fewer times than positions. */
  lemma StringPieceShape(trs: seq<Trajectory>, ds: seq<real>, lifts: seq<Stroke>, width: real,
                         clock: LiftClock, idx: nat, clockTime: real, k: nat)
    requires |trs| >= 1 && |ds| == |trs| && |lifts| == |trs| - 1 && AllWellFormed(trs)
    requires forall j :: 0 <= j < |lifts| ==> lifts[j].traj.WellFormed() && |lifts[j].timeList| < |lifts[j].traj.times|
    requires k < 2 * |trs| - 1
    ensures var p := StringPieces(trs, ds, lifts, width, clock, idx, clockTime)[k];
      && |p.vels| == |p.poses| && |p.accs| == |p.poses| && |p.times| <= |p.poses|
      && (clock == SampleTimes ==> p.WellFormed())
      && (clock == WaypointStamps && k % 2 == 1 ==> |p.times| < |p.poses|)
  {
    var m := k / 2;
    if k % 2 == 0 {
      assert trs[m].WellFormed();
      StringPiecesLayout(trs, ds, lifts, width, clock, idx, clockTime, m);
    } else {
      assert lifts[m].traj.WellFormed() && |lifts[m].timeList| < |lifts[m].traj.times|;
      StringPiecesLiftLayout(trs, ds, lifts, width, clock, idx, clockTime, m);
    }
  }

  /** Shape of the pieces: with sample times every piece is well formed;
      with the waypoint stamps the first lift piece has fewer times than
      positions. */
  lemma StringPiecesShape(trs: seq<Trajectory>, ds: seq<real>, lifts: seq<Stroke>, width: real,
                          clock: LiftClock, idx: nat, clockTime: real)
    requires |trs| >= 1 && |ds| == |trs| && |lifts| == |trs| - 1 && AllWellFormed(trs)
    requires forall j :: 0 <= j < |lifts| ==> lifts[j].traj.WellFormed() && |lifts[j].timeList| < |lifts[j].traj.times|
    ensures var ps := StringPieces(trs, ds, lifts, width, clock, idx, clockTime);
      forall k :: 0 <= k < |ps| ==>
        |ps[k].vels| == |ps[k].poses| && |ps[k].accs| == |ps[k].poses| && |ps[k].times| <= |ps[k].poses|
    ensures clock == SampleTimes ==> AllWellFormed(StringPieces(trs, ds, lifts, width, clock, idx, clockTime))
    ensures clock == WaypointStamps && |trs| >= 2 ==>
      var ps := StringPieces(trs, ds, lifts, width, clock, idx, clockTime);
      |ps[1].times| < |ps[1].poses|
  {
    var ps := StringPieces(trs, ds, lifts, width, clock, idx, clockTime);
    forall k | 0 <= k < |ps|
      ensures |ps[k].vels| == |ps[k].poses| && |ps[k].accs| == |ps[k].poses| && |ps[k].times| <= |ps[k].poses|
      ensures clock == SampleTimes ==> ps[k].WellFormed()
    {
      StringPieceShape(trs, ds, lifts, width, clock, idx, clockTime, k);
    }
    if |trs| >= 2 {
      StringPieceShape(trs, ds, lifts, width, clock, idx, clockTime, 1);
    }
  }

  /** The concatenated pieces: well formed with sample times; with the
      waypoint stamps and at least two letters, fewer times than positions. */
  lemma StringConcatShape(trs: seq<Trajectory>, ds: seq<real>, lifts: seq<Stroke>, width: real, clock: LiftClock)
    requires |trs| >= 1 && |ds| == |trs| && |lifts| == |trs| - 1 && AllWellFormed(trs)
    requires forall j :: 0 <= j < |lifts| ==> lifts[j].traj.WellFormed() && |lifts[j].timeList| < |lifts[j].traj.times|
    ensures var tr := Concat(StringPieces(trs, ds, lifts, width, clock, 0, 0.0));
      clock == SampleTimes ==> tr.WellFormed()
    ensures var tr := Concat(StringPieces(trs, ds, lifts, width, clock, 0, 0.0));
      clock == WaypointStamps && |trs| >= 2 ==> |tr.times| < |tr.poses|
  {
    var ps := StringPieces(trs, ds, lifts, width, clock, 0, 0.0);
    StringPiecesShape(trs, ds, lifts, width, clock, 0, 0.0);
    if clock == SampleTimes {
      ConcatWellFormed(ps);
    }
    if clock == WaypointStamps && |trs| >= 2 {
      TotalLengthLess(TimesOf(ps), PosesOf(ps), 1);
      FlattenLength(TimesOf(ps));
      FlattenLength(PosesOf(ps));
    }
  }

  /** String.get_trajectory with a choice of lift clock: it fails only for
      an empty string or a non-positive lift duration between letters. With
      sample times on the lifts the four arrays have matching lengths; with
      the lifts' waypoint stamps and at least two letters there are fewer
      times than positions. */
  method StringTrajectoryWith(cfg: Config, s: String, clock: LiftClock)
    returns (r: Result<Trajectory, MotionError>, lifts: seq<Stroke>)
    requires AllValidLetters(s.letters)
    ensures |s.letters| == 0 ==> r == Err(NoLetters)
    ensures r.Ok? <==> |s.letters| == 1 || (|s.letters| >= 2 && 0.0 < cfg.liftDuration)
    ensures r.Err? && |s.letters| >= 1 ==> r.error.Generator?
    ensures r.Ok? ==> |lifts| == |s.letters| - 1
    ensures r.Ok? ==>
      r.value == Concat(StringPieces(LetterTrajectories(s.letters), LetterDurations(s.letters), lifts, s.width, clock, 0, 0.0))
    ensures r.Ok? ==> forall m :: 0 <= m < |lifts| ==>
      BridgeAt(LetterTrajectories(s.letters), s.width, BridgeDuration(cfg), m, lifts[m])
    ensures r.Ok? && clock == SampleTimes ==> r.value.WellFormed()
    ensures r.Ok? && clock == WaypointStamps && |s.letters| >= 2 ==> |r.value.times| < |r.value.poses|
  {
    if |s.letters| == 0 {
      return Err(NoLetters), [];
    }
    r, lifts := AssembleString(cfg, LetterTrajectories(s.letters), LetterDurations(s.letters), s.width, clock);
  }

  /** The body of String.get_trajectory for letter trajectories trs with
      durations ds: build the lifts between neighbours (the first that
      cannot be built stops it), then concatenate the letter and lift
      pieces in order. It fails only when a lift is needed and cannot be
      built. With sample times on the lifts the four arrays have matching
      lengths; with the lifts' waypoint stamps and at least two letters
      there are fewer times than positions. */
  method AssembleString(cfg: Config, trs: seq<Trajectory>, ds: seq<real>, width: real, clock: LiftClock)
    returns (r: Result<Trajectory, MotionError>, lifts: seq<Stroke>)
    requires |trs| >= 1 && |ds| == |trs| && AllWellFormed(trs)
    requires forall m :: 0 <= m < |trs| ==> |trs[m].poses| >= 1
    ensures r.Ok? <==> |trs| == 1 || 0.0 < cfg.liftDuration
    ensures r.Err? ==> r.error.Generator?
    ensures r.Ok? ==> |lifts| == |trs| - 1 && r.value == Concat(StringPieces(trs, ds, lifts, width, clock, 0, 0.0))
    ensures r.Ok? ==> forall m :: 0 <= m < |lifts| ==> BridgeAt(trs, width, BridgeDuration(cfg), m, lifts[m])
    ensures r.Ok? && clock == SampleTimes ==> r.value.WellFormed()
    ensures r.Ok? && clock == WaypointStamps && |trs| >= 2 ==> |r.value.times| < |r.value.poses|
  {
    var built := StringLifts(cfg, trs, width);
    if built.Err? {
      return Err(built.error), [];
    }
    lifts := built.value;
    forall j | 0 <= j < |lifts|
      ensures lifts[j].traj.WellFormed() && |lifts[j].timeList| < |lifts[j].traj.times|
    {
      assert BridgeAt(trs, width, BridgeDuration(cfg), j, lifts[j]);
    }
    StringConcatShape(trs, ds, lifts, width, clock);
    r := Ok(Concat(StringPieces(trs, ds, lifts, width, clock, 0, 0.0)));
  }

  /** With lifts of uniform duration d, letter piece m starts after the
      letters before it and m lifts, m pitches along x. */
  lemma StringPiecesLetter(trs: seq<Trajectory>, ds: seq<real>, lifts: seq<Stroke>, width: real, d: real,
                           clock: LiftClock, m: nat)
    requires |trs| >= 1 && |ds| == |trs| && |lifts| == |trs| - 1 && m < |trs|
    requires forall j :: 0 <= j < |lifts| ==> lifts[j].duration == d
    ensures StringPieces(trs, ds, lifts, width, clock, 0, 0.0)[2 * m] ==
      Shifted(trs[m], PrefixSum(ds, m) + Repeated(m, d), LetterOffset(width, m))
  {
    ElapsedUniform(lifts, m, d);
    StringPiecesLayout(trs, ds, lifts, width, clock, 0, 0.0, m);
    ShiftedCongruent(trs[m], trs[m], 0.0 + PrefixSum(ds, m) + Elapsed(lifts, m),
      PrefixSum(ds, m) + Repeated(m, d), LetterOffset(width, m));
  }

  /** String.get_trajectory as written: lift pieces carry the lift's four
      waypoint stamps next to its full sampled positions. Every string of
      two or more letters whose lifts can be built (a positive lift
      duration) therefore comes back with a time array shorter than its
      position array. */
  method StringTrajectoryAsWritten(cfg: Config, s: String) returns (r: Result<Trajectory, MotionError>)
    requires AllValidLetters(s.letters)
    ensures |s.letters| == 0 ==> r == Err(NoLetters)
    ensures r.Ok? <==> |s.letters| == 1 || (|s.letters| >= 2 && 0.0 < cfg.liftDuration)
    ensures |s.letters| >= 2 && 0.0 < cfg.liftDuration ==> r.Ok? && |r.value.times| < |r.value.poses|
  {
    var lifts;
    r, lifts := StringTrajectoryWith(cfg, s, WaypointStamps);
  }

  /** String.get_trajectory with each lift's sample times: it fails only
      for an empty string or a non-positive lift duration between letters,
      and its four arrays always have matching lengths. On success it is
      the letter and lift pieces laid end to end, and `lifts` are the
      lifts it inserted, each bridging its two letters. */
  method StringTrajectory(cfg: Config, s: String) returns (r: Result<Trajectory, MotionError>, lifts: seq<Stroke>)
    requires AllValidLetters(s.letters)
    ensures |s.letters| == 0 ==> r == Err(NoLetters)
    ensures r.Ok? <==> |s.letters| == 1 || (|s.letters| >= 2 && 0.0 < cfg.liftDuration)
    ensures r.Ok? ==> r.value.WellFormed()
    ensures r.Ok? ==> |lifts| == |s.letters| - 1
    ensures r.Ok? ==>
      r.value == Concat(StringPieces(LetterTrajectories(s.letters), LetterDurations(s.letters), lifts, s.width, SampleTimes, 0, 0.0))
    ensures r.Ok? ==> forall m :: 0 <= m < |lifts| ==>
      BridgeAt(LetterTrajectories(s.letters), s.width, BridgeDuration(cfg), m, lifts[m])
  {
    r, lifts := StringTrajectoryWith(cfg, s, SampleTimes);
  }
}
