# Pen-writing arm: trajectory, motion composition and IK decisions in Dafny

This project models the core of a pen-writing robot arm (MAEG3060). The
arm writes letters by following sampled Cartesian trajectories and turns
each pose into six joint angles.

It covers three parts:

- **Trajectory generators.** Two generators turn waypoints and their
  times into a uniformly sampled trajectory: the cubic generator with
  averaged interior velocities and the parabolic-blend generator. Both
  cover validation, the `np.linspace` grid, the segment search and
  per-axis evaluation. `Sampling` holds what the two share;
  `CubicTrajectory` and `ParabolicTrajectory` hold the rest.
- **Motion composition** (`Motion`, `Sections`):
  - A `Stroke` is sampled at 50 Hz by a cubic generator held to the stroke contract.
  - A `Lift` raises the pen, moves and lowers it.
  - A `Letter` inserts lifts between strokes that do not meet, checks
    connectivity and concatenates its moves on a running clock.
  - A `String` lays letters out along x, with a lift between neighbours.
  - The 2-D preview splits a pose list into sections.
- **Inverse kinematics decisions** (`InverseKinematics`, `PerJointIk`):
  - the elbow-sign choice;
  - the conversion between real and effective elbow angles;
  - enumeration and filtering of the eight wrist branches;
  - the earliest-minimum selection against the previous configuration;
  - angle wrapping.

  `PerJointIk` is the per-joint variant in `test_ik.py`.

Trigonometric functions, π and the base-to-frame-3 rotation are
parameters (the `Trig` record and `r03`), so every IK property holds
whatever their values are. `arccos` is a partial function defined on
[-1, 1]. The model therefore only verifies because every `arccos`
argument is clipped first.

Reals are exact. Errors that the Python raises (`ValueError`, failed
`assert`s, indexing an empty list) are values of `Result`/`Option`
(module `Results`).

Wrapping moves an angle by one turn toward zero once its magnitude
exceeds π − 0.01. For angles within three half turns of zero the result
lies strictly within 0.01 of [−π, π] (`Wrap`). It does not always lie
inside [−π, π]: π − 0.005 becomes −π − 0.005, and wrapping that value
again gives back π − 0.005 (`WrapCrossesMinusPi`).

Concatenating a letter's moves keeps the repeated sample at each seam:
the last sample of one move and the first sample of the next have the
same time and position (`LetterSeamRepeatsSample`).

## Model

| member | source | states |
|---|---|---|
| Sampling.CheckInputs | libs/trajectory_generation_cubic_avg_vel.py:8-13 | The inputs are accepted exactly when lengths match, there are at least two waypoints and the times strictly increase. A length mismatch is reported first, then too few waypoints, then non-increasing times. |
| Sampling.Trunc | libs/trajectory_generation_cubic_avg_vel.py:16 | `int()` truncates toward zero. A non-negative x gives r ≤ x < r + 1; a negative x gives r − 1 < x ≤ r. |
| Sampling.SampleCountPositive | libs/trajectory_generation_cubic_avg_vel.py:15-16 | A positive duration at a positive frequency yields at least one sample. It yields at least two exactly when duration × frequency ≥ 1. |
| Sampling.Linspace | libs/trajectory_generation_cubic_avg_vel.py:17 | There are n evenly spaced points. The first is a; when n ≥ 2 the last is exactly b. For a ≤ b every point lies in [a, b]. |
| Sampling.Grid | libs/trajectory_generation_cubic_avg_vel.py:15-17 | It fails with NegativeSampleCount exactly when the sample count is negative, and otherwise has that many points, the first at the first waypoint time and, with two or more points, the last at the last waypoint time. |
| Sampling.FindSegment | libs/trajectory_generation_cubic_avg_vel.py:60-66 | It finds the first segment whose closed interval contains t. It finds nothing only when no segment contains t. |
| Sampling.FindSegmentCovers | libs/trajectory_generation_cubic_avg_vel.py:58-61 | Every time between the first and last waypoint lies in some segment. |
| Sampling.FindSegmentAtWaypoint | libs/trajectory_generation_cubic_avg_vel.py:60-61 | At waypoint j > 0 the search stops on segment j − 1, the segment ending there. At waypoint 0 it stops on segment 0. |
| Sampling.Assemble | libs/trajectory_generation_cubic_avg_vel.py:58-65 | The four output arrays have one entry per grid time. Coordinate k of each sample is axis k evaluated at that time. |
| CubicTrajectory.CubicTaylor | libs/trajectory_generation_cubic_avg_vel.py:63-65 | The velocity and acceleration formulas are the first and second derivatives of the position cubic, as an exact Taylor expansion. |
| CubicTrajectory.Hermite | libs/trajectory_generation_cubic_avg_vel.py:46-49 | The c and d coefficients make the segment start at p0 with velocity v0 and end at p1 with velocity v1. |
| CubicTrajectory.WaypointVelocities | libs/trajectory_generation_cubic_avg_vel.py:31-38 | Velocity is zero at both ends. Each interior velocity is the mean of the incoming and outgoing secant slopes, so it lies between them. |
| CubicTrajectory.UniformMotionVelocities | libs/trajectory_generation_cubic_avg_vel.py:35-38 | Waypoints taken from a constant-speed motion get exactly that speed at every interior waypoint. |
| CubicTrajectory.Segment | libs/trajectory_generation_cubic_avg_vel.py:41-49 | Segment i starts at waypoint i with that waypoint's assigned velocity. |
| CubicTrajectory.EvalAtWaypoint | libs/trajectory_generation_cubic_avg_vel.py:58-66 | At each waypoint's time the sampled axis is at that waypoint, with its assigned velocity. |
| CubicTrajectory.ContinuousAtWaypoint | libs/trajectory_generation_cubic_avg_vel.py:58-66 | At each interior waypoint, the sample taken there agrees in position and velocity with the start of the next segment. |
| CubicTrajectory.Generate | libs/trajectory_generation_cubic_avg_vel.py:3-68 | Invalid input raises the first failing check's error. Otherwise the arrays are well formed on the linspace grid and the first sample is the first waypoint at rest. With two or more samples, the last sample is the last waypoint at rest. Each sample's position, velocity and acceleration on axis k are that axis's cubic evaluated at the sample's time. |
| CubicTrajectory.AxesIndependent | libs/trajectory_generation_cubic_avg_vel.py:24-25 | Output axis k depends only on coordinate k of the waypoints. |
| ParabolicTrajectory.SegmentEndpoints | libs/trajectory_generation_parabolic.py:59-75 | With 0 < t_b < h, a segment starts at its first waypoint and ends at its second, at rest at both ends. |
| ParabolicTrajectory.BlendJunctionsContinuous | libs/trajectory_generation_parabolic.py:43-75 | With 0 < t_b and 2·t_b ≤ h, position and velocity agree across both blend junctions under the source's acceleration formula. |
| ParabolicTrajectory.PhaseTaylor | libs/trajectory_generation_parabolic.py:59-75 | Within each phase the acceleration is constant (acc, 0, −acc). It is the second derivative of the phase's position. |
| ParabolicTrajectory.EvalAtWaypoint | libs/trajectory_generation_parabolic.py:48-76 | With a blend time shorter than every segment, the path passes through every waypoint at its time, at rest. |
| ParabolicTrajectory.Generate | libs/trajectory_generation_parabolic.py:6-78 | Invalid waypoints raise the first failing check's error; valid waypoints with a negative sample count give NegativeSampleCount, and otherwise a failure is DegenerateBlend, exactly where t_b² − h·t_b = 0. On success the arrays are well formed and each sample's position, velocity and acceleration are the three-phase evaluation of each axis. With a blend time shorter than every segment, the first sample is the first waypoint at rest, and with two or more samples the last sample is the last waypoint at rest. |
| Motion.CubicStrokes | libs/trajectory_generation.py:6-25 | The averaged-velocity cubic generator at 50 Hz keeps the stroke generator's promise. It accepts exactly two or more waypoints with strictly increasing times. It then samples the whole span, starting at the first waypoint at rest and, once there are two samples, ending at the last waypoint at rest. |
| Motion.StrokeSamples | classes/base_letters.py:26-33 | A constructed stroke is anchored: it starts at its first waypoint. It has two or more samples once duration × 50 ≥ 1, and then ends at its last waypoint. |
| Motion.MakeStroke | classes/base_letters.py:24-33 | Construction succeeds exactly for two or more strictly increasing times, and otherwise fails in the generator. The stroke keeps its waypoints, times and kind, and starts at its first waypoint. |
| Motion.MakeStrokeSampled | classes/base_letters.py:24-33 | A constructed stroke's samples are the configured generator's output for its own waypoints and times. Its duration is the last time minus the first, and it is anchored to its waypoints. |
| Motion.NewStroke | classes/base_letters.py:20-33 | A waypoint outside the box (x and y in [0, W], z = 0) fails first, then a length mismatch, then the generator's checks. A successful stroke is sampled and anchored. With the averaged-velocity cubic generator configured, its samples are exactly that generator's 50 Hz output. |
| Motion.LiftAsWritten | classes/base_letters.py:55-59 | A lift built through Stroke's constructor fails the box assertion for every non-zero lift height. |
| Motion.NewLift | classes/base_letters.py:55-59 | A lift exists exactly when both leg durations are positive. It starts at `start` and lasts 2·lift_duration + move_duration. |
| Motion.LiftShape | classes/base_letters.py:55-58 | A lift passes through start, start raised, end raised and end at times 0, ld, ld + move and 2·ld + move. With two or more samples it ends at `end`. |
| Motion.InsertedLiftSamples | classes/base_letters.py:81-85 | Every inserted lift has at least 51 samples and ends exactly at its end pose. |
| Motion.RepeatedIsProduct | classes/base_letters.py:151 | A pitch added up n times equals n × pitch (`idx * letter_width`). |
| Motion.GapsZero | classes/base_letters.py:79 | There is no gap before stroke i exactly when every earlier neighbour pair meets. |
| Motion.GapBridges | classes/base_letters.py:77-87 | The loop gets through every gap exactly when every lift it needs can be built. Its result gives, in order, each stroke's bridging lift or nothing. |
| Motion.GapBridgesOk | classes/base_letters.py:77-87 | The loop succeeds exactly when there is no gap or the lift duration is positive, and can only fail in the generator. |
| Motion.GapBridgesFit | classes/base_letters.py:79-86 | A lift is added exactly after each stroke whose end differs from the next stroke's start. Each such lift lasts the bridge duration and joins both neighbours. |
| Motion.InsertLifts | classes/base_letters.py:76-87 | The moves are connected, start with the first stroke and end with the last. There are as many moves as strokes plus gaps. |
| Motion.InsertLiftsLayout | classes/base_letters.py:76-87 | Stroke i sits at move i + (gaps before i). The next move is the bridging lift when strokes i and i + 1 are disjoint, otherwise stroke i + 1. |
| Motion.InsertLiftsDuration | classes/base_letters.py:98 | The moves last as long as the strokes plus one bridge duration per gap. |
| Motion.NewLetter | classes/base_letters.py:72-98 | A name that is not one character fails, then an empty stroke list. The connectivity assertion never fails. Success is exactly one character, at least one stroke, and lifts that can be built. |
| Motion.LetterDuration | classes/base_letters.py:98 | A letter lasts the sum of its strokes plus one bridge duration per inserted lift. |
| Motion.ShiftPosesUndo | classes/base_letters.py:155 | Moving positions by an offset and then back by the same offset restores every position: the shift adds, drops and reorders nothing. |
| Motion.ConcatWellFormed | classes/base_letters.py:121-124 | Concatenating well-formed pieces gives a well-formed trajectory whose length is the sum of the pieces' lengths. |
| Motion.ConcatLayout | classes/base_letters.py:121-124 | Sample j of piece k sits unchanged at offset(k) + j of all four arrays. |
| Motion.MovePieces | classes/base_letters.py:110-118 | There is one well-formed piece per move, with the move's sample count. |
| Motion.LetterTrajectory | classes/base_letters.py:100-125 | The letter's trajectory is well formed and non-empty. It starts at the first move's start and ends at the last move's end. |
| Motion.LetterTrajectoryLayout | classes/base_letters.py:109-124 | Sample j of move k appears at SampleStart(k) + j, its time advanced by the earlier moves' durations and its position, velocity and acceleration unchanged. Nothing is dropped. |
| Motion.LetterSeamRepeatsSample | classes/base_letters.py:110-124 | For anchored moves on clocks that start at the same value, the seam repeats a sample: equal time and position on both sides. |
| Motion.LetterOffsetStep | classes/base_letters.py:151 | Consecutive letters are exactly one pitch apart along x. |
| Motion.LiftAfterBridges | classes/base_letters.py:162-167 | A built lift after letter m starts at that letter's last position and ends at letter m + 1's first position moved one pitch along x. It lasts 2·lift_duration + 1 and has at least 51 samples against 4 waypoint stamps. |
| Motion.StringLifts | classes/base_letters.py:161-167 | The lifts exist exactly when there is at most one letter or the lift duration is positive; otherwise the generator fails. There is one lift per pair of neighbours, and lift m is the lift from letter m's last position to letter m + 1's first position moved one pitch. |
| Motion.StringPieces | classes/base_letters.py:150-173 | The loop emits 2n − 1 pieces for n letters. |
| Motion.StringPiecesLayout | classes/base_letters.py:150-159 | Piece 2m is letter m moved by its pitch offset and started after the earlier letters and lifts. |
| Motion.StringPiecesLiftLayout | classes/base_letters.py:159-173 | Piece 2m + 1 is the lift after letter m, started when that letter ends and moved by the same offset. |
| Motion.StringPiecesLetter | classes/base_letters.py:150-159 | When every lift lasts d, letter m is its own trajectory moved m pitches along x and started after the letters before it plus m·d. |
| Motion.StringLiftsBridge | classes/base_letters.py:163-169 | Each lift piece starts where the letter piece before it ends and ends where the letter piece after it starts. |
| Motion.StringPiecesShape | classes/base_letters.py:168-171 | With sample times every piece is well formed. With the four waypoint stamps the first lift piece has fewer times than positions. |
| Motion.StringConcatShape | classes/base_letters.py:175-179 | The concatenation is well formed with sample times. With waypoint stamps and two or more letters it has fewer times than positions. |
| Motion.StringTrajectoryWith | classes/base_letters.py:140-180 | An empty string fails (nothing to concatenate). Otherwise the string fails only in the generator, when a lift is needed and the lift duration is not positive. On success the result is the letter and lift pieces in order, and every returned lift bridges its two letters. |
| Motion.AssembleString | classes/base_letters.py:144-180 | It fails exactly when a lift is needed and the lift duration is not positive. On success the result is the letter and lift pieces in order, each returned lift bridges its two letters, the result is well formed with sample times, and with waypoint stamps and two or more letters it has fewer times than positions. |
| Motion.StringTrajectoryAsWritten | classes/base_letters.py:168 | As written, every string of two or more letters whose lifts can be built (positive lift duration) succeeds with fewer times than positions. An empty string fails, and a single letter always succeeds. |
| Motion.StringTrajectory | classes/base_letters.py:140-180 | With the lifts' sample times the four arrays always match in length. Failure happens only for an empty string or a needed lift that cannot be built. On success the trajectory is the letter and lift pieces in order, and every inserted lift bridges its two letters. |
| Sections.SplitRuns | classes/base_letters.py:194-204 | The sections are the maximal runs of kept samples: ordered, separated, bounded by dropped samples or the list ends, and covering every kept sample. Laid end to end they are exactly the kept samples in order. |
| Sections.CoveredIffKept | classes/base_letters.py:196-204 | A sample lies in a section exactly when it is kept. |
| Sections.PenUpSections | classes/base_letters.py:193-204 | As written, the sections are the slices of the maximal runs of non-zero-height samples: non-empty, in order, separated by written samples, and together exactly the lifted samples. |
| Sections.PenDownSections | classes/base_letters.py:184-189 | As documented, the sections are the slices of the maximal runs of pen-down (z = 0) samples: non-empty, in order, separated by lifted samples, and together exactly the pen-down samples. |
| Sections.PenUpDrawsOnlyTheLift | classes/base_letters.py:186-204 | For a written sample followed by a lifted one, the code draws only the lifted sample; the documented behaviour draws only the written one. |
| InverseKinematics.Clip | libs/inverse_kinematics.py:81 | The result lies in [−1, 1]. It is the input when the input is in range, and the nearer bound otherwise. |
| InverseKinematics.AngleDistBounds | libs/inverse_kinematics.py:5-13 | Lists of different lengths fail the assertion and lists of equal length never do. When sin² + cos² = 1, the distance of n angle pairs lies in [−n, n]. |
| InverseKinematics.AngleDistSymmetric | libs/inverse_kinematics.py:5-13 | The distance is symmetric in its arguments. |
| InverseKinematics.AngleDistSelf | libs/inverse_kinematics.py:5-13 | When sin² + cos² = 1, a configuration of n angles is at distance −n from itself, the least distance any configuration can have from it. |
| InverseKinematics.ChooseSign | libs/inverse_kinematics.py:25-29 | The result is ± the arccos value and no farther (in \|Δsin\| + \|Δcos\|) from the previous angle than either sign. It is negated only when that is strictly closer. Without a previous angle the arccos value is kept. |
| InverseKinematics.BaseIkSec1 | libs/inverse_kinematics.py:16-35 | θ1 points at the target. θ3 is ± the clipped-arccos elbow angle: the positive value without a previous angle, otherwise no farther from it (in \|Δsin\| + \|Δcos\|) than either sign and negated exactly when the negation is strictly closer. θ2 is the shoulder angle solved for that signed elbow. |
| InverseKinematics.EffectiveElbowInvolution | libs/inverse_kinematics.py:46-51 | Converting twice gives back the angle, so the conversion of the previous elbow angle at line 46 and of the result at line 51 are mutual inverses. |
| InverseKinematics.IkSec1 | libs/inverse_kinematics.py:38-53 | Converted back to effective form, the elbow is ± the arccos value: the positive value without a previous angle, otherwise no farther from the converted previous elbow angle than either sign and negated exactly when the negation is strictly closer. θ2 = π/2 − φ1 − α2. |
| InverseKinematics.WristCentre | test_ik.py:52-55 | The wrist centre is the target minus 123 times the third column of the target rotation. |
| InverseKinematics.WristCandidates | libs/inverse_kinematics.py:83-90 | There are eight candidates from {θ4, θ4+π} × {θ5, −θ5} × {θ6, θ6+π}, θ4 outermost and θ6 innermost. |
| InverseKinematics.KeptWrists | libs/inverse_kinematics.py:87-99 | At most eight candidates are kept. A candidate is kept exactly when all four residuals are within 1e-10. |
| InverseKinematics.FirstKept | libs/inverse_kinematics.py:109-111 | Without a previous configuration the chosen branch is the first candidate, in enumeration order, that passes the checks. |
| InverseKinematics.ClosestWrist | libs/inverse_kinematics.py:101-108 | The choice is the earliest kept candidate of minimal angle distance to prev[3:]. With no candidate nothing is chosen. |
| InverseKinematics.Wrap | libs/inverse_kinematics.py:113-118 | The result names the same direction: it differs from θ by 0 or ±2π. An angle with \|θ\| ≤ π − 0.01 is unchanged; beyond that a positive angle loses a turn and a non-positive one gains a turn. For \|θ\| ≤ 3π the result lies strictly within 0.01 of [−π, π]. |
| InverseKinematics.WrapCrossesMinusPi | libs/inverse_kinematics.py:113-118 | π − 0.005 wraps to −π − 0.005, outside [−π, π], and wraps back. |
| InverseKinematics.WrapAll | libs/inverse_kinematics.py:114-118 | No angle is added or lost, each keeps its direction (changes by 0 or ±2π), angles within π − 0.01 of zero are unchanged, and angles within 3π end within 0.01 of [−π, π]. |
| InverseKinematics.Ik | libs/inverse_kinematics.py:56-120 | A previous configuration without six angles fails. No surviving branch is an error. Otherwise the result is the six wrapped angles: the arm solved at the wrist centre, then the first branch (no previous configuration) or the earliest closest branch. |
| PerJointIk.PiShift | test_ik.py:78-80 | The final θ4 is one of θ4₀, θ4₀ − π, θ4₀ + π, and no farther from prev[3] than any of them. |
| PerJointIk.PiShiftFirstNearest | test_ik.py:78-83 | Ties keep the earlier shift: the loop picks the first nearest of the three. |
| PerJointIk.ChooseWrist | test_ik.py:73-83 | Without a previous configuration the raw wrist angles are kept. Otherwise θ5 is ± the raw θ5, no farther from prev[4] than either sign and negated only when that is strictly closer, and θ4 and θ6 are the first π-shifts, in loop order, nearest prev[3] and prev[5]. |
| PerJointIk.PerJointIk | test_ik.py:45-91 | The only failure is a previous configuration without six angles. |
| PerJointIk.PerJointIkArm | test_ik.py:57-91 | With a valid or no previous configuration the solver succeeds with six angles. The first three are the arm solution's angles, wrapped. Without a previous configuration the last three are the first wrist solution's angles, wrapped. |
| PerJointIk.PerJointIkWrist | test_ik.py:67-91 | With a previous configuration, before the wrap θ4 and θ6 are the first π-shifts of the first wrist solution nearest prev[3] and prev[5], and θ5 is ± the first solution's θ5, no farther from prev[4] on the unit circle than either sign and negated only when that is strictly closer. |

## Left out

- Plotting in `get_2d_visualization` (figure, plot, scatter, savefig) is not modelled; only the section split is.
- The type and shape assertions (`isinstance`, `.shape == (3,)`, `hasattr`) are not modelled. The Dafny types already rule those inputs out.
- Forward kinematics, `get_T` and the DH tables (`test_fk.py`, `libs/forward_kinematics`) are not part of this model. R_0_3 is the parameter `r03`. This also absorbs the one difference between the two IK variants' DH tables (the first row's offset, 159 against 0).
- The numerical values of sin, cos, atan2 and arccos are not modelled, and neither is an FK∘IK round trip. These are trigonometric floating-point numerics.
- φ1, φ2, l2 and l3 are the fields of `Arm`. `ValidArm` asks only that the lengths are positive, which the source's constants are.
- Floating point is not modelled. The 1e-10 residual checks and the 0.01 wrap margin are exact comparisons on reals. The `np.isclose` fallback of the cubic segment search reduces to its exact closed-interval test.
- `libs/trajectory_generation.py` has only a signature and a docstring (cubic, at rest at both ends). The stroke generator is therefore the `generate` field of `Config`, held to `StrokeContract`: 50 Hz sampling over the whole span, at rest at both ends. `Motion.CubicStrokes`, the averaged-velocity cubic generator, meets that contract.
- The values in the `const` module (box size, lift height, lift duration) are not known, so they are the `Config` parameter.
- The letter fixtures in `classes/letters.py` and `main.py` are not modelled. They are data and a script that calls the modelled code.
- ParabolicTrajectory.Generate: where the source divides by t_b² − h·t_b = 0, numpy produces inf or nan. The model returns DegenerateBlend instead.
- Motion.NewLetter: the comparisons at classes/base_letters.py:79, 92 and 94 apply `if`/`assert` to elementwise numpy comparisons. Those raise for 3-vectors. The model reads them as whole-vector equality, which is what the code evidently means.
- Motion.NewLetter: the lifts it inserts between disjoint strokes are built with the corrected `Motion.NewLift`, which has no box check. In the source every such lift fails Stroke's box assertion whenever the lift height is non-zero (`Motion.LiftAsWritten`), so a letter with a gap cannot be built there.
- Motion.StringLifts: the lifts between letters are built with the corrected `Motion.NewLift` too. In the source any string of two or more letters fails the same box assertion whenever the lift height is non-zero.
- Motion.StringTrajectoryAsWritten: `lift.time_list` is a Python list, so `lift.time_list + global_time` at classes/base_letters.py:168 would raise a TypeError. The model reads it as a numpy array of the four stamps, which shows the length mismatch the line produces.
- InverseKinematics.Ik: with a previous configuration and no surviving wrist branch, the source goes on with the candidate lists and fails while building the result array. The model reports NoWristBranch, as it does without a previous configuration.

## Findings

| source | as written | input that shows it | evidently intended | confidence | as-written member | corrected member |
|---|---|---|---|---|---|---|
| classes/base_letters.py:55-59 | Lift passes raised waypoints (z = lift height) to Stroke's constructor, whose box assertion demands z = 0 | any lift with a non-zero lift height, for example the lifts a letter such as H needs | lifts are exempt from the pen-down box | not executed | Motion.LiftAsWritten | Motion.NewLift |
| classes/base_letters.py:168 | a lift piece takes `lift.time_list` (four waypoint stamps) beside its sampled positions (at least 51) | any string of two letters whose lift can be built | the lift's sample times, so the four arrays stay aligned | not executed | Motion.StringTrajectoryAsWritten | Motion.StringTrajectory |
| classes/base_letters.py:196-204 | the preview keeps the runs of samples with non-zero height and drops the written ones | a written sample at z = 0 followed by a lifted sample at z = 5 | drop the lifted samples and draw the pen-down runs, as the docstring says | not executed; the comment on line 193 can be read either way | Sections.PenUpSections | Sections.PenDownSections |
