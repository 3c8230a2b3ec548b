/** The per-joint variant of the inverse kinematics (test_ik.py). The arm
    part and the first wrist solution are computed as in the library
    version; instead of enumerating and filtering wrist branches, each
    wrist joint is moved independently toward the previous configuration:
    θ5 by the elbow-style sign choice and θ4, θ6 by the nearest of three
    π-shifts. */
module PerJointIk {
  import opened Results
  import opened Geometry
  import opened Seqs
  import opened InverseKinematics

  /** The three values a π-shift loop considers, in loop order. */
  function PiShifts(x: real, pi: real): seq<real>
  {
    [x, x - pi, x + pi]
  }

  /** One loop step: the candidate replaces the current value only when it
      is strictly closer to the target than the current value. */
  function Improve(cur: real, cand: real, target: real): real
  {
    if Abs(cand - target) < Abs(cur - target) then cand else cur
  }

  /** r is one of the three π-shifts of x and at least as close to the
      target as each of them. */
  predicate NearestShift(r: real, x: real, target: real, pi: real)
  {
    && r in PiShifts(x, pi)
    && forall j :: 0 <= j < 3 ==> Abs(r - target) <= Abs(PiShifts(x, pi)[j] - target)
  }

  /** The π-shift loop over [x, x − π, x + π], each candidate compared with
      the value updated so far. The result is one of the three shifts and
      at least as close to the target as each of them. */
  function PiShift(x: real, target: real, pi: real): (r: real)
    ensures NearestShift(r, x, target, pi)
  {
    var cands := PiShifts(x, pi);
    Improve(Improve(Improve(x, cands[0], target), cands[1], target), cands[2], target)
  }

  /** r is the first of the three π-shifts of x that is nearest to the
      target, in loop order. */
  predicate FirstNearestShift(r: real, x: real, target: real, pi: real)
  {
    r == PiShifts(x, pi)[ArgMinFirst(PiShifts(x, pi), c => Abs(c - target))]
  }

  /** Because the comparison is strict, ties keep the earlier shift: the
      loop picks the first nearest candidate. */
  lemma PiShiftFirstNearest(x: real, target: real, pi: real)
    ensures FirstNearestShift(PiShift(x, target, pi), x, target, pi)
  {
    var cands := PiShifts(x, pi);
    var cost := c => Abs(c - target);
    var i := ArgMinFirst(cands, cost);
    var r := PiShift(x, target, pi);
    var j :| 0 <= j < 3 && cands[j] == r;
    assert cost(cands[i]) == cost(r) by {
      assert cost(cands[i]) <= cost(cands[j]);
    }
  }

  /** The wrist angles after the per-joint choice. Without a previous
      configuration the first solution is kept; otherwise θ5 takes the sign
      closest to prev[4] on the unit circle, negated only when that is
      strictly closer, and θ4, θ6 take the first π-shift closest to prev[3]
      and prev[5]. */
  function ChooseWrist(trig: Trig, raw: Wrist, prev: Option<seq<real>>): (w: Wrist)
    requires prev.Some? ==> |prev.value| == 6
    ensures prev.None? ==> w == raw
    ensures prev.Some? ==> NearestShift(w.theta4, raw.theta4, prev.value[3], trig.pi)
    ensures prev.Some? ==>
      && (w.theta5 == raw.theta5 || w.theta5 == -raw.theta5)
      && SinCosGap(trig, w.theta5, prev.value[4]) <= SinCosGap(trig, raw.theta5, prev.value[4])
      && SinCosGap(trig, w.theta5, prev.value[4]) <= SinCosGap(trig, -raw.theta5, prev.value[4])
    ensures prev.Some? ==> NearestShift(w.theta6, raw.theta6, prev.value[5], trig.pi)
    ensures prev.Some? && w.theta5 != raw.theta5 ==>
      SinCosGap(trig, -raw.theta5, prev.value[4]) < SinCosGap(trig, raw.theta5, prev.value[4])
    ensures prev.Some? ==>
      && FirstNearestShift(w.theta4, raw.theta4, prev.value[3], trig.pi)
      && FirstNearestShift(w.theta6, raw.theta6, prev.value[5], trig.pi)
  {
    match prev
    case None => raw
    case Some(p) =>
      PiShiftFirstNearest(raw.theta4, p[3], trig.pi);
      PiShiftFirstNearest(raw.theta6, p[5], trig.pi);
      Wrist(
        PiShift(raw.theta4, p[3], trig.pi),
        ChooseSign(trig, raw.theta5, Some(p[4])),
        PiShift(raw.theta6, p[5], trig.pi))
  }

  /** The per-joint solution: the arm angles as in the library version,
      the first wrist solution moved joint by joint toward the previous
      configuration, and all six angles wrapped. A previous configuration
      without six angles is an error; there is no other failure. */
  function PerJointIk(trig: Trig, arm: Arm, r03: (real, real, real) -> Mat3, r60: Mat3, t: Vec3, prev: Option<seq<real>>)
    : (r: Result<seq<real>, IkError>)
    requires ValidTrig(trig) && ValidArm(arm)
    ensures r.Err? <==> prev.Some? && |prev.value| != 6
    ensures r.Err? ==> r.error == WrongJointCount
    ensures r.Ok? ==> |r.value| == 6
    ensures r.Ok? ==>
      var sec1 := IkSec1(trig, arm, WristCentre(r60, t), if prev.Some? then Some(prev.value[2]) else None);
      var w := ChooseWrist(trig, WristAngles(trig, WristRotation(r03, sec1, r60)), prev);
      r.value == WrapAll(trig.pi, [sec1.theta1, sec1.theta2, sec1.theta3, w.theta4, w.theta5, w.theta6])
  {
    if prev.Some? && |prev.value| != 6 then Err(WrongJointCount)
    else
      var sec1 := IkSec1(trig, arm, WristCentre(r60, t), if prev.Some? then Some(prev.value[2]) else None);
      var w := ChooseWrist(trig, WristAngles(trig, WristRotation(r03, sec1, r60)), prev);
      Ok(WrapAll(trig.pi, [sec1.theta1, sec1.theta2, sec1.theta3, w.theta4, w.theta5, w.theta6]))
  }

  /** The arm joints of the per-joint solution are the library's, wrapped;
      without a previous configuration the first wrist solution is kept,
      wrapped, and there is no failure. */
  lemma PerJointIkArm(trig: Trig, arm: Arm, r03: (real, real, real) -> Mat3, r60: Mat3, t: Vec3, prev: Option<seq<real>>)
    requires ValidTrig(trig) && ValidArm(arm)
    requires prev.Some? ==> |prev.value| == 6
    ensures
      var r := PerJointIk(trig, arm, r03, r60, t, prev);
      var sec1 := IkSec1(trig, arm, WristCentre(r60, t), if prev.Some? then Some(prev.value[2]) else None);
      var raw := WristAngles(trig, WristRotation(r03, sec1, r60));
      && r.Ok? && |r.value| == 6
      && r.value[0] == Wrap(trig.pi, sec1.theta1)
      && r.value[1] == Wrap(trig.pi, sec1.theta2)
      && r.value[2] == Wrap(trig.pi, sec1.theta3)
      && (prev.None? ==>
            && r.value[3] == Wrap(trig.pi, raw.theta4)
            && r.value[4] == Wrap(trig.pi, raw.theta5)
            && r.value[5] == Wrap(trig.pi, raw.theta6))
  {
    var sec1 := IkSec1(trig, arm, WristCentre(r60, t), if prev.Some? then Some(prev.value[2]) else None);
    var w := ChooseWrist(trig, WristAngles(trig, WristRotation(r03, sec1, r60)), prev);
    var all := [sec1.theta1, sec1.theta2, sec1.theta3, w.theta4, w.theta5, w.theta6];
    assert PerJointIk(trig, arm, r03, r60, t, prev).value == WrapAll(trig.pi, all);
  }

  /** w is the per-joint choice for the first wrist solution raw against
      the previous configuration prev: θ4 and θ6 are the first π-shifts of
      raw's nearest prev[3] and prev[5], and θ5 is ± raw's θ5, no farther
      from prev[4] on the unit circle than either sign and negated only
      when that is strictly closer. */
  predicate PerJointChoice(trig: Trig, raw: Wrist, prev: seq<real>, w: Wrist)
    requires |prev| == 6
  {
    && NearestShift(w.theta4, raw.theta4, prev[3], trig.pi)
    && (w.theta5 == raw.theta5 || w.theta5 == -raw.theta5)
    && SinCosGap(trig, w.theta5, prev[4]) <= SinCosGap(trig, raw.theta5, prev[4])
    && SinCosGap(trig, w.theta5, prev[4]) <= SinCosGap(trig, -raw.theta5, prev[4])
    && NearestShift(w.theta6, raw.theta6, prev[5], trig.pi)
    && (w.theta5 != raw.theta5 ==> SinCosGap(trig, -raw.theta5, prev[4]) < SinCosGap(trig, raw.theta5, prev[4]))
    && FirstNearestShift(w.theta4, raw.theta4, prev[3], trig.pi)
    && FirstNearestShift(w.theta6, raw.theta6, prev[5], trig.pi)
  }

  /** The last three of six joint angles are the wrist angles w, wrapped. */
  predicate WrappedWristOf(pi: real, thetas: seq<real>, w: Wrist)
  {
    && |thetas| == 6
    && thetas[3] == Wrap(pi, w.theta4)
    && thetas[4] == Wrap(pi, w.theta5)
    && thetas[5] == Wrap(pi, w.theta6)
  }

  /** With a previous configuration, the wrist joints are the per-joint
      choice for the first wrist solution, wrapped. */
  lemma PerJointIkWrist(trig: Trig, arm: Arm, r03: (real, real, real) -> Mat3, r60: Mat3, t: Vec3, prev: seq<real>)
    requires ValidTrig(trig) && ValidArm(arm)
    requires |prev| == 6
    ensures
      var r := PerJointIk(trig, arm, r03, r60, t, Some(prev));
      var sec1 := IkSec1(trig, arm, WristCentre(r60, t), Some(prev[2]));
      var raw := WristAngles(trig, WristRotation(r03, sec1, r60));
      var w := ChooseWrist(trig, raw, Some(prev));
      r.Ok? && PerJointChoice(trig, raw, prev, w) && WrappedWristOf(trig.pi, r.value, w)
  {
    var sec1 := IkSec1(trig, arm, WristCentre(r60, t), Some(prev[2]));
    var raw := WristAngles(trig, WristRotation(r03, sec1, r60));
    WrappedWrist(trig, raw, prev, sec1.theta1, sec1.theta2, sec1.theta3);
  }

  /** The wrist part of the wrapped joint list, for any arm angles. */
  lemma WrappedWrist(trig: Trig, raw: Wrist, prev: seq<real>, a1: real, a2: real, a3: real)
    requires |prev| == 6
    ensures
      var w := ChooseWrist(trig, raw, Some(prev));
      PerJointChoice(trig, raw, prev, w) && WrappedWristOf(trig.pi, WrapAll(trig.pi, [a1, a2, a3, w.theta4, w.theta5, w.theta6]), w)
  {
    var w := ChooseWrist(trig, raw, Some(prev));
    var all := [a1, a2, a3, w.theta4, w.theta5, w.theta6];
    assert all[3] == w.theta4 && all[4] == w.theta5 && all[5] == w.theta6;
  }
}
