/** The discrete decisions of the arm's inverse kinematics
    (libs/inverse_kinematics.py): which elbow sign to take, how the
    effective two-link angles convert to joint angles, which wrist branches
    survive the residual checks, which one is closest to the previous
    configuration, and how the six angles are wrapped. The trigonometric
    functions and the base-to-frame-3 rotation are left uninterpreted, so
    every property below holds whatever their values are. */
module InverseKinematics {
  import opened Results
  import opened Geometry
  import opened Seqs

  /** numpy's π and trigonometric functions. arccos is only defined on
      [-1, 1]; calling it elsewhere is a verification error, so every call
      in the model must clamp its argument first. */
  datatype Trig = Trig(
    pi: real,
    sin: real -> real,
    cos: real -> real,
    atan2: (real, real) -> real,
    arccos: real --> real)

  ghost predicate ValidTrig(trig: Trig)
  {
    forall x :: -1.0 <= x <= 1.0 ==> trig.arccos.requires(x)
  }

  /** The fixed geometry of the first three links: the offset angles
      φ1 = arctan(30/264) and φ2 = arctan(30/258) of the bent links and the
      link lengths l2 = sqrt(30² + 264²) and l3 = sqrt(30² + 258²). */
  datatype Arm = Arm(phi1: real, phi2: real, l2: real, l3: real)

  predicate ValidArm(arm: Arm)
  {
    arm.l2 > 0.0 && arm.l3 > 0.0
  }

  /** Height of joint 2 above the base. */
  const BaseHeight: real := 159.0

  /** Distance from the wrist centre to the tool point along the tool's z axis. */
  const ToolLength: real := 123.0

  /** Residual bound of the wrist-branch checks (1e-10). */
  const Tolerance: real := 0.0000000001

  /** Margin below π beyond which an angle is wrapped by 2π. */
  const WrapMargin: real := 0.01

  datatype IkError =
    | LengthMismatch   // angle_dist on lists of different lengths
    | WrongJointCount  // a previous configuration without six angles
    | NoWristBranch    // no wrist candidate passed the residual checks

  /** The first three joint angles. */
  datatype ArmAngles = ArmAngles(theta1: real, theta2: real, theta3: real)

  /** The last three joint angles. */
  datatype Wrist = Wrist(theta4: real, theta5: real, theta6: real)

  function Abs(x: real): real
  {
    if x < 0.0 then -x else x
  }

  /** numpy's clip to [-1, 1]. */
  function Clip(x: real): (r: real)
    ensures -1.0 <= r <= 1.0
    ensures -1.0 <= x <= 1.0 ==> r == x
    ensures x < -1.0 ==> r == -1.0
    ensures x > 1.0 ==> r == 1.0
  {
    if x < -1.0 then -1.0 else if x > 1.0 then 1.0 else x
  }

  // ---------------------------------------------------------------------
  // angle_dist
  // ---------------------------------------------------------------------

  /** Σ cos aᵢ·cos bᵢ + sin aᵢ·sin bᵢ, accumulated from the first pair. */
  function CosSum(trig: Trig, a: seq<real>, b: seq<real>): real
    requires |a| == |b|
  {
    if |a| == 0 then 0.0
    else
      CosSum(trig, a[..|a| - 1], b[..|b| - 1]) + AngleDot(trig, a[|a| - 1], b[|b| - 1])
  }

  /** The dot product of the unit vectors of two angles. */
  function AngleDot(trig: Trig, x: real, y: real): real
  {
    trig.cos(x) * trig.cos(y) + trig.sin(x) * trig.sin(y)
  }

  /** The distance between two angle lists: minus the sum of the dot
      products of their unit vectors. Lists of different lengths fail the
      length assertion. */
  function AngleDist(trig: Trig, a: seq<real>, b: seq<real>): (r: Result<real, IkError>)
    ensures r.Err? <==> |a| != |b|
    ensures r.Err? ==> r.error == LengthMismatch
    ensures r.Ok? ==> r.value == -CosSum(trig, a, b)
  {
    if |a| != |b| then Err(LengthMismatch) else Ok(-CosSum(trig, a, b))
  }

  lemma {:induction false} CosSumSymmetric(trig: Trig, a: seq<real>, b: seq<real>)
    requires |a| == |b|
    ensures CosSum(trig, a, b) == CosSum(trig, b, a)
  {
    if |a| > 0 {
      CosSumSymmetric(trig, a[..|a| - 1], b[..|b| - 1]);
    }
  }

  /** The distance does not depend on the order of its arguments. */
  lemma AngleDistSymmetric(trig: Trig, a: seq<real>, b: seq<real>)
    ensures AngleDist(trig, a, b) == AngleDist(trig, b, a)
  {
    if |a| == |b| {
      CosSumSymmetric(trig, a, b);
    }
  }

  /** When sin² + cos² = 1, a configuration is at distance -n from itself,
      n being its number of angles. */
  lemma {:induction false} AngleDistSelf(trig: Trig, a: seq<real>)
    requires forall x :: trig.sin(x) * trig.sin(x) + trig.cos(x) * trig.cos(x) == 1.0
    ensures AngleDist(trig, a, a) == Ok(-(|a| as real))
  {
    CosSumSelf(trig, a);
  }

  /** On the unit circle the distance of n angle pairs lies in [−n, n]:
      each term is the dot product of two unit vectors. Together with
      AngleDistSelf, no configuration is closer to a given one than that
      configuration itself. */
  lemma AngleDistBounds(trig: Trig, a: seq<real>, b: seq<real>)
    requires forall x :: trig.sin(x) * trig.sin(x) + trig.cos(x) * trig.cos(x) == 1.0
    ensures AngleDist(trig, a, b).Ok? <==> |a| == |b|
    ensures |a| == |b| ==> -(|a| as real) <= AngleDist(trig, a, b).value <= |a| as real
  {
    if |a| == |b| {
      forall i | 0 <= i < |a| ensures OnUnitCircle(trig, a[i]) && OnUnitCircle(trig, b[i]) { }
      CosSumBounds(trig, a, b);
    }
  }

  lemma {:induction false} CosSumBounds(trig: Trig, a: seq<real>, b: seq<real>)
    requires |a| == |b|
    requires forall i :: 0 <= i < |a| ==> OnUnitCircle(trig, a[i]) && OnUnitCircle(trig, b[i])
    ensures -(|a| as real) <= CosSum(trig, a, b) <= |a| as real
  {
    if |a| > 0 {
      var n := |a| - 1;
      CosSumBounds(trig, a[..n], b[..n]);
      TermBound(trig, a[n], b[n]);
    }
  }

  ghost predicate OnUnitCircle(trig: Trig, x: real)
  {
    trig.sin(x) * trig.sin(x) + trig.cos(x) * trig.cos(x) == 1.0
  }

  /** One term of CosSum, bounded by one in absolute value. */
  lemma TermBound(trig: Trig, x: real, y: real)
    requires OnUnitCircle(trig, x) && OnUnitCircle(trig, y)
    ensures -1.0 <= AngleDot(trig, x, y) <= 1.0
  {
    UnitDotBound(trig.cos(x), trig.sin(x), trig.cos(y), trig.sin(y));
  }

  /** The dot product d of two unit vectors lies in [−1, 1]: the squared
      length of their difference is 2 − 2d and that of their sum 2 + 2d. */
  lemma UnitDotBound(ca: real, sa: real, cb: real, sb: real)
    requires sa * sa + ca * ca == 1.0 && sb * sb + cb * cb == 1.0
    ensures -1.0 <= ca * cb + sa * sb <= 1.0
  {
    var d := ca * cb + sa * sb;
    SquareNonNegative(ca - cb);
    SquareNonNegative(sa - sb);
    SquareNonNegative(ca + cb);
    SquareNonNegative(sa + sb);
    assert (ca - cb) * (ca - cb) + (sa - sb) * (sa - sb) == 2.0 - 2.0 * d;
    assert (ca + cb) * (ca + cb) + (sa + sb) * (sa + sb) == 2.0 + 2.0 * d;
  }

  lemma SquareNonNegative(x: real)
    ensures x * x >= 0.0
  {
  }

  lemma {:induction false} CosSumSelf(trig: Trig, a: seq<real>)
    requires forall x :: trig.sin(x) * trig.sin(x) + trig.cos(x) * trig.cos(x) == 1.0
    ensures CosSum(trig, a, a) == |a| as real
  {
    if |a| > 0 {
      CosSumSelf(trig, a[..|a| - 1]);
      var x := a[|a| - 1];
      assert trig.sin(x) * trig.sin(x) + trig.cos(x) * trig.cos(x) == 1.0;
    }
  }

  // ---------------------------------------------------------------------
  // The two-link arm (base_robot_ik_sec1, ik_sec1)
  // ---------------------------------------------------------------------

  /** |Δsin| + |Δcos|: how far apart two angles are on the unit circle. */
  function SinCosGap(trig: Trig, a: real, b: real): real
  {
    Abs(trig.sin(a) - trig.sin(b)) + Abs(trig.cos(a) - trig.cos(b))
  }

  /** The elbow sign choice: keep the arccos value unless its negation is
      strictly closer to the previous angle. The result is never farther
      from the previous angle than either sign, and without a previous
      angle the non-negative arccos branch is kept. */
  function ChooseSign(trig: Trig, theta: real, prev: Option<real>): (r: real)
    ensures r == theta || r == -theta
    ensures prev.None? ==> r == theta
    ensures prev.Some? ==>
      SinCosGap(trig, r, prev.value) <= SinCosGap(trig, theta, prev.value) &&
      SinCosGap(trig, r, prev.value) <= SinCosGap(trig, -theta, prev.value)
    ensures r != theta ==> prev.Some? && SinCosGap(trig, -theta, prev.value) < SinCosGap(trig, theta, prev.value)
    ensures prev.Some? && SinCosGap(trig, -theta, prev.value) < SinCosGap(trig, theta, prev.value) ==> r == -theta
  {
    match prev
    case None => theta
    case Some(p) =>
      if SinCosGap(trig, -theta, p) < SinCosGap(trig, theta, p) then -theta else theta
  }

  /** The horizontal reach A and the height B above joint 2 of a wrist
      centre, once the base is turned to θ1. */
  function Reach(trig: Trig, p: Vec3, theta1: real): real
  {
    p.x * trig.cos(theta1) + p.y * trig.sin(theta1)
  }

  /** The unsigned elbow angle of a two-link arm with lengths l2, l3
      reaching the point at horizontal distance a and height b: the arccos
      of the law-of-cosines ratio, clamped into arccos's domain. */
  function ElbowAngle(trig: Trig, a: real, b: real, l2: real, l3: real): real
    requires ValidTrig(trig)
    requires l2 > 0.0 && l3 > 0.0
  {
    trig.arccos(Clip((a * a + b * b - l2 * l2 - l3 * l3) / (2.0 * l2 * l3)))
  }

  /** The shoulder angle of the two-link arm for a given signed elbow
      angle. */
  function Shoulder(trig: Trig, a: real, b: real, l2: real, l3: real, theta3: real): real
  {
    trig.atan2(
      b * (l2 + l3 * trig.cos(theta3)) - a * l3 * trig.sin(theta3),
      a * (l2 + l3 * trig.cos(theta3)) + b * l3 * trig.sin(theta3))
  }

  /** Position analysis of the planar two-link arm: the base angle points
      at the target, the elbow takes the sign closest to the previous elbow
      angle, and the shoulder angle is solved for that signed elbow. */
  function BaseIkSec1(trig: Trig, p: Vec3, l1: real, l2: real, l3: real, prev3: Option<real>): (r: ArmAngles)
    requires ValidTrig(trig)
    requires l2 > 0.0 && l3 > 0.0
    ensures r.theta1 == trig.atan2(p.y, p.x)
    ensures var raw := ElbowAngle(trig, Reach(trig, p, r.theta1), p.z - l1, l2, l3);
      && (r.theta3 == raw || r.theta3 == -raw)
      && (prev3.None? ==> r.theta3 == raw)
      && (prev3.Some? ==>
            SinCosGap(trig, r.theta3, prev3.value) <= SinCosGap(trig, raw, prev3.value) &&
            SinCosGap(trig, r.theta3, prev3.value) <= SinCosGap(trig, -raw, prev3.value))
      && (r.theta3 != raw ==> prev3.Some? && SinCosGap(trig, -raw, prev3.value) < SinCosGap(trig, raw, prev3.value))
      && (prev3.Some? && SinCosGap(trig, -raw, prev3.value) < SinCosGap(trig, raw, prev3.value) ==> r.theta3 == -raw)
    ensures r.theta2 == Shoulder(trig, Reach(trig, p, r.theta1), p.z - l1, l2, l3, r.theta3)
  {
    var theta1 := trig.atan2(p.y, p.x);
    var a := Reach(trig, p, theta1);
    var b := p.z - l1;
    var theta3 := ChooseSign(trig, ElbowAngle(trig, a, b, l2, l3), prev3);
    ArmAngles(theta1, Shoulder(trig, a, b, l2, l3, theta3), theta3)
  }

  /** The conversion between the real elbow joint angle and the elbow angle
      of the equivalent straight-link arm, x ↦ φ1 + φ2 − π/4 − x. The same
      map converts in both directions. */
  function EffectiveElbow(trig: Trig, arm: Arm, x: real): (r: real)
    ensures r + x == arm.phi1 + arm.phi2 - trig.pi / 4.0
  {
    arm.phi1 + arm.phi2 - trig.pi / 4.0 - x
  }

  /** The conversion is an involution, so converting the previous joint
      angle in and the solved angle out are mutual inverses. */
  lemma EffectiveElbowInvolution(trig: Trig, arm: Arm, x: real)
    ensures EffectiveElbow(trig, arm, EffectiveElbow(trig, arm, x)) == x
  {
  }

  /** The first three joint angles for a wrist centre p: the previous
      elbow joint angle is converted to effective form, the straight-link
      arm is solved, and its shoulder and elbow angles are converted back.
      Converting the result's elbow forward again gives one of the two
      arccos branches, the one closest to the converted previous angle. */
  function IkSec1(trig: Trig, arm: Arm, p: Vec3, prev3: Option<real>): (r: ArmAngles)
    requires ValidTrig(trig) && ValidArm(arm)
    ensures r.theta1 == trig.atan2(p.y, p.x)
    ensures var alpha3 := EffectiveElbow(trig, arm, r.theta3);
      var raw := ElbowAngle(trig, Reach(trig, p, r.theta1), p.z - BaseHeight, arm.l2, arm.l3);
      && (alpha3 == raw || alpha3 == -raw)
      && (prev3.None? ==> alpha3 == raw)
      && (prev3.Some? ==>
            var target := EffectiveElbow(trig, arm, prev3.value);
            SinCosGap(trig, alpha3, target) <= SinCosGap(trig, raw, target) &&
            SinCosGap(trig, alpha3, target) <= SinCosGap(trig, -raw, target))
      && (prev3.Some? ==>
            var target := EffectiveElbow(trig, arm, prev3.value);
            && (alpha3 != raw ==> SinCosGap(trig, -raw, target) < SinCosGap(trig, raw, target))
            && (SinCosGap(trig, -raw, target) < SinCosGap(trig, raw, target) ==> alpha3 == -raw))
    ensures r.theta2 + arm.phi1 == trig.pi / 2.0 - BaseIkSec1(trig, p, BaseHeight, arm.l2, arm.l3,
      if prev3.Some? then Some(EffectiveElbow(trig, arm, prev3.value)) else None).theta2
  {
    var prevAlpha3 := if prev3.Some? then Some(EffectiveElbow(trig, arm, prev3.value)) else None;
    var base := BaseIkSec1(trig, p, BaseHeight, arm.l2, arm.l3, prevAlpha3);
    EffectiveElbowInvolution(trig, arm, base.theta3);
    ArmAngles(base.theta1, trig.pi / 2.0 - arm.phi1 - base.theta2, EffectiveElbow(trig, arm, base.theta3))
  }

  // ---------------------------------------------------------------------
  // The wrist (ik)
  // ---------------------------------------------------------------------

  /** The wrist centre: the target position moved back by the tool length
      along the target rotation's z axis, t − R·[0, 0, 123]. */
  function WristCentre(r60: Mat3, t: Vec3): (c: Vec3)
    ensures c == Sub(t, Scale(ToolLength, Column(r60, 2)))
  {
    Sub(t, MatVec(r60, Vec3(0.0, 0.0, ToolLength)))
  }

  /** The first wrist solution read off the wrist rotation R_6_3. */
  function WristAngles(trig: Trig, r63: Mat3): Wrist
    requires ValidTrig(trig)
  {
    Wrist(
      -trig.atan2(At(r63, 2, 2), At(r63, 0, 2)),
      trig.arccos(Clip(At(r63, 1, 2))),
      -trig.atan2(At(r63, 1, 1), At(r63, 1, 0)))
  }

  /** The eight wrist candidates {θ4, θ4+π} × {θ5, −θ5} × {θ6, θ6+π} in the
      order of the nested loops, θ4 outermost and θ6 innermost: the first
      half takes θ4, alternate pairs take θ5, alternate entries take θ6. */
  function WristCandidates(pi: real, w: Wrist): (cs: seq<Wrist>)
    ensures |cs| == 8
    ensures forall k :: 0 <= k < 8 ==>
      && cs[k].theta4 == (if k < 4 then w.theta4 else w.theta4 + pi)
      && cs[k].theta5 == (if k % 4 < 2 then w.theta5 else -w.theta5)
      && cs[k].theta6 == (if k % 2 == 0 then w.theta6 else w.theta6 + pi)
  {
    var (a, b, c) := (w.theta4, w.theta5, w.theta6);
    [ Wrist(a, b, c), Wrist(a, b, c + pi), Wrist(a, -b, c), Wrist(a, -b, c + pi),
      Wrist(a + pi, b, c), Wrist(a + pi, b, c + pi), Wrist(a + pi, -b, c), Wrist(a + pi, -b, c + pi) ]
  }

  /** The four residual checks of a candidate against R_6_3, each within
      the tolerance. */
  predicate Consistent(trig: Trig, r63: Mat3, c: Wrist)
  {
    && Abs(trig.sin(c.theta5) * trig.cos(c.theta6) - At(r63, 1, 0)) <= Tolerance
    && Abs(trig.sin(c.theta5) * trig.sin(c.theta6) + At(r63, 1, 1)) <= Tolerance
    && Abs(trig.cos(c.theta4) * trig.sin(c.theta5) + At(r63, 0, 2)) <= Tolerance
    && Abs(trig.sin(c.theta4) * trig.sin(c.theta5) - At(r63, 2, 2)) <= Tolerance
  }

  /** The candidates that pass every residual check, in enumeration order. */
  function KeptWrists(trig: Trig, r63: Mat3, w: Wrist): (ks: seq<Wrist>)
    ensures |ks| <= 8
    ensures forall i :: 0 <= i < |ks| ==> Consistent(trig, r63, ks[i]) && ks[i] in WristCandidates(trig.pi, w)
    ensures forall k :: 0 <= k < 8 && Consistent(trig, r63, WristCandidates(trig.pi, w)[k]) ==>
      WristCandidates(trig.pi, w)[k] in ks
  {
    Filter(WristCandidates(trig.pi, w), c => Consistent(trig, r63, c))
  }

  /** A kept candidate is the first one exactly when no earlier candidate
      passes the checks. */
  lemma FirstKept(trig: Trig, r63: Mat3, w: Wrist, k: nat)
    requires k < 8 && Consistent(trig, r63, WristCandidates(trig.pi, w)[k])
    requires forall j :: 0 <= j < k ==> !Consistent(trig, r63, WristCandidates(trig.pi, w)[j])
    ensures |KeptWrists(trig, r63, w)| > 0 && KeptWrists(trig, r63, w)[0] == WristCandidates(trig.pi, w)[k]
  {
    FilterHead(WristCandidates(trig.pi, w), c => Consistent(trig, r63, c), k);
  }

  function Angles(c: Wrist): seq<real>
  {
    [c.theta4, c.theta5, c.theta6]
  }

  /** The distance of a wrist candidate from the previous wrist angles. */
  function WristDist(trig: Trig, prev: seq<real>, c: Wrist): real
    requires |prev| == 3
  {
    AngleDist(trig, Angles(c), prev).value
  }

  /** The selection loop with the previous configuration: the running
      minimum starts at infinity and a candidate replaces the current choice
      only when strictly closer. The choice is the earliest candidate of
      minimal distance; with no candidate nothing is chosen. */
  method ClosestWrist(trig: Trig, kept: seq<Wrist>, prev: seq<real>) returns (best: Option<Wrist>)
    requires |prev| == 3
    ensures best.None? <==> |kept| == 0
    ensures best.Some? ==> best.value == kept[ArgMinFirst(kept, c => WristDist(trig, prev, c))]
  {
    ghost var cost := c => WristDist(trig, prev, c);
    var minDist: Option<real> := None;
    best := None;
    ghost var bi: nat := 0;
    for i := 0 to |kept|
      invariant i == 0 ==> best.None? && minDist.None?
      invariant i > 0 ==>
        && Leading(kept, cost, i, bi)
        && best == Some(kept[bi])
        && minDist == Some(cost(kept[bi]))
        && ArgMinFrom(kept, cost, i, bi) == ArgMinFirst(kept, cost)
    {
      var dist := WristDist(trig, prev, kept[i]);
      assert dist == cost(kept[i]);
      if i == 0 {
        ArgMinStart(kept, cost);
      } else {
        ArgMinStep(kept, cost, i, bi);
      }
      if minDist.None? || dist < minDist.value {
        minDist := Some(dist);
        best := Some(kept[i]);
        bi := i;
      }
    }
  }

  // ---------------------------------------------------------------------
  // Wrapping
  // ---------------------------------------------------------------------

  /** r and theta name the same direction: they differ by at most one
      whole turn. */
  predicate OneTurnApart(pi: real, r: real, theta: real)
  {
    r == theta || r == theta - 2.0 * pi || r == theta + 2.0 * pi
  }

  /** An angle within π − 0.01 of zero is kept; beyond that it is moved
      by one turn toward zero. The result names the same direction, and an
      angle up to three half turns from zero lands within 0.01 of [−π, π]. */
  function Wrap(pi: real, theta: real): (r: real)
    ensures OneTurnApart(pi, r, theta)
    ensures pi > WrapMargin && -3.0 * pi <= theta <= 3.0 * pi ==> -pi - WrapMargin < r < pi + WrapMargin
    ensures Abs(theta) <= pi - WrapMargin ==> r == theta
    ensures Abs(theta) > pi - WrapMargin && theta > 0.0 ==> r == theta - 2.0 * pi
    ensures Abs(theta) > pi - WrapMargin && theta <= 0.0 ==> r == theta + 2.0 * pi
  {
    if Abs(theta) > pi - WrapMargin then
      if theta > 0.0 then theta - 2.0 * pi else theta + 2.0 * pi
    else theta
  }

  /** The margin moves angles just below π to just below −π: the result can
      leave [−π, π] by up to 0.01. */
  lemma WrapCrossesMinusPi(pi: real)
    requires pi > WrapMargin
    ensures Wrap(pi, pi - 0.005) == -pi - 0.005
    ensures Wrap(pi, Wrap(pi, pi - 0.005)) == pi - 0.005
  {
  }

  /** All six joints pass through the wrap, each keeping its direction. */
  function WrapAll(pi: real, thetas: seq<real>): (r: seq<real>)
    ensures |r| == |thetas|
    ensures forall i :: 0 <= i < |r| ==> OneTurnApart(pi, r[i], thetas[i])
    ensures forall i :: 0 <= i < |r| && Abs(thetas[i]) <= pi - WrapMargin ==> r[i] == thetas[i]
    ensures pi > WrapMargin ==> forall i :: 0 <= i < |r| && -3.0 * pi <= thetas[i] <= 3.0 * pi ==>
      -pi - WrapMargin < r[i] < pi + WrapMargin
    ensures forall i :: 0 <= i < |r| ==> r[i] == Wrap(pi, thetas[i])
  {
    seq(|thetas|, i requires 0 <= i < |thetas| => Wrap(pi, thetas[i]))
  }

  // ---------------------------------------------------------------------
  // ik
  // ---------------------------------------------------------------------

  /** The wrist rotation R_6_3 = R_0_3 · R_6_0, with R_0_3 the rotation of
      the first three links at the given arm angles. */
  function WristRotation(r03: (real, real, real) -> Mat3, arm: ArmAngles, r60: Mat3): Mat3
  {
    MatMul(r03(arm.theta1, arm.theta2, arm.theta3), r60)
  }

  /** The full solution: solve the arm for the wrist centre (using the
      previous elbow angle), enumerate and filter the wrist branches, take
      the one closest to the previous wrist angles (or the first one without
      a previous configuration) and wrap all six angles. A previous
      configuration without six angles and an empty branch list are errors. */
  method Ik(trig: Trig, arm: Arm, r03: (real, real, real) -> Mat3, r60: Mat3, t: Vec3, prev: Option<seq<real>>)
    returns (r: Result<seq<real>, IkError>)
    requires ValidTrig(trig) && ValidArm(arm)
    ensures prev.Some? && |prev.value| != 6 ==> r == Err(WrongJointCount)
    ensures (prev.None? || |prev.value| == 6) ==>
      var sec1 := IkSec1(trig, arm, WristCentre(r60, t), if prev.Some? then Some(prev.value[2]) else None);
      var kept := KeptWrists(trig, WristRotation(r03, sec1, r60), WristAngles(trig, WristRotation(r03, sec1, r60)));
      && (r.Err? <==> |kept| == 0)
      && (r.Err? ==> r.error == NoWristBranch)
      && (r.Ok? ==>
            var c := if prev.None? then kept[0] else kept[ArgMinFirst(kept, c => WristDist(trig, prev.value[3..], c))];
            r.value == WrapAll(trig.pi, [sec1.theta1, sec1.theta2, sec1.theta3, c.theta4, c.theta5, c.theta6]))
  {
    if prev.Some? && |prev.value| != 6 {
      return Err(WrongJointCount);
    }
    var sec1 := IkSec1(trig, arm, WristCentre(r60, t), if prev.Some? then Some(prev.value[2]) else None);
    var r63 := WristRotation(r03, sec1, r60);
    var kept := KeptWrists(trig, r63, WristAngles(trig, r63));
    var chosen: Option<Wrist>;
    if prev.Some? {
      chosen := ClosestWrist(trig, kept, prev.value[3..]);
    } else {
      chosen := if |kept| > 0 then Some(kept[0]) else None;
    }
    if chosen.None? {
      return Err(NoWristBranch);
    }
    var c := chosen.value;
    r := Ok(WrapAll(trig.pi, [sec1.theta1, sec1.theta2, sec1.theta3, c.theta4, c.theta5, c.theta6]));
  }
}
