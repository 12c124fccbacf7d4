/** The arithmetic shared by the monolithic sketch and every sensor class:
    accelerometer tilt, the complementary-filter blend, the yaw dead-band,
    and the run of the filter over many cycles. */
module Filter {
  import opened Common

  /** `sqrt(a*a + b*b)`, the RESULTANT of two axes. */
  function Resultant(m: MathLib, a: real, b: real): real {
    m.sqrt(a * a + b * b)
  }

  /** The argument of the square root in a resultant is never negative. */
  lemma SquaresNonNeg(a: real, b: real)
    ensures a * a + b * b >= 0.0
  {
  }

  /** Roll seen by the accelerometer. With a library whose atan2 is odd and
      whose sqrt is non-negative, mirroring the Y axis mirrors the roll, and
      no Y component means no roll. */
  function AccelRoll(m: MathLib, acc: Vec3): (r: real)
    ensures OddAtan2(m) && NonNegSqrt(m) ==> m.atan2(-acc.y, Resultant(m, acc.x, acc.z)) == -r
    ensures OddAtan2(m) && NonNegSqrt(m) && acc.y == 0.0 ==> r == 0.0
  {
    SquaresNonNeg(acc.x, acc.z);
    m.atan2(acc.y, Resultant(m, acc.x, acc.z))
  }

  /** Pitch seen by the accelerometer, as the sketch writes it: `atan2(-x, ...)`.
      No X component means no pitch. */
  function AccelPitchNegArg(m: MathLib, acc: Vec3): (r: real)
    ensures OddAtan2(m) && NonNegSqrt(m) && acc.x == 0.0 ==> r == 0.0
  {
    SquaresNonNeg(acc.y, acc.z);
    m.atan2(-acc.x, Resultant(m, acc.y, acc.z))
  }

  /** Pitch seen by the accelerometer, as the sensor classes write it:
      `-atan2(x, ...)`. A positive X acceleration tilts the nose by the
      negated angle, mirroring X mirrors the pitch, and no X component
      means no pitch. */
  function AccelPitch(m: MathLib, acc: Vec3): (r: real)
    ensures OddAtan2(m) && NonNegSqrt(m) ==> m.atan2(-acc.x, Resultant(m, acc.y, acc.z)) == r
    ensures OddAtan2(m) && NonNegSqrt(m) && acc.x == 0.0 ==> r == 0.0
  {
    SquaresNonNeg(acc.y, acc.z);
    -m.atan2(acc.x, Resultant(m, acc.y, acc.z))
  }

  /** `atan2(y, x)` is odd in `y` on the half-plane x >= 0, as the C
      library's is. */
  ghost predicate OddAtan2(m: MathLib) {
    forall y, x :: x >= 0.0 ==> m.atan2(-y, x) == -m.atan2(y, x)
  }

  /** `sqrt` never returns a negative value. */
  ghost predicate NonNegSqrt(m: MathLib) {
    forall v :: v >= 0.0 ==> m.sqrt(v) >= 0.0
  }

  /** A resultant is never negative when `sqrt` is not. */
  lemma ResultantNonNeg(m: MathLib, a: real, b: real)
    requires NonNegSqrt(m)
    ensures Resultant(m, a, b) >= 0.0
  {
    assert a * a >= 0.0 && b * b >= 0.0;
  }

  /** With a library whose atan2 is odd in its first argument and whose
      sqrt is non-negative, the sketch's `atan2(-x, ...)` pitch and the
      classes' `-atan2(x, ...)` pitch agree for every acceleration. */
  lemma PitchFormsAgree(m: MathLib, acc: Vec3)
    requires OddAtan2(m) && NonNegSqrt(m)
    ensures AccelPitchNegArg(m, acc) == AccelPitch(m, acc)
  {
    ResultantNonNeg(m, acc.y, acc.z);
  }

  /** The complementary-filter blend: weight `tau` on the gyro-integrated
      angle and `1 - tau` on the accelerometer angle. The result departs from
      the accelerometer angle by the fraction `tau` of the gap between the two
      estimates, so it is exactly one of them at the two ends (and between
      them for a weight in [0, 1], BlendBetween). */
  function Blend(tau: real, gyroAngle: real, accelAngle: real): (r: real)
    ensures tau == 1.0 ==> r == gyroAngle
    ensures tau == 0.0 ==> r == accelAngle
    ensures r - accelAngle == tau * (gyroAngle - accelAngle)
  {
    BlendGap(tau, gyroAngle, accelAngle);
    var r := tau * gyroAngle + (1.0 - tau) * accelAngle;
    assert r == accelAngle + tau * (gyroAngle - accelAngle);
    r
  }

  /** For a weight in [0, 1] the blend lies between the two estimates. */
  lemma BlendBetween(tau: real, gyroAngle: real, accelAngle: real)
    requires 0.0 <= tau <= 1.0
    ensures Min(gyroAngle, accelAngle) <= Blend(tau, gyroAngle, accelAngle) <= Max(gyroAngle, accelAngle)
  {
    var r := Blend(tau, gyroAngle, accelAngle);
    BetweenWeights(tau, gyroAngle - accelAngle, r - accelAngle);
  }

  lemma BlendGap(tau: real, g: real, a: real)
    ensures tau * g + (1.0 - tau) * a == a + tau * (g - a)
  {
  }

  /** A fraction `m` in [0, 1] of a difference `d` lies between zero and the difference. */
  lemma BetweenWeights(tau: real, d: real, m: real)
    requires 0.0 <= tau <= 1.0 && m == tau * d
    ensures d >= 0.0 ==> 0.0 <= m <= d
    ensures d < 0.0 ==> d <= m <= 0.0
  {
    if d >= 0.0 {
      assert tau * d <= 1.0 * d;
    } else {
      assert tau * (-d) <= 1.0 * (-d);
    }
  }

  /** One complementary-filter step for roll and pitch; heading is not touched here. */
  function TiltStep(tau: real, prev: Tilt, gyro: Vec3, accelRoll: real, accelPitch: real, dt: real): (t: Tilt)
    ensures t.heading == prev.heading
    ensures tau == 1.0 ==> t.roll == prev.roll + gyro.x * dt && t.pitch == prev.pitch + gyro.y * dt
    ensures tau == 0.0 ==> t.roll == accelRoll && t.pitch == accelPitch
  {
    Tilt(Blend(tau, prev.roll + gyro.x * dt, accelRoll),
         Blend(tau, prev.pitch + gyro.y * dt, accelPitch),
         prev.heading)
  }

  /** The yaw dead-band: heading integrates `gz * dt` only when `|gz|` is
      strictly above the threshold, and stays put otherwise. */
  function YawStep(thres: real, heading: real, gz: real, dt: real): (h: real)
    ensures Abs(gz) <= thres ==> h == heading
    ensures thres < Abs(gz) ==> h - heading == gz * dt
  {
    if thres < Abs(gz) then heading + gz * dt else heading
  }

  /** A filter step followed by the yaw dead-band: the heading integrates
      `gyro.z * dt` only outside the band, and roll and pitch are the blend
      with its two ends. */
  function GatedTiltStep(tau: real, thres: real, prev: Tilt, gyro: Vec3,
                         accelRoll: real, accelPitch: real, dt: real): (t: Tilt)
    ensures Abs(gyro.z) <= thres ==> t.heading == prev.heading
    ensures thres < Abs(gyro.z) ==> t.heading - prev.heading == gyro.z * dt
    ensures tau == 1.0 ==> t.roll == prev.roll + gyro.x * dt && t.pitch == prev.pitch + gyro.y * dt
    ensures tau == 0.0 ==> t.roll == accelRoll && t.pitch == accelPitch
  {
    TiltStep(tau, prev, gyro, accelRoll, accelPitch, dt).(heading := YawStep(thres, prev.heading, gyro.z, dt))
  }

  /** The two halves of a step do not influence each other: the new
      heading depends on the previous heading and not on roll or pitch, and
      the new roll and pitch do not depend on the previous heading. */
  lemma GatedStepSeparates(tau: real, thres: real, p1: Tilt, p2: Tilt, gyro: Vec3,
                           accelRoll: real, accelPitch: real, dt: real)
    ensures p1.heading == p2.heading ==>
      GatedTiltStep(tau, thres, p1, gyro, accelRoll, accelPitch, dt).heading
      == GatedTiltStep(tau, thres, p2, gyro, accelRoll, accelPitch, dt).heading
    ensures p1.roll == p2.roll && p1.pitch == p2.pitch ==>
      && GatedTiltStep(tau, thres, p1, gyro, accelRoll, accelPitch, dt).roll
         == GatedTiltStep(tau, thres, p2, gyro, accelRoll, accelPitch, dt).roll
      && GatedTiltStep(tau, thres, p1, gyro, accelRoll, accelPitch, dt).pitch
         == GatedTiltStep(tau, thres, p2, gyro, accelRoll, accelPitch, dt).pitch
  {
  }

  /** A sensor lying flat and still (acceleration (0, 0, g), no rotation)
      reads a level tilt from the accelerometer, and a filter step from a
      level attitude stays level, whatever the weight and the dt. */
  lemma LevelAtRest(m: MathLib, tau: real, thres: real, dt: real)
    requires OddAtan2(m) && NonNegSqrt(m) && thres >= 0.0
    ensures AccelRoll(m, GRAVITY_Z) == 0.0 && AccelPitch(m, GRAVITY_Z) == 0.0
    ensures GatedTiltStep(tau, thres, LEVEL, ZERO, AccelRoll(m, GRAVITY_Z), AccelPitch(m, GRAVITY_Z), dt) == LEVEL
  {
    ResultantNonNeg(m, GRAVITY_Z.x, GRAVITY_Z.z);
    ResultantNonNeg(m, GRAVITY_Z.y, GRAVITY_Z.z);
    assert m.atan2(-0.0, Resultant(m, GRAVITY_Z.x, GRAVITY_Z.z)) == -m.atan2(0.0, Resultant(m, GRAVITY_Z.x, GRAVITY_Z.z));
    assert m.atan2(-0.0, Resultant(m, GRAVITY_Z.y, GRAVITY_Z.z)) == -m.atan2(0.0, Resultant(m, GRAVITY_Z.y, GRAVITY_Z.z));
  }

  // ---------------------------------------------------------------------
  // Yaw over many cycles

  function Sum(s: seq<real>): real {
    if |s| == 0 then 0.0 else Sum(s[..|s| - 1]) + s[|s| - 1]
  }

  /** The heading change the dead-band lets through over a run: `gz * dt`
      for every rate strictly above the threshold, nothing for the others. */
  function PassedTurn(thres: real, gzs: seq<real>, dt: real): real {
    if |gzs| == 0 then 0.0
    else PassedTurn(thres, gzs[..|gzs| - 1], dt) + (if thres < Abs(gzs[|gzs| - 1]) then gzs[|gzs| - 1] * dt else 0.0)
  }

  /** Heading after one dead-band step per rate in `gzs`, all with the same `dt`. */
  function YawRun(thres: real, heading: real, gzs: seq<real>, dt: real): real {
    if |gzs| == 0 then heading
    else YawStep(thres, YawRun(thres, heading, gzs[..|gzs| - 1], dt), gzs[|gzs| - 1], dt)
  }

  /** Over any run the heading moves by exactly the turn the dead-band let
      through; every rate inside the band is discarded. */
  lemma {:induction false} YawRunLaw(thres: real, heading: real, gzs: seq<real>, dt: real)
    ensures YawRun(thres, heading, gzs, dt) == heading + PassedTurn(thres, gzs, dt)
  {
    if |gzs| > 0 {
      YawRunLaw(thres, heading, gzs[..|gzs| - 1], dt);
    }
  }

  /** At rest (every rate inside the dead-band) the heading never changes. */
  lemma {:induction false} YawRunInsideBand(thres: real, heading: real, gzs: seq<real>, dt: real)
    requires forall i :: 0 <= i < |gzs| ==> Abs(gzs[i]) <= thres
    ensures YawRun(thres, heading, gzs, dt) == heading
  {
    if |gzs| > 0 {
      var init := gzs[..|gzs| - 1];
      assert forall i :: 0 <= i < |init| ==> init[i] == gzs[i];
      YawRunInsideBand(thres, heading, init, dt);
    }
  }

  /** When every rate passes the dead-band the heading integrates all of them. */
  lemma YawRunOutsideBand(thres: real, heading: real, gzs: seq<real>, dt: real)
    requires forall i :: 0 <= i < |gzs| ==> thres < Abs(gzs[i])
    ensures YawRun(thres, heading, gzs, dt) == heading + Sum(gzs) * dt
  {
    YawRunLaw(thres, heading, gzs, dt);
    PassedAll(thres, gzs, dt);
  }

  /** With every rate outside the band, the passed turn is the whole turn. */
  lemma {:induction false} PassedAll(thres: real, gzs: seq<real>, dt: real)
    requires forall i :: 0 <= i < |gzs| ==> thres < Abs(gzs[i])
    ensures PassedTurn(thres, gzs, dt) == Sum(gzs) * dt
  {
    if |gzs| > 0 {
      var init, last := gzs[..|gzs| - 1], gzs[|gzs| - 1];
      assert forall i :: 0 <= i < |init| ==> init[i] == gzs[i];
      PassedAll(thres, init, dt);
      Distribute(Sum(init), last, dt);
    }
  }

  lemma Distribute(a: real, b: real, c: real)
    ensures a * c + b * c == (a + b) * c
  {
  }

  lemma Associate(a: real, b: real, c: real)
    ensures a * (b * c) == (a * b) * c
  {
  }

  function Repeat(v: real, n: nat): (s: seq<real>)
    ensures |s| == n && forall i :: 0 <= i < n ==> s[i] == v
  {
    seq(n, _ => v)
  }

  lemma {:induction false} SumRepeat(v: real, n: nat)
    ensures Sum(Repeat(v, n)) == n as real * v
  {
    if n > 0 {
      assert Repeat(v, n)[..n - 1] == Repeat(v, n - 1);
      SumRepeat(v, n - 1);
    }
  }

  /** A quarter turn at 90 degrees per second, sampled at 100 Hz for one
      second, clears the sketch's 0.03 rad/s dead-band on every cycle and
      accumulates exactly 90 degrees of heading. */
  lemma QuarterTurn()
    ensures YawRun(0.03, 0.0, Repeat(90.0 * DPS_TO_RADS, 100), 0.01) == 90.0 * DPS_TO_RADS
  {
    var gzs := Repeat(90.0 * DPS_TO_RADS, 100);
    YawRunOutsideBand(0.03, 0.0, gzs, 0.01);
    SumRepeat(90.0 * DPS_TO_RADS, 100);
  }

  // ---------------------------------------------------------------------
  // Roll and pitch at rest

  function Pow(b: real, n: nat): real {
    if n == 0 then 1.0 else b * Pow(b, n - 1)
  }

  /** The fused angle after `n` cycles with a zero rate (so the
      gyro-integrated angle is the previous estimate) and a steady
      accelerometer angle. */
  function Settle(tau: real, angle0: real, accelAngle: real, n: nat): real {
    if n == 0 then angle0 else Blend(tau, Settle(tau, angle0, accelAngle, n - 1), accelAngle)
  }

  /** At rest, each cycle shrinks the gap between the fused angle and the
      accelerometer angle by the factor tau: the gyro drift is forgotten
      geometrically. */
  lemma {:induction false} SettleGap(tau: real, angle0: real, accelAngle: real, n: nat)
    ensures Settle(tau, angle0, accelAngle, n) - accelAngle == Pow(tau, n) * (angle0 - accelAngle)
  {
    if n > 0 {
      SettleGap(tau, angle0, accelAngle, n - 1);
      GapStep(tau, Settle(tau, angle0, accelAngle, n - 1), accelAngle, Pow(tau, n - 1), angle0 - accelAngle,
              Settle(tau, angle0, accelAngle, n), Pow(tau, n));
    }
  }

  /** One blend at rest multiplies the gap to the accelerometer angle by tau. */
  lemma GapStep(tau: real, prev: real, accelAngle: real, p: real, e: real, next: real, p': real)
    requires prev - accelAngle == p * e
    requires next == Blend(tau, prev, accelAngle) && p' == tau * p
    ensures next - accelAngle == p' * e
  {
    Associate(tau, p, e);
  }
}
