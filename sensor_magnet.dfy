/** `SensorMagnet`: the HMC5883L compass. Calibration tracks the range of
    every axis and takes its midpoint as the hard-iron offset; the heading
    is the magnetic bearing plus the local declination, brought back into
    [0, 2*PI] by a single correction. */
module Magnet {
  import opened Common
  import opened Filter

  /** The declination in radians from whole degrees and minutes of arc. */
  function Declination(deg: real, min: real): (r: real)
    ensures r / DPS_TO_RADS * 60.0 == deg * 60.0 + min
  {
    (deg + min / 60.0) * DPS_TO_RADS
  }

  /** Sixty minutes of arc are one degree, and whole degrees convert by the
      degree-to-radian factor alone. */
  lemma DeclinationMinutes(deg: real, min: real)
    ensures Declination(deg, min + 60.0) == Declination(deg + 1.0, min)
    ensures Declination(deg, 0.0) == deg * DPS_TO_RADS
  {
  }

  // ---------------------------------------------------------------------
  // Range tracking and the hard-iron offset

  /** The `{min, max}` pair `getRange` maintains for one axis. */
  datatype Range = Range(lo: real, hi: real)

  /** The pair before any sample: both ends zero. */
  const NO_RANGE: Range := Range(0.0, 0.0)

  /** One `getRange` step: the minimum drops to a smaller value and the
      maximum rises to a larger one. */
  function Track(r: Range, v: real): (r': Range)
    ensures r'.lo == Min(r.lo, v) && r'.hi == Max(r.hi, v)
  {
    Range(if v < r.lo then v else r.lo, if v > r.hi then v else r.hi)
  }

  /** After a step the value lies in the range, and the range only grows. */
  lemma TrackBounds(r: Range, v: real)
    ensures Track(r, v).lo <= v <= Track(r, v).hi
    ensures Track(r, v).lo <= r.lo && r.hi <= Track(r, v).hi
  {
  }

  /** The range after tracking every value of `vals` in order, from NO_RANGE. */
  function RangeOver(vals: seq<real>): Range {
    if |vals| == 0 then NO_RANGE else Track(RangeOver(vals[..|vals| - 1]), vals[|vals| - 1])
  }

  lemma RangeOverStep(vals: seq<real>, i: nat)
    requires i < |vals|
    ensures RangeOver(vals[..i + 1]) == Track(RangeOver(vals[..i]), vals[i])
  {
    assert vals[..i + 1][..i] == vals[..i];
  }

  /** The tracked range is the smallest interval holding zero and every
      value: both ends bracket every value and zero, and each end is zero
      or one of the values. */
  lemma {:induction false} RangeOverBounds(vals: seq<real>)
    ensures RangeOver(vals).lo <= 0.0 <= RangeOver(vals).hi
    ensures forall i :: 0 <= i < |vals| ==> RangeOver(vals).lo <= vals[i] <= RangeOver(vals).hi
    ensures RangeOver(vals).lo == 0.0 || exists i :: 0 <= i < |vals| && vals[i] == RangeOver(vals).lo
    ensures RangeOver(vals).hi == 0.0 || exists i :: 0 <= i < |vals| && vals[i] == RangeOver(vals).hi
  {
    if |vals| > 0 {
      var init, last := vals[..|vals| - 1], vals[|vals| - 1];
      RangeOverBounds(init);
      assert forall i :: 0 <= i < |init| ==> init[i] == vals[i];
      var r := RangeOver(init);
      assert RangeOver(vals) == Track(r, last);
      if RangeOver(vals).lo != 0.0 && RangeOver(vals).lo != last {
        var i :| 0 <= i < |init| && init[i] == r.lo;
        assert vals[i] == RangeOver(vals).lo;
      }
      if RangeOver(vals).hi != 0.0 && RangeOver(vals).hi != last {
        var i :| 0 <= i < |init| && init[i] == r.hi;
        assert vals[i] == RangeOver(vals).hi;
      }
    }
  }

  /** The hard-iron offset of one axis. */
  function Midpoint(r: Range): real {
    (r.lo + r.hi) / 2.0
  }

  /** The midpoint of a range sits inside it, equally far from both ends. */
  lemma MidpointCentred(r: Range)
    requires r.lo <= r.hi
    ensures r.lo <= Midpoint(r) <= r.hi
    ensures Midpoint(r) - r.lo == r.hi - Midpoint(r)
  {
  }

  function Xs(s: seq<Vec3>): (xs: seq<real>)
    ensures |xs| == |s| && forall i :: 0 <= i < |s| ==> xs[i] == s[i].x
  {
    seq(|s|, i requires 0 <= i < |s| => s[i].x)
  }

  function Ys(s: seq<Vec3>): (ys: seq<real>)
    ensures |ys| == |s| && forall i :: 0 <= i < |s| ==> ys[i] == s[i].y
  {
    seq(|s|, i requires 0 <= i < |s| => s[i].y)
  }

  function Zs(s: seq<Vec3>): (zs: seq<real>)
    ensures |zs| == |s| && forall i :: 0 <= i < |s| ==> zs[i] == s[i].z
  {
    seq(|s|, i requires 0 <= i < |s| => s[i].z)
  }

  /** The offsets `calibrate` stores for the samples `s`: the midpoint of
      each axis's tracked range. */
  function HardIron(s: seq<Vec3>): (b: Vec3)
    ensures b.x - RangeOver(Xs(s)).lo == RangeOver(Xs(s)).hi - b.x
    ensures b.y - RangeOver(Ys(s)).lo == RangeOver(Ys(s)).hi - b.y
    ensures b.z - RangeOver(Zs(s)).lo == RangeOver(Zs(s)).hi - b.z
  {
    Vec3(Midpoint(RangeOver(Xs(s))), Midpoint(RangeOver(Ys(s))), Midpoint(RangeOver(Zs(s))))
  }

  /** The offset of one axis lies between its extremes (with zero counted
      as a sample), and subtracting it centres the axis: the corrected
      extremes are equally far above and below zero. */
  lemma OffsetCentres(vals: seq<real>)
    ensures RangeOver(vals).lo <= Midpoint(RangeOver(vals)) <= RangeOver(vals).hi
    ensures RangeOver(vals).hi - Midpoint(RangeOver(vals)) == Midpoint(RangeOver(vals)) - RangeOver(vals).lo
  {
    RangeOverBounds(vals);
    MidpointCentred(RangeOver(vals));
  }

  /** The stored offsets are the per-axis midpoints, so each lies inside
      its axis's range. */
  lemma HardIronCentres(s: seq<Vec3>)
    ensures RangeOver(Xs(s)).lo <= HardIron(s).x <= RangeOver(Xs(s)).hi
    ensures RangeOver(Ys(s)).lo <= HardIron(s).y <= RangeOver(Ys(s)).hi
    ensures RangeOver(Zs(s)).lo <= HardIron(s).z <= RangeOver(Zs(s)).hi
  {
    OffsetCentres(Xs(s));
    OffsetCentres(Ys(s));
    OffsetCentres(Zs(s));
  }

  // ---------------------------------------------------------------------
  // Heading

  /** `fixAngle`: one correction by a full turn, up or down. */
  function FixAngle(heading: real): (r: real)
    ensures r == heading || r == heading + TWO_PI || r == heading - TWO_PI
    ensures heading < 0.0 ==> r == heading + TWO_PI
    ensures TWO_PI < heading ==> r == heading - TWO_PI
    ensures 0.0 <= heading <= TWO_PI ==> r == heading
  {
    if 0.0 > heading then heading + 2.0 * PI
    else if 2.0 * PI < heading then heading - 2.0 * PI
    else heading
  }

  /** A heading less than a full turn out of range is brought into
      [0, 2*PI]. */
  lemma FixAngleRange(heading: real)
    requires -TWO_PI <= heading <= 2.0 * TWO_PI
    ensures 0.0 <= FixAngle(heading) <= TWO_PI
  {
  }

  /** A heading already in range is left as it is, so correcting twice is
      correcting once. */
  lemma FixAngleIdempotent(heading: real)
    requires -TWO_PI <= heading <= 2.0 * TWO_PI
    ensures 0.0 <= heading <= TWO_PI ==> FixAngle(heading) == heading
    ensures FixAngle(FixAngle(heading)) == FixAngle(heading)
  {
    FixAngleRange(heading);
  }

  /** Only one turn is taken off: two and a half turns come out as one and
      a half, still out of range. */
  lemma FixAngleSingleStep()
    ensures FixAngle(5.0 * PI) == 3.0 * PI && FixAngle(5.0 * PI) > TWO_PI
  {
  }

  /** The magnetic bearing of a field vector. */
  function Bearing(m: MathLib, magn: Vec3): (r: real)
    ensures OddAtan2(m) && NonNegSqrt(m) ==> m.atan2(-magn.x, Resultant(m, magn.y, magn.z)) == -r
    ensures OddAtan2(m) && NonNegSqrt(m) && magn.x == 0.0 ==> r == 0.0
  {
    SquaresNonNeg(magn.y, magn.z);
    m.atan2(magn.x, Resultant(m, magn.y, magn.z))
  }

  /** With a bearing in [-PI, PI] (the range of atan2) and a declination of
      at most half a turn either way, the heading `update` stores is in
      [0, 2*PI]. */
  lemma HeadingInRange(bearing: real, declAngle: real)
    requires -PI <= bearing <= PI && -PI <= declAngle <= PI
    ensures 0.0 <= FixAngle(bearing + declAngle) <= TWO_PI
  {
    FixAngleRange(bearing + declAngle);
  }

  class SensorMagnet {
    var bias: Vec3
    const declAngle: real
    /** `mTiltRads`: the orientation this sensor contributes to. */
    var tilt: Tilt
    const math: MathLib

    /** The declination is converted once, at construction. */
    constructor(declDeg: real, declMin: real, math: MathLib)
      ensures declAngle == Declination(declDeg, declMin) && this.math == math
    {
      declAngle := Declination(declDeg, declMin);
      this.math := math;
    }

    /** `init`: when the compass does not answer, the error string is thrown
        and calibration never runs (no field changes); otherwise the offsets
        are calibrated over the `count` samples read. */
    method Init(beginOk: bool, samples: seq<Vec3>) returns (outcome: Outcome)
      modifies this
      ensures !beginOk ==> outcome == Fail("HMC5883L error\n") && unchanged(this)
      ensures beginOk ==> outcome == Pass && bias == HardIron(samples)
      ensures tilt == old(tilt)
    {
      if !beginOk {
        return Fail("HMC5883L error\n");
      }
      Calibrate(samples);
      outcome := Pass;
    }

    /** `getRange` on a two-element `{min, max}` buffer. Afterwards the
        value lies between the two ends. */
    static method GetRange(val: real, rng: array<real>)
      requires rng.Length == 2
      modifies rng
      ensures Range(rng[0], rng[1]) == Track(Range(old(rng[0]), old(rng[1])), val)
      ensures rng[0] <= val <= rng[1]
    {
      if val < rng[0] {
        rng[0] := val;
      }
      if val > rng[1] {
        rng[1] := val;
      }
    }

    /** `calibrate`: tracks the range of each axis over the `count` samples,
        starting from zero, and stores the midpoints as the offsets. No
        sample count is excluded: with none the offsets are zero. */
    method Calibrate(samples: seq<Vec3>)
      modifies this
      ensures bias == HardIron(samples)
      ensures tilt == old(tilt)
    {
      var rngX := new real[2];
      var rngY := new real[2];
      var rngZ := new real[2];
      rngX[0], rngX[1] := 0.0, 0.0;
      rngY[0], rngY[1] := 0.0, 0.0;
      rngZ[0], rngZ[1] := 0.0, 0.0;
      ghost var xs, ys, zs := Xs(samples), Ys(samples), Zs(samples);
      var i := 0;
      while i < |samples|
        invariant 0 <= i <= |samples|
        invariant Range(rngX[0], rngX[1]) == RangeOver(xs[..i])
        invariant Range(rngY[0], rngY[1]) == RangeOver(ys[..i])
        invariant Range(rngZ[0], rngZ[1]) == RangeOver(zs[..i])
        invariant tilt == old(tilt)
      {
        var magn := samples[i];
        RangeOverStep(xs, i);
        RangeOverStep(ys, i);
        RangeOverStep(zs, i);
        TrackAxes(magn, rngX, rngY, rngZ);
        i := i + 1;
      }
      assert xs[..i] == xs && ys[..i] == ys && zs[..i] == zs;
      var x, y, z := Range(rngX[0], rngX[1]), Range(rngY[0], rngY[1]), Range(rngZ[0], rngZ[1]);
      bias := Vec3((x.lo + x.hi) / 2.0, (y.lo + y.hi) / 2.0, (z.lo + z.hi) / 2.0);
    }

    /** The three `getRange` calls of one calibration sample. */
    static method TrackAxes(magn: Vec3, rngX: array<real>, rngY: array<real>, rngZ: array<real>)
      requires rngX.Length == 2 && rngY.Length == 2 && rngZ.Length == 2
      requires rngX != rngY && rngY != rngZ && rngX != rngZ
      modifies rngX, rngY, rngZ
      ensures Range(rngX[0], rngX[1]) == Track(Range(old(rngX[0]), old(rngX[1])), magn.x)
      ensures Range(rngY[0], rngY[1]) == Track(Range(old(rngY[0]), old(rngY[1])), magn.y)
      ensures Range(rngZ[0], rngZ[1]) == Track(Range(old(rngZ[0]), old(rngZ[1])), magn.z)
    {
      GetRange(magn.x, rngX);
      GetRange(magn.y, rngY);
      GetRange(magn.z, rngZ);
    }

    /** `update`: the heading becomes the corrected bearing of the field
        plus the declination; roll and pitch are not touched. */
    method Update(marg: MARG)
      modifies this
      ensures tilt == old(tilt).(heading := FixAngle(Bearing(math, marg.magn) + declAngle))
      ensures bias == old(bias)
    {
      var yaw := Bearing(math, marg.magn);
      yaw := yaw + declAngle;
      yaw := FixAngle(yaw);
      tilt := tilt.(heading := yaw);
    }

    /** `getEvent`: only the magnetometer part of the caller's sample set is
        written, with the reading `raw` less the offsets. */
    method GetEvent(marg: MARG, raw: Vec3) returns (m: MARG)
      ensures m.gyro == marg.gyro && m.accl == marg.accl
      ensures Add(m.magn, bias) == raw
    {
      var magn := Vec3(raw.x - bias.x, raw.y - bias.y, raw.z - bias.z);
      m := marg.(magn := magn);
    }
  }
}
