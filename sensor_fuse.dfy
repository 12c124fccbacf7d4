/** `SensorFUSE`: the MPU6050 complementary filter paced by a sampling
    frequency. The period is `1/freq` seconds, `wait` spins for that period
    truncated to whole milliseconds, and `getTilt` blends roll and pitch
    only: the heading is left to another sensor. */
module Fuse {
  import opened Common
  import opened Clock
  import opened Filter
  import opened Calibration

  /** `duration()`: the sampling period in seconds. */
  function Duration(freq: u32): (d: real)
    requires freq >= 1
    ensures d * freq as real == 1.0
    ensures 0.0 < d <= 1.0
  {
    1.0 / freq as real
  }

  /** The `wait` threshold: the period in milliseconds, truncated to a
      `uint32_t`. */
  function WaitMs(freq: u32): (w: u32)
    requires freq >= 1
    ensures w as real <= Duration(freq) * 1000.0 < w as real + 1.0
  {
    (Duration(freq) * 1000.0).Floor
  }

  /** Truncating the period in milliseconds is integer division of 1000 by
      the frequency: the wait is never longer than the period and less than
      a millisecond shorter (above 1000 Hz it is zero). */
  lemma WaitMsIsQuotient(freq: u32)
    requires freq >= 1
    ensures WaitMs(freq) == 1000 / freq
    ensures WaitMs(freq) as real <= Duration(freq) * 1000.0 < WaitMs(freq) as real + 1.0
  {
    var q, r := 1000 / freq, 1000 % freq;
    assert 1000 == q * freq + r && 0 <= r < freq;
    var f := freq as real;
    assert (q * freq) as real == q as real * f;
    assert Duration(freq) * 1000.0 == 1000.0 / f;
    QuotientBounds(q as real, f, 1000.0);
  }

  lemma QuotientBounds(q: real, f: real, n: real)
    requires f > 0.0 && q * f <= n < (q + 1.0) * f
    ensures q <= n / f < q + 1.0
  {
    var r := n / f;
    assert r * f == n;
    if q + 1.0 <= r {
      MulMono(q + 1.0, r, f);
    }
  }

  lemma MulMono(a: real, b: real, f: real)
    requires a <= b && f > 0.0
    ensures a * f <= b * f
  {
  }

  /** Adds one sample to a three-element per-axis accumulator. */
  method Accumulate(sum: array<real>, v: Vec3)
    requires sum.Length == 3
    modifies sum
    ensures Vec3(sum[0], sum[1], sum[2]) == Add(Vec3(old(sum[0]), old(sum[1]), old(sum[2])), v)
  {
    sum[0] := sum[0] + v.x;
    sum[1] := sum[1] + v.y;
    sum[2] := sum[2] + v.z;
  }

  class SensorFuse {
    /** `mAccl.acceleration`, `mGyro.gyro` and `mTemp.temperature`: the last
        event read, bias-corrected once `getEvent` has run. */
    var accl: Vec3
    var gyro: Vec3
    var temp: real
    var biasAccl: Vec3
    var biasGyro: Vec3
    const freq: u32
    var lastTime: u32
    const fltrTau: real
    const math: MathLib

    constructor(freq: u32, fltrTau: real, math: MathLib)
      ensures this.freq == freq && this.fltrTau == fltrTau && this.math == math && lastTime == 0
    {
      this.freq := freq;
      this.fltrTau := fltrTau;
      this.math := math;
      lastTime := 0;
    }

    /** `init`: when the sensor does not answer, the error string is thrown
        and calibration never runs (no field changes); otherwise the
        offsets are calibrated over the `count` samples read. */
    method Init(beginOk: bool, samples: seq<Reading>) returns (outcome: Outcome)
      requires beginOk ==> |samples| >= 1
      modifies this
      ensures !beginOk ==> outcome == Fail("MPU6050 error\n") && unchanged(this)
      ensures beginOk ==> outcome == Pass && Bias(biasGyro, biasAccl) == CalibratedBias(samples)
      ensures beginOk ==> Reading(accl, gyro, temp) == samples[|samples| - 1]
      ensures lastTime == old(lastTime)
    {
      if !beginOk {
        return Fail("MPU6050 error\n");
      }
      Calibrate(samples);
      outcome := Pass;
    }

    /** `wait`: spins until a `millis()` reading (taken from `clock`, in
        order) is at least WaitMs after the last one stored, then stores the
        next reading. */
    method Wait(clock: seq<u32>)
      requires freq >= 1 && CanRelease(clock, lastTime, WaitMs(freq))
      modifies this
      ensures exists k: nat :: (ReleasedAt(clock, old(lastTime), WaitMs(freq), k) && k + 1 < |clock|
        && lastTime == clock[k + 1])
      ensures accl == old(accl) && gyro == old(gyro) && temp == old(temp)
      ensures biasAccl == old(biasAccl) && biasGyro == old(biasGyro)
    {
      var ms := WaitMs(freq);
      ghost var release :| 0 <= release < |clock| - 1 && ms <= Elapsed(clock[release], lastTime);
      var k := 0;
      while ms > Elapsed(clock[k], lastTime)
        invariant 0 <= k <= release
        invariant forall j :: 0 <= j < k ==> Elapsed(clock[j], lastTime) < ms
        invariant unchanged(this)
        decreases release - k
      {
        k := k + 1;
      }
      lastTime := clock[k + 1];
      assert ReleasedAt(clock, old(lastTime), ms, k);
    }

    /** `calibrate`: reads `count` events (the samples), sums each axis in
        two three-element accumulators and stores the means as offsets,
        with standard gravity taken off the accelerometer Z offset. */
    method Calibrate(samples: seq<Reading>)
      requires |samples| >= 1
      modifies this
      ensures Bias(biasGyro, biasAccl) == CalibratedBias(samples)
      ensures Reading(accl, gyro, temp) == samples[|samples| - 1]
      ensures lastTime == old(lastTime)
    {
      var sumAccl := new real[3];
      var sumGyro := new real[3];
      sumAccl[0], sumAccl[1], sumAccl[2] := 0.0, 0.0, 0.0;
      sumGyro[0], sumGyro[1], sumGyro[2] := 0.0, 0.0, 0.0;
      var i := 0;
      while i < |samples|
        invariant 0 <= i <= |samples|
        invariant Vec3(sumAccl[0], sumAccl[1], sumAccl[2]) == SumVec(Accls(samples)[..i])
        invariant Vec3(sumGyro[0], sumGyro[1], sumGyro[2]) == SumVec(Gyros(samples)[..i])
        invariant 0 < i ==> Reading(accl, gyro, temp) == samples[i - 1]
        invariant lastTime == old(lastTime)
      {
        var s := samples[i];
        SumVecStep(Accls(samples), i);
        SumVecStep(Gyros(samples), i);
        Accumulate(sumGyro, s.gyro);
        Accumulate(sumAccl, s.accl);
        accl, gyro, temp := s.accl, s.gyro, s.temp;
        i := i + 1;
      }
      assert Accls(samples)[..i] == Accls(samples) && Gyros(samples)[..i] == Gyros(samples);
      var totalGyro, totalAccl := Vec3(sumGyro[0], sumGyro[1], sumGyro[2]), Vec3(sumAccl[0], sumAccl[1], sumAccl[2]);
      var n := |samples| as real;
      biasGyro := Vec3(totalGyro.x / n, totalGyro.y / n, totalGyro.z / n);
      biasAccl := Vec3(totalAccl.x / n, totalAccl.y / n, totalAccl.z / n);
      biasAccl := biasAccl.(z := biasAccl.z - GRAVITY_STANDARD);
    }

    /** `getTilt` on the caller's orientation: the complementary filter on
        roll and pitch with dt the sampling period; the heading is never
        assigned. Nothing of the object changes. */
    method GetTilt(tilt: Tilt) returns (t: Tilt)
      requires freq >= 1
      ensures t == TiltStep(fltrTau, tilt, gyro, AccelRoll(math, accl), AccelPitch(math, accl), Duration(freq))
      ensures t.heading == tilt.heading
    {
      var dt := Duration(freq);
      var accelRoll := AccelRoll(math, accl);
      var accelPitch := AccelPitch(math, accl);
      var gyroRoll := tilt.roll + gyro.x * dt;
      var gyroPitch := tilt.pitch + gyro.y * dt;
      t := tilt.(roll := Blend(fltrTau, gyroRoll, accelRoll), pitch := Blend(fltrTau, gyroPitch, accelPitch));
    }

    /** `getEvent`: reads `raw` and returns it bias-corrected; the corrected
        event is also kept for `getTilt`. No waiting happens here. */
    method GetEvent(raw: Reading) returns (gyroOut: Vec3, acclOut: Vec3)
      modifies this
      ensures Reading(acclOut, gyroOut, raw.temp) == Correct(raw, Bias(biasGyro, biasAccl))
      ensures gyro == gyroOut && accl == acclOut && temp == raw.temp
      ensures biasGyro == old(biasGyro) && biasAccl == old(biasAccl) && lastTime == old(lastTime)
    {
      var corrected := Correct(raw, Bias(biasGyro, biasAccl));
      accl, gyro, temp := corrected.accl, corrected.gyro, corrected.temp;
      gyroOut, acclOut := gyro, accl;
    }
  }
}
