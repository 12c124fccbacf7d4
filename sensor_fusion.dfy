/** `SensorFusion`: the MPU6050 complementary filter as a class with a fixed
    scan period. Unlike the sketch, the gyro and accelerometer readings are
    kept in two separate events, so both offsets are subtracted where they
    belong. */
module Fusion {
  import opened Common
  import opened Clock
  import opened Filter
  import opened Calibration

  /** Calibrated at rest, then read at rest: a reading equal to every
      calibration sample, bias-corrected as `getEvent` does, gives a step
      from a level attitude that stays level. */
  lemma LevelAfterCalibration(m: MathLib, tau: real, thres: real, dt: real,
                              samples: seq<Reading>, r: Reading)
    requires OddAtan2(m) && NonNegSqrt(m) && thres >= 0.0
    requires |samples| >= 1 && forall i :: 0 <= i < |samples| ==> samples[i] == r
    ensures var c := Correct(r, CalibratedBias(samples));
      GatedTiltStep(tau, thres, LEVEL, c.gyro, AccelRoll(m, c.accl), AccelPitch(m, c.accl), dt) == LEVEL
  {
    CalibrationAtRest(samples, r);
    LevelAtRest(m, tau, thres, dt);
  }

  class SensorFusion {
    /** `mAccl.acceleration`, `mGyro.gyro` and `mTemp.temperature`: the last
        event read, bias-corrected once `getEvent` has run. */
    var accl: Vec3
    var gyro: Vec3
    var temp: real
    var biasAccl: Vec3
    var biasGyro: Vec3
    const scanTime: u32
    var elapsed: u32
    var lastTime: u64
    const fltrTau: real
    const yawThres: real
    const math: MathLib

    /** The scan period, thresholds and filter weight are fixed at
        construction; both timestamps start at zero. */
    constructor(scanTime: u32, yawThres: real, fltrTau: real, math: MathLib)
      ensures this.scanTime == scanTime && this.yawThres == yawThres && this.fltrTau == fltrTau
      ensures this.math == math && lastTime == 0 && elapsed == 0
    {
      this.scanTime := scanTime;
      this.yawThres := yawThres;
      this.fltrTau := fltrTau;
      this.math := math;
      lastTime := 0;
      elapsed := 0;
    }

    /** `init`: when the sensor does not answer, the error string is thrown
        and calibration never runs (no field changes); otherwise the
        offsets are calibrated over the `count` samples read. */
    method Init(beginOk: bool, samples: seq<Reading>) returns (outcome: Outcome)
      requires beginOk ==> |samples| >= 1
      modifies this
      ensures !beginOk ==> outcome == Fail("MPU6050 error\n") && unchanged(this)
      ensures beginOk ==> outcome == Pass && Bias(biasGyro, biasAccl) == CalibratedBias(samples)
      ensures beginOk ==> Reading(accl, gyro, temp) == samples[|samples| - 1]
      ensures lastTime == old(lastTime) && elapsed == old(elapsed)
    {
      if !beginOk {
        return Fail("MPU6050 error\n");
      }
      Calibrate(samples);
      outcome := Pass;
    }

    /** `calibrate`: reads `count` events (the samples), sums each axis and
        stores the means as offsets, with standard gravity taken off the
        accelerometer Z offset. The last event read stays in the event
        fields. */
    method Calibrate(samples: seq<Reading>)
      requires |samples| >= 1
      modifies this
      ensures Bias(biasGyro, biasAccl) == CalibratedBias(samples)
      ensures Reading(accl, gyro, temp) == samples[|samples| - 1]
      ensures lastTime == old(lastTime) && elapsed == old(elapsed)
    {
      var sumAccl, sumGyro := ZERO, ZERO;
      var i := 0;
      while i < |samples|
        invariant 0 <= i <= |samples|
        invariant sumAccl == SumVec(Accls(samples)[..i])
        invariant sumGyro == SumVec(Gyros(samples)[..i])
        invariant 0 < i ==> Reading(accl, gyro, temp) == samples[i - 1]
        invariant lastTime == old(lastTime) && elapsed == old(elapsed)
      {
        accl, gyro, temp := samples[i].accl, samples[i].gyro, samples[i].temp;
        SumVecStep(Accls(samples), i);
        SumVecStep(Gyros(samples), i);
        sumGyro := Vec3(sumGyro.x + gyro.x, sumGyro.y + gyro.y, sumGyro.z + gyro.z);
        sumAccl := Vec3(sumAccl.x + accl.x, sumAccl.y + accl.y, sumAccl.z + accl.z);
        i := i + 1;
      }
      assert Accls(samples)[..i] == Accls(samples) && Gyros(samples)[..i] == Gyros(samples);
      var n := |samples| as real;
      biasGyro := Vec3(sumGyro.x / n, sumGyro.y / n, sumGyro.z / n);
      biasAccl := Vec3(sumAccl.x / n, sumAccl.y / n, sumAccl.z / n);
      biasAccl := biasAccl.(z := biasAccl.z - GRAVITY_STANDARD);
    }

    /** The fixed filter period in seconds: the configured scan time, not
        the time that really elapsed. */
    function Dt(): real
      reads this
    {
      scanTime as real * 0.001
    }

    /** `getTilt` on the caller's orientation: the complementary filter
        with the fixed period on roll and pitch (accelerometer pitch written
        `-atan2(x, ...)`), and the heading integrated only outside the
        dead-band. Nothing of the object changes. */
    method GetTilt(tilt: Tilt) returns (t: Tilt)
      ensures t == GatedTiltStep(fltrTau, yawThres, tilt, gyro, AccelRoll(math, accl), AccelPitch(math, accl), Dt())
      ensures Abs(gyro.z) <= yawThres ==> t.heading == tilt.heading
      ensures yawThres < Abs(gyro.z) ==> t.heading == tilt.heading + gyro.z * Dt()
    {
      var accelRoll := AccelRoll(math, accl);
      var accelPitch := AccelPitch(math, accl);
      var dt := scanTime as real * 0.001;
      var gyroRoll := tilt.roll + gyro.x * dt;
      var gyroPitch := tilt.pitch + gyro.y * dt;
      t := tilt.(roll := Blend(fltrTau, gyroRoll, accelRoll), pitch := Blend(fltrTau, gyroPitch, accelPitch));
      t := t.(heading := YawStep(yawThres, t.heading, gyro.z, dt));
    }

    /** `getEvent`: spins until a `millis()` reading (taken from `clock`, in
        order) is at least the scan time after the last event, stores the
        next reading as the new start time, then reads `raw` and returns it
        bias-corrected; the corrected event is also kept for `getTilt`. */
    method GetEvent(clock: seq<u32>, raw: Reading) returns (gyroOut: Vec3, acclOut: Vec3)
      requires CanRelease(clock, lastTime, scanTime)
      modifies this
      ensures exists k: nat :: (ReleasedAt(clock, old(lastTime), scanTime, k) && k + 1 < |clock|
        && lastTime == clock[k + 1] && elapsed == Elapsed(clock[k], old(lastTime)))
      ensures Reading(acclOut, gyroOut, raw.temp) == Correct(raw, Bias(biasGyro, biasAccl))
      ensures gyro == gyroOut && accl == acclOut && temp == raw.temp
      ensures biasGyro == old(biasGyro) && biasAccl == old(biasAccl)
    {
      ghost var release :| 0 <= release < |clock| - 1 && scanTime <= Elapsed(clock[release], lastTime);
      var k := 0;
      elapsed := Elapsed(clock[0], lastTime);
      while scanTime > elapsed
        invariant 0 <= k <= release
        invariant elapsed == Elapsed(clock[k], old(lastTime)) && lastTime == old(lastTime)
        invariant forall j :: 0 <= j < k ==> Elapsed(clock[j], lastTime) < scanTime
        invariant biasGyro == old(biasGyro) && biasAccl == old(biasAccl)
        decreases release - k
      {
        k := k + 1;
        elapsed := Elapsed(clock[k], lastTime);
      }
      lastTime := clock[k + 1];
      assert ReleasedAt(clock, old(lastTime), scanTime, k);
      var corrected := Correct(raw, Bias(biasGyro, biasAccl));
      accl, gyro, temp := corrected.accl, corrected.gyro, corrected.temp;
      gyroOut, acclOut := gyro, accl;
    }
  }
}
