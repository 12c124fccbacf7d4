/** The monolithic firmware of `src/main.cpp`: global tilt and IMU state,
    start-up calibration, the measure/fuse/report loop with its
    millisecond gates, the JSON report and the reset handlers of the web
    routes. */
module Sketch {
  import opened Common
  import opened Clock
  import opened Filter
  import opened Calibration
  import opened Record

  const CALIB_CNT: nat := 500
  const MEASURE_MS: nat := 1
  const REPORT_MS: nat := 250
  const TAU: real := 0.98
  const YAW_THRES: real := 0.03

  /** `sImu_t`: the last accelerometer, gyroscope and temperature values
      and the two calibration offsets. */
  datatype Imu = Imu(accl: Vec3, gyro: Vec3, temp: real, biasAccl: Vec3, biasGyro: Vec3)

  /** What `measure` leaves in the IMU record, as written. The gyro-bias
      subtraction goes through `accl.gyro`, which in the sensor-event union
      is the same storage as `accl.acceleration`: the accelerometer loses
      both offsets and the gyroscope keeps its raw value. */
  function MeasuredImu(imu: Imu, raw: Reading): (m: Imu)
    ensures m.gyro == raw.gyro && m.temp == raw.temp
    ensures Add(Add(m.accl, imu.biasAccl), imu.biasGyro) == raw.accl
    ensures m.biasAccl == imu.biasAccl && m.biasGyro == imu.biasGyro
  {
    imu.(accl := Sub(Sub(raw.accl, imu.biasAccl), imu.biasGyro), gyro := raw.gyro, temp := raw.temp)
  }

  /** The discrepancy: as soon as the gyroscope offset is not zero, the
      measured gyro rate differs from the bias-corrected rate, and the
      measured acceleration is the corrected one less the gyro offset. */
  lemma MeasureSkipsGyroBias(imu: Imu, raw: Reading)
    requires imu.biasGyro != ZERO
    ensures MeasuredImu(imu, raw).gyro != Correct(raw, Bias(imu.biasGyro, imu.biasAccl)).gyro
    ensures MeasuredImu(imu, raw).accl == Sub(Correct(raw, Bias(imu.biasGyro, imu.biasAccl)).accl, imu.biasGyro)
  {
  }

  /** `calcTilt`: the complementary filter with TAU on roll and pitch
      (accelerometer pitch written `atan2(-x, ...)`), and the heading
      integrated only outside the YAW_THRES dead-band. */
  function FusedTilt(m: MathLib, prev: Tilt, imu: Imu, dt: real): (t: Tilt)
    ensures t.roll == Blend(TAU, prev.roll + imu.gyro.x * dt, AccelRoll(m, imu.accl))
    ensures t.pitch == Blend(TAU, prev.pitch + imu.gyro.y * dt, AccelPitchNegArg(m, imu.accl))
    ensures Abs(imu.gyro.z) <= YAW_THRES ==> t.heading == prev.heading
    ensures YAW_THRES < Abs(imu.gyro.z) ==> t.heading == prev.heading + imu.gyro.z * dt
  {
    GatedTiltStep(TAU, YAW_THRES, prev, imu.gyro, AccelRoll(m, imu.accl), AccelPitchNegArg(m, imu.accl), dt)
  }

  /** The sketch and `SensorFusion` run the same filter: with a library
      whose atan2 is odd in its first argument and whose sqrt is
      non-negative, the sketch's fused tilt is the gated step the class
      computes, with TAU as the weight and YAW_THRES as the dead-band. */
  lemma SketchMatchesFusion(m: MathLib, prev: Tilt, imu: Imu, dt: real)
    requires OddAtan2(m) && NonNegSqrt(m)
    ensures FusedTilt(m, prev, imu, dt)
      == GatedTiltStep(TAU, YAW_THRES, prev, imu.gyro, AccelRoll(m, imu.accl), AccelPitch(m, imu.accl), dt)
  {
    PitchFormsAgree(m, imu.accl);
  }

  /** The sketch's filter at rest: after calibrating on resting samples, a
      resting reading with both offsets taken off (the intended `measure`)
      keeps a level attitude level. */
  lemma LevelAtRestCorrected(m: MathLib, samples: seq<Reading>, r: Reading, dt: real)
    requires OddAtan2(m) && NonNegSqrt(m)
    requires |samples| >= 1 && forall i :: 0 <= i < |samples| ==> samples[i] == r
    ensures var b := CalibratedBias(samples);
      var c := Correct(r, b);
      FusedTilt(m, LEVEL, Imu(c.accl, c.gyro, c.temp, b.accl, b.gyro), dt) == LEVEL
  {
    var b := CalibratedBias(samples);
    var c := Correct(r, b);
    CalibrationAtRest(samples, r);
    SketchMatchesFusion(m, LEVEL, Imu(c.accl, c.gyro, c.temp, b.accl, b.gyro), dt);
    LevelAtRest(m, TAU, YAW_THRES, dt);
  }

  /** The keys of the sketch's JSON report, in the order they are written. */
  const JSON_KEYS: seq<Key> := [Temp, GyroX, GyroY, GyroZ, AcclX, AcclY, AcclZ, TiltYaw, TiltRoll, TiltPitch]

  /** The ten assignments of `convJSON`, in order, each the string of its
      own component: the temperature, the gyro and accelerometer axes, then
      heading, roll and pitch under tiltYaw, tiltRoll and tiltPitch. */
  function JsonFields(tilt: Tilt, imu: Imu, str: real -> string): (fs: seq<Field>)
    ensures Assigned(fs) == JSON_KEYS
  {
    [Field(Temp, str(imu.temp)),
     Field(GyroX, str(imu.gyro.x)), Field(GyroY, str(imu.gyro.y)), Field(GyroZ, str(imu.gyro.z)),
     Field(AcclX, str(imu.accl.x)), Field(AcclY, str(imu.accl.y)), Field(AcclZ, str(imu.accl.z)),
     Field(TiltYaw, str(tilt.heading)), Field(TiltRoll, str(tilt.roll)), Field(TiltPitch, str(tilt.pitch))]
  }

  /** The object the ten assignments build on a fresh object. */
  function JsonReport(tilt: Tilt, imu: Imu, str: real -> string): Report {
    PutAll(EMPTY, JsonFields(tilt, imu, str))
  }

  /** `convJSON`: ten keyed assignments on a fresh object. The report holds
      exactly the ten keys, in order and once each (JsonKeys), and every key
      reads the string of its own component (JsonImuValues,
      JsonTiltValues). */
  method ConvJson(tilt: Tilt, imu: Imu, str: real -> string) returns (data: Report)
    ensures data == JsonReport(tilt, imu, str)
    ensures data.keys == JSON_KEYS && Valid(data)
  {
    data := PutAll(EMPTY, JsonFields(tilt, imu, str));
    JsonKeys(tilt, imu, str);
  }

  /** The report lists the ten keys in order, once each. */
  lemma JsonKeys(tilt: Tilt, imu: Imu, str: real -> string)
    ensures JsonReport(tilt, imu, str).keys == JSON_KEYS
    ensures Valid(JsonReport(tilt, imu, str))
  {
    var fields := JsonFields(tilt, imu, str);
    JsonKeysDistinct();
    PutAllAppends(EMPTY, fields);
    EmptyValid();
    PutAllKeeps(EMPTY, fields);
  }

  /** The temperature, gyro and accelerometer keys read the string of
      their own component. */
  lemma JsonImuValues(tilt: Tilt, imu: Imu, str: real -> string)
    ensures Lookup(JsonReport(tilt, imu, str), Temp) == Some(str(imu.temp))
    ensures Lookup(JsonReport(tilt, imu, str), GyroX) == Some(str(imu.gyro.x))
    ensures Lookup(JsonReport(tilt, imu, str), GyroY) == Some(str(imu.gyro.y))
    ensures Lookup(JsonReport(tilt, imu, str), GyroZ) == Some(str(imu.gyro.z))
    ensures Lookup(JsonReport(tilt, imu, str), AcclX) == Some(str(imu.accl.x))
    ensures Lookup(JsonReport(tilt, imu, str), AcclY) == Some(str(imu.accl.y))
    ensures Lookup(JsonReport(tilt, imu, str), AcclZ) == Some(str(imu.accl.z))
  {
    var fields := JsonFields(tilt, imu, str);
    JsonKeysDistinct();
    PutAllReads(EMPTY, fields);
    assert fields[0] == Field(Temp, str(imu.temp));
    assert fields[1] == Field(GyroX, str(imu.gyro.x));
    assert fields[2] == Field(GyroY, str(imu.gyro.y));
    assert fields[3] == Field(GyroZ, str(imu.gyro.z));
    assert fields[4] == Field(AcclX, str(imu.accl.x));
    assert fields[5] == Field(AcclY, str(imu.accl.y));
    assert fields[6] == Field(AcclZ, str(imu.accl.z));
  }

  /** The orientation keys read the string of their own angle: tiltYaw the
      heading, tiltRoll the roll, tiltPitch the pitch. */
  lemma JsonTiltValues(tilt: Tilt, imu: Imu, str: real -> string)
    ensures Lookup(JsonReport(tilt, imu, str), TiltYaw) == Some(str(tilt.heading))
    ensures Lookup(JsonReport(tilt, imu, str), TiltRoll) == Some(str(tilt.roll))
    ensures Lookup(JsonReport(tilt, imu, str), TiltPitch) == Some(str(tilt.pitch))
  {
    var fields := JsonFields(tilt, imu, str);
    JsonKeysDistinct();
    PutAllReads(EMPTY, fields);
    assert fields[7] == Field(TiltYaw, str(tilt.heading));
    assert fields[8] == Field(TiltRoll, str(tilt.roll));
    assert fields[9] == Field(TiltPitch, str(tilt.pitch));
  }

  lemma JsonKeysDistinct()
    ensures Distinct(JSON_KEYS)
  {
  }

  /** The report's keys are the strings `convJson` assigns, in its order. */
  lemma JsonKeyNames()
    ensures Names(JSON_KEYS)
      == ["temp", "gyroX", "gyroY", "gyroZ", "acclX", "acclY", "acclZ", "tiltYaw", "tiltRoll", "tiltPitch"]
  {
  }

  /** The global state of the sketch: the fused orientation, the IMU
      record and the two gate timestamps (all zero at start-up, as static
      storage is). */
  class Firmware {
    var tilt: Tilt
    var imu: Imu
    var lastMeasure: u64
    var lastReport: u64
    const math: MathLib

    constructor(math: MathLib)
      ensures tilt == LEVEL && imu == Imu(ZERO, ZERO, 0.0, ZERO, ZERO)
      ensures lastMeasure == 0 && lastReport == 0 && this.math == math
    {
      tilt := LEVEL;
      imu := Imu(ZERO, ZERO, 0.0, ZERO, ZERO);
      lastMeasure := 0;
      lastReport := 0;
      this.math := math;
    }

    /** `calibrate`: sums the samples per axis, stores the means as the
        offsets, and takes standard gravity off the accelerometer Z offset.
        Only the two offsets change. */
    method Calibrate(samples: seq<Reading>)
      requires |samples| >= 1
      modifies this
      ensures Bias(imu.biasGyro, imu.biasAccl) == CalibratedBias(samples)
      ensures imu == old(imu).(biasAccl := imu.biasAccl, biasGyro := imu.biasGyro)
      ensures tilt == old(tilt) && lastMeasure == old(lastMeasure) && lastReport == old(lastReport)
    {
      var sumAccl, sumGyro := ZERO, ZERO;
      var i := 0;
      while i < |samples|
        invariant 0 <= i <= |samples|
        invariant sumAccl == SumVec(Accls(samples)[..i])
        invariant sumGyro == SumVec(Gyros(samples)[..i])
        invariant unchanged(this)
      {
        var s := samples[i];
        SumVecStep(Accls(samples), i);
        SumVecStep(Gyros(samples), i);
        sumAccl := Vec3(sumAccl.x + s.accl.x, sumAccl.y + s.accl.y, sumAccl.z + s.accl.z);
        sumGyro := Vec3(sumGyro.x + s.gyro.x, sumGyro.y + s.gyro.y, sumGyro.z + s.gyro.z);
        i := i + 1;
      }
      assert Accls(samples)[..i] == Accls(samples) && Gyros(samples)[..i] == Gyros(samples);
      var n := |samples| as real;
      var biasAccl := Vec3(sumAccl.x / n, sumAccl.y / n, sumAccl.z / n);
      var biasGyro := Vec3(sumGyro.x / n, sumGyro.y / n, sumGyro.z / n);
      biasAccl := biasAccl.(z := biasAccl.z - GRAVITY_STANDARD);
      imu := imu.(biasAccl := biasAccl, biasGyro := biasGyro);
    }

    /** `initMPU`: a sensor that does not answer stops the firmware in the
        error handler (nothing changes); otherwise calibration runs over
        CALIB_CNT samples. */
    method InitMpu(beginOk: bool, samples: seq<Reading>) returns (outcome: Outcome)
      requires |samples| == CALIB_CNT
      modifies this
      ensures !beginOk ==> outcome == Fail("IMU (MPU6050) not found!") && imu == old(imu)
      ensures beginOk ==> outcome == Pass && Bias(imu.biasGyro, imu.biasAccl) == CalibratedBias(samples)
      ensures beginOk ==> imu == old(imu).(biasAccl := imu.biasAccl, biasGyro := imu.biasGyro)
      ensures tilt == old(tilt) && lastMeasure == old(lastMeasure) && lastReport == old(lastReport)
    {
      if !beginOk {
        return Fail("IMU (MPU6050) not found!");
      }
      Calibrate(samples);
      outcome := Pass;
    }

    /** `measure`, as written (MeasuredImu). */
    method Measure(raw: Reading)
      modifies this
      ensures imu == MeasuredImu(old(imu), raw)
      ensures tilt == old(tilt) && lastMeasure == old(lastMeasure) && lastReport == old(lastReport)
    {
      var accl := raw.accl;
      accl := Vec3(accl.x - imu.biasAccl.x, accl.y - imu.biasAccl.y, accl.z - imu.biasAccl.z);
      accl := Vec3(accl.x - imu.biasGyro.x, accl.y - imu.biasGyro.y, accl.z - imu.biasGyro.z);
      imu := imu.(accl := accl, gyro := raw.gyro, temp := raw.temp);
    }

    /** `calcTilt` on the global orientation (FusedTilt). */
    method CalcTilt(dt: real)
      modifies this
      ensures tilt == FusedTilt(math, old(tilt), imu, dt)
      ensures imu == old(imu) && lastMeasure == old(lastMeasure) && lastReport == old(lastReport)
    {
      var accelRoll := AccelRoll(math, imu.accl);
      var accelPitch := AccelPitchNegArg(math, imu.accl);
      var gyroRoll := tilt.roll + imu.gyro.x * dt;
      var gyroPitch := tilt.pitch + imu.gyro.y * dt;
      tilt := tilt.(roll := Blend(TAU, gyroRoll, accelRoll), pitch := Blend(TAU, gyroPitch, accelPitch));
      tilt := tilt.(heading := YawStep(YAW_THRES, tilt.heading, imu.gyro.z, dt));
    }

    /** The measuring half of `loop`: measuring and fusing happen exactly
        when more than MEASURE_MS ms passed since the last measurement,
        with dt the elapsed time in seconds. `now1` and `now2` are the two
        `millis()` readings this half takes, `raw` the sensor event read by
        `measure`. */
    method MeasureIfDue(now1: u32, now2: u32, raw: Reading)
      modifies this
      ensures var e := Elapsed(now1, old(lastMeasure));
        if MEASURE_MS < e then
          && lastMeasure == now2
          && imu == MeasuredImu(old(imu), raw)
          && tilt == FusedTilt(math, old(tilt), imu, e as real * 0.001)
        else
          lastMeasure == old(lastMeasure) && imu == old(imu) && tilt == old(tilt)
      ensures lastReport == old(lastReport)
    {
      var ms := Elapsed(now1, lastMeasure);
      if MEASURE_MS < ms {
        lastMeasure := now2;
        Measure(raw);
        CalcTilt(ms as real * 0.001);
      }
    }

    /** The reporting half of `loop`: a report of the current state is
        produced exactly when more than REPORT_MS ms passed since the last
        one. `now3` and `now4` are the two `millis()` readings this half
        takes. */
    method ReportIfDue(now3: u32, now4: u32, str: real -> string) returns (sent: Option<Report>)
      modifies this
      ensures var e := Elapsed(now3, old(lastReport));
        if REPORT_MS < e then
          lastReport == now4 && sent == Some(JsonReport(tilt, imu, str))
        else
          lastReport == old(lastReport) && sent == None
      ensures tilt == old(tilt) && imu == old(imu) && lastMeasure == old(lastMeasure)
    {
      var ms := Elapsed(now3, lastReport);
      if REPORT_MS < ms {
        lastReport := now4;
        var json := ConvJson(tilt, imu, str);
        sent := Some(json);
      } else {
        sent := None;
      }
    }

    /** One pass of `loop`: the measuring half, then the reporting half on
        the state the first half left. */
    method Loop(now1: u32, now2: u32, raw: Reading, now3: u32, now4: u32, str: real -> string)
      returns (sent: Option<Report>)
      modifies this
      ensures var e := Elapsed(now1, old(lastMeasure));
        if MEASURE_MS < e then
          && lastMeasure == now2
          && imu == MeasuredImu(old(imu), raw)
          && tilt == FusedTilt(math, old(tilt), imu, e as real * 0.001)
        else
          lastMeasure == old(lastMeasure) && imu == old(imu) && tilt == old(tilt)
      ensures var e := Elapsed(now3, old(lastReport));
        if REPORT_MS < e then
          lastReport == now4 && sent == Some(JsonReport(tilt, imu, str))
        else
          lastReport == old(lastReport) && sent == None
    {
      MeasureIfDue(now1, now2, raw);
      sent := ReportIfDue(now3, now4, str);
    }

    /** `/reset`: all three angles become zero; nothing else changes. */
    method ResetAll()
      modifies this
      ensures tilt == LEVEL
      ensures imu == old(imu) && lastMeasure == old(lastMeasure) && lastReport == old(lastReport)
    {
      tilt := Tilt(0.0, 0.0, 0.0);
    }

    /** `/reset-yaw`: only the heading becomes zero. */
    method ResetYaw()
      modifies this
      ensures tilt.heading == 0.0 && tilt.roll == old(tilt.roll) && tilt.pitch == old(tilt.pitch)
      ensures imu == old(imu) && lastMeasure == old(lastMeasure) && lastReport == old(lastReport)
    {
      tilt := tilt.(heading := 0.0);
    }

    /** `/reset-roll`: only the roll becomes zero. */
    method ResetRoll()
      modifies this
      ensures tilt.roll == 0.0 && tilt.pitch == old(tilt.pitch) && tilt.heading == old(tilt.heading)
      ensures imu == old(imu) && lastMeasure == old(lastMeasure) && lastReport == old(lastReport)
    {
      tilt := tilt.(roll := 0.0);
    }

    /** `/reset-pitch`: only the pitch becomes zero. */
    method ResetPitch()
      modifies this
      ensures tilt.pitch == 0.0 && tilt.roll == old(tilt.roll) && tilt.heading == old(tilt.heading)
      ensures imu == old(imu) && lastMeasure == old(lastMeasure) && lastReport == old(lastReport)
    {
      tilt := tilt.(pitch := 0.0);
    }
  }
}
