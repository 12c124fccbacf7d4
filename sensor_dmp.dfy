/** `SensorDMP`: the MPU6050's on-chip motion processor. The chip computes
    the orientation itself; the class starts it in a fixed order, waits for
    a FIFO packet, converts the packet's raw accelerometer and gyroscope
    counts to SI units and turns the chip's yaw/pitch/roll into a tilt. */
module Dmp {
  import opened Common

  // ---------------------------------------------------------------------
  // Raw counts to SI units

  /** Counts per g at the +-2 g accelerometer range. */
  const ACCL_LSB_PER_G: real := 16384.0
  /** Counts per degree per second at the +-2000 dps gyroscope range. */
  const GYRO_LSB_PER_DPS: real := 16.4

  /** One accelerometer axis in m/s^2. */
  function AcclSI(v: i16): (r: real)
    ensures r * ACCL_LSB_PER_G == v as real * GRAVITY_STANDARD
  {
    (v as real / ACCL_LSB_PER_G) * GRAVITY_STANDARD
  }

  /** One gyroscope axis in rad/s. */
  function GyroSI(v: i16): (r: real)
    ensures r * GYRO_LSB_PER_DPS == v as real * DPS_TO_RADS
  {
    (v as real / GYRO_LSB_PER_DPS) * DPS_TO_RADS
  }

  /** The accelerometer scale: 16384 counts are one standard gravity, and
      the 16-bit range covers [-2 g, 2 g). */
  lemma AcclScale(v: i16)
    ensures AcclSI(16384) == GRAVITY_STANDARD && AcclSI(0) == 0.0
    ensures -2.0 * GRAVITY_STANDARD <= AcclSI(v) < 2.0 * GRAVITY_STANDARD
  {
  }

  /** The gyroscope scale: 164 counts are ten degrees per second, and the
      16-bit range stays within 32768/16.4 (about 1998) degrees per second
      either way. */
  lemma GyroScale(v: i16)
    ensures GyroSI(164) == 10.0 * DPS_TO_RADS && GyroSI(0) == 0.0
    ensures -(32768.0 / GYRO_LSB_PER_DPS) * DPS_TO_RADS <= GyroSI(v) < (32768.0 / GYRO_LSB_PER_DPS) * DPS_TO_RADS
  {
  }

  /** Both conversions are strictly increasing, so no two counts give the
      same value. */
  lemma ConversionsIncrease(v: i16, w: i16)
    requires v < w
    ensures AcclSI(v) < AcclSI(w)
    ensures GyroSI(v) < GyroSI(w)
  {
  }

  /** The count is recovered from the converted value by the inverse
      scaling. */
  lemma ConversionsInvert(v: i16)
    ensures AcclSI(v) / GRAVITY_STANDARD * ACCL_LSB_PER_G == v as real
    ensures GyroSI(v) / DPS_TO_RADS * GYRO_LSB_PER_DPS == v as real
  {
  }

  /** Three raw counts (`VectorInt16`). */
  datatype RawVec = RawVec(x: i16, y: i16, z: i16)

  function AcclVec(v: RawVec): Vec3 {
    Vec3(AcclSI(v.x), AcclSI(v.y), AcclSI(v.z))
  }

  function GyroVec(v: RawVec): Vec3 {
    Vec3(GyroSI(v.x), GyroSI(v.y), GyroSI(v.z))
  }

  // ---------------------------------------------------------------------
  // Orientation

  /** The orientation quaternion the chip reports. */
  datatype Quat = Quat(w: real, x: real, y: real, z: real)

  /** `ypr[3]` as the chip's library computes it: yaw, pitch, roll. */
  datatype Ypr = Ypr(yaw: real, pitch: real, roll: real)

  /** The chip's yaw/pitch/roll in the firmware's convention: the heading
      is the yaw, the roll is the roll and the pitch has its sign flipped. */
  function YprToTilt(a: Ypr): (t: Tilt)
    ensures TiltToYpr(t) == a
  {
    Tilt(a.roll, -a.pitch, a.yaw)
  }

  /** The reverse reading of a tilt as yaw/pitch/roll. */
  function TiltToYpr(t: Tilt): Ypr {
    Ypr(t.heading, -t.pitch, t.roll)
  }

  /** The sign flip loses nothing: each conversion undoes the other. */
  lemma YprRoundTrip(a: Ypr, t: Tilt)
    ensures TiltToYpr(YprToTilt(a)) == a
    ensures YprToTilt(TiltToYpr(t)) == t
  {
  }

  /** The library routines that decode a FIFO packet and derive the
      angles; their results are not modelled. */
  datatype DmpLib = DmpLib(
    quaternion: seq<byte> -> Quat,
    accel: seq<byte> -> RawVec,
    gyro: seq<byte> -> RawVec,
    yawPitchRoll: Quat -> Ypr)

  // ---------------------------------------------------------------------
  // Start-up

  /** The calls `init` and `calibrate` make on the chip. */
  datatype Call =
    | TestConnection
    | Initialize
    | DmpInitialize
    | CalibrateAccel(loops: u32)
    | CalibrateGyro(loops: u32)
    | SetDmpEnabled(on: bool)

  /** `calibrate`: the sample count is cut down by integer division by 100
      before it is passed on as a number of calibration loops. */
  function CalibrationLoops(count: u32): (loops: u32)
    ensures loops * 100 <= count < (loops + 1) * 100
  {
    count / 100
  }

  /** The firmware's 500 samples become 5 loops; fewer than 100 become
      none. */
  lemma CalibrationLoopsExamples(count: u32)
    ensures CalibrationLoops(500) == 5
    ensures count < 100 ==> CalibrationLoops(count) == 0
  {
  }

  /** What an `init` does: its outcome and the calls it makes, in order. */
  datatype Run = Run(outcome: Outcome, calls: seq<Call>)

  /** `init` given whether the chip answers and the status code its
      motion processor returns. */
  function InitRun(connected: bool, dmpStatus: byte, count: u32): (r: Run)
    ensures r.outcome == Pass <==> connected && dmpStatus == 0
    ensures |r.calls| >= 1 && r.calls[0] == TestConnection
    ensures SetDmpEnabled(true) in r.calls <==> r.outcome == Pass
  {
    if !connected then Run(Fail("MPU6050 error\n"), [TestConnection])
    else if dmpStatus != 0 then Run(Fail("DMP error\n"), [TestConnection, Initialize, DmpInitialize])
    else Run(Pass, [TestConnection, Initialize, DmpInitialize,
      CalibrateAccel(CalibrationLoops(count)), CalibrateGyro(CalibrationLoops(count)), SetDmpEnabled(true)])
  }

  /** The error strings and their order: a chip that does not answer gives
      the MPU6050 error whatever its status; a failed motion-processor start
      gives the DMP error; only a clean start passes. */
  lemma InitErrors(connected: bool, dmpStatus: byte, count: u32)
    ensures !connected ==> InitRun(connected, dmpStatus, count).outcome == Fail("MPU6050 error\n")
    ensures connected && dmpStatus != 0 ==> InitRun(connected, dmpStatus, count).outcome == Fail("DMP error\n")
    ensures InitRun(connected, dmpStatus, count).outcome == Pass <==> connected && dmpStatus == 0
  {
  }

  /** In the call sequence `t`, every enabling of the motion processor
      comes after an accelerometer and a gyroscope calibration of `loops`
      loops. */
  ghost predicate EnabledAfter(t: seq<Call>, loops: u32) {
    forall i :: 0 <= i < |t| && t[i].SetDmpEnabled? ==>
      (exists a :: 0 <= a < i && t[a] == CalibrateAccel(loops))
      && (exists g :: 0 <= g < i && t[g] == CalibrateGyro(loops))
  }

  /** The motion processor is enabled exactly when `init` passes, and then
      only after both calibrations, each given `count / 100` loops; a failed
      `init` calibrates nothing. */
  lemma EnabledAfterCalibration(connected: bool, dmpStatus: byte, count: u32)
    ensures SetDmpEnabled(true) in InitRun(connected, dmpStatus, count).calls
      <==> InitRun(connected, dmpStatus, count).outcome == Pass
    ensures EnabledAfter(InitRun(connected, dmpStatus, count).calls, count / 100)
    ensures InitRun(connected, dmpStatus, count).outcome.Fail? ==>
      forall c :: c in InitRun(connected, dmpStatus, count).calls ==> !c.CalibrateAccel? && !c.CalibrateGyro?
  {
    var r := InitRun(connected, dmpStatus, count);
    if r.outcome == Pass {
      assert r.calls[5] == SetDmpEnabled(true);
      forall i | 0 <= i < |r.calls| && r.calls[i].SetDmpEnabled?
        ensures (exists a :: 0 <= a < i && r.calls[a] == CalibrateAccel(count / 100))
          && (exists g :: 0 <= g < i && r.calls[g] == CalibrateGyro(count / 100))
      {
        assert i == 5;
        assert r.calls[3] == CalibrateAccel(count / 100) && r.calls[4] == CalibrateGyro(count / 100);
      }
    }
  }

  // ---------------------------------------------------------------------
  // The sensor

  /** Some poll of the FIFO eventually delivers a packet. */
  ghost predicate CanReceive(polls: seq<Option<seq<byte>>>) {
    exists k :: 0 <= k < |polls| && polls[k].Some?
  }

  class SensorDmp {
    const pin: byte
    /** `mFifoBuf`: the last packet read from the FIFO. */
    var fifo: seq<byte>
    /** `mQuat`: the orientation decoded from the last packet. */
    var quat: Quat
    /** `mTiltRads`: the orientation this sensor reports. */
    var tilt: Tilt
    /** The calls made on the chip so far, in order. */
    var calls: seq<Call>
    const lib: DmpLib

    constructor(pin: byte, lib: DmpLib)
      ensures this.pin == pin && this.lib == lib && calls == []
    {
      this.pin := pin;
      this.lib := lib;
      calls := [];
    }

    /** `init`: tests the connection, starts the chip and its motion
        processor, calibrates, and enables the motion processor last; each
        failure throws its error string and stops there. */
    method Init(connected: bool, dmpStatus: byte, count: u32) returns (outcome: Outcome)
      modifies this
      ensures outcome == InitRun(connected, dmpStatus, count).outcome
      ensures calls == old(calls) + InitRun(connected, dmpStatus, count).calls
      ensures fifo == old(fifo) && quat == old(quat) && tilt == old(tilt)
    {
      calls := calls + [TestConnection];
      if !connected {
        return Fail("MPU6050 error\n");
      }
      calls := calls + [Initialize];
      calls := calls + [DmpInitialize];
      if 0 != dmpStatus {
        return Fail("DMP error\n");
      }
      Calibrate(count);
      calls := calls + [SetDmpEnabled(true)];
      outcome := Pass;
    }

    /** `calibrate`: both calibrations run `count / 100` loops. */
    method Calibrate(count: u32)
      modifies this
      ensures calls == old(calls) + [CalibrateAccel(CalibrationLoops(count)), CalibrateGyro(CalibrationLoops(count))]
      ensures fifo == old(fifo) && quat == old(quat) && tilt == old(tilt)
    {
      var loops := count / 100;
      calls := calls + [CalibrateAccel(loops)];
      calls := calls + [CalibrateGyro(loops)];
    }

    /** `wait`: polls the FIFO (one entry of `polls` per poll) until a
        packet arrives and keeps that packet. */
    method Wait(polls: seq<Option<seq<byte>>>)
      requires CanReceive(polls)
      modifies this
      ensures exists k :: (0 <= k < |polls| && polls[k] == Some(fifo)
        && forall j :: 0 <= j < k ==> polls[j].None?)
      ensures quat == old(quat) && tilt == old(tilt) && calls == old(calls)
    {
      ghost var arrival :| 0 <= arrival < |polls| && polls[arrival].Some?;
      var k := 0;
      while polls[k].None?
        invariant 0 <= k <= arrival
        invariant forall j :: 0 <= j < k ==> polls[j].None?
        decreases arrival - k
      {
        k := k + 1;
      }
      fifo := polls[k].value;
    }

    /** `update`: the tilt becomes the chip's yaw/pitch/roll for the stored
        quaternion, pitch sign-flipped; the sample set is not read. */
    method Update(marg: MARG)
      modifies this
      ensures tilt == YprToTilt(lib.yawPitchRoll(quat))
      ensures fifo == old(fifo) && quat == old(quat) && calls == old(calls)
    {
      var ypr := lib.yawPitchRoll(quat);
      tilt := tilt.(heading := ypr.yaw);
      tilt := tilt.(pitch := -ypr.pitch);
      tilt := tilt.(roll := ypr.roll);
    }

    /** `getEvent`: decodes the stored packet's quaternion into the object
        and writes the converted accelerometer and gyroscope readings into
        the caller's sample set, leaving its magnetometer part alone. */
    method GetEvent(marg: MARG) returns (m: MARG)
      modifies this
      ensures quat == lib.quaternion(fifo)
      ensures m == marg.(accl := AcclVec(lib.accel(fifo)), gyro := GyroVec(lib.gyro(fifo)))
      ensures fifo == old(fifo) && tilt == old(tilt) && calls == old(calls)
    {
      quat := lib.quaternion(fifo);
      var v := lib.accel(fifo);
      m := marg.(accl := Vec3((v.x as real / 16384.0) * GRAVITY_STANDARD,
                              (v.y as real / 16384.0) * GRAVITY_STANDARD,
                              (v.z as real / 16384.0) * GRAVITY_STANDARD));
      v := lib.gyro(fifo);
      m := m.(gyro := Vec3((v.x as real / 16.4) * DPS_TO_RADS,
                           (v.y as real / 16.4) * DPS_TO_RADS,
                           (v.z as real / 16.4) * DPS_TO_RADS));
    }
  }
}
