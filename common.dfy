/** Value types shared by every part of the attitude estimator: vectors,
    orientation records, sensor readings, fixed-width integers, the
    library constants the source relies on, and the abstract math library. */
module Common {

  /** Unsigned and signed machine integers used by the firmware. */
  type u32 = x: int | 0 <= x < 0x1_0000_0000
  type u64 = x: int | 0 <= x < 0x1_0000_0000_0000_0000
  type i16 = x: int | -0x8000 <= x < 0x8000
  type byte = x: int | 0 <= x < 0x100

  /** Standard gravity of the unified-sensor library (m/s^2). */
  const GRAVITY_STANDARD: real := 9.80665
  /** Degrees-per-second to radians-per-second factor of the unified-sensor library. */
  const DPS_TO_RADS: real := 0.017453293
  /** The Arduino core's PI. */
  const PI: real := 3.1415926535897932384626433832795
  const TWO_PI: real := 2.0 * PI

  /** A three-axis sample (`sensors_vec_t` seen through x, y, z). */
  datatype Vec3 = Vec3(x: real, y: real, z: real)

  const ZERO: Vec3 := Vec3(0.0, 0.0, 0.0)
  /** The reading of a level accelerometer at rest: gravity on Z only. */
  const GRAVITY_Z: Vec3 := Vec3(0.0, 0.0, GRAVITY_STANDARD)

  function Add(a: Vec3, b: Vec3): Vec3 {
    Vec3(a.x + b.x, a.y + b.y, a.z + b.z)
  }

  function Sub(a: Vec3, b: Vec3): Vec3 {
    Vec3(a.x - b.x, a.y - b.y, a.z - b.z)
  }

  /** An orientation estimate in radians (`sensors_vec_t` seen through roll, pitch, heading). */
  datatype Tilt = Tilt(roll: real, pitch: real, heading: real)

  const LEVEL: Tilt := Tilt(0.0, 0.0, 0.0)

  /** One magnetometer/accelerometer/gyroscope sample set. */
  datatype MARG = MARG(gyro: Vec3, accl: Vec3, magn: Vec3)

  /** What one MPU6050 `getEvent` call delivers. */
  datatype Reading = Reading(accl: Vec3, gyro: Vec3, temp: real)

  /** Per-axis offsets produced by calibration. */
  datatype Bias = Bias(gyro: Vec3, accl: Vec3)

  /** The C math routines the filter calls; their values are not modelled. */
  datatype MathLib = MathLib(atan2: (real, real) -> real, sqrt: real -> real)

  /** The outcome of an `init`: normal return, or the string it throws. */
  datatype Outcome = Pass | Fail(error: string)

  datatype Option<T> = None | Some(value: T)

  function Abs(x: real): real {
    if x < 0.0 then -x else x
  }

  function Min(a: real, b: real): real {
    if a <= b then a else b
  }

  function Max(a: real, b: real): real {
    if a <= b then b else a
  }
}
