# Attitude estimator of the ESP32 IMU web server, in Dafny

This project models the attitude estimator of an ESP32 firmware that reads
an MPU6050 inertial sensor (and, in the class-based sensors, an HMC5883L
compass or the MPU6050's on-chip motion processor) and serves the fused
orientation to a browser. The estimator exists twice in the repository:

- The monolithic sketch `src/main.cpp`. Its globals become the class
  `Sketch.Firmware`. It covers start-up calibration, the measure/fuse/report
  loop with its millisecond gates, the JSON report and the reset handlers of
  the web routes.
- The class-based refactor under `src/Sensor/`:
  - `Fusion.SensorFusion`: a fixed scan period with a yaw dead-band;
  - `Fuse.SensorFuse`: a frequency-paced filter on roll and pitch only;
  - `Magnet.SensorMagnet`: hard-iron calibration and a declination-corrected heading;
  - `Dmp.SensorDmp`: the motion processor's start-up order, unit conversions and angle convention;
  - `SensorBase.GetReport`: the common report.

Shared modules hold the arithmetic used by both versions, each step
defined once. A method calls the shared function where its step is one
such function: the blend, the accelerometer angles, the yaw dead-band, the
bias subtraction and the declination. Some steps run field by field or in
a loop in the source, such as the calibration sums and the sketch's
as-written `measure`. There the method does the step in place, and its
`ensures` proves the result equal to the specification function:

- `Filter`: the accelerometer tilt, the complementary-filter blend, the
  yaw dead-band, and the filter's behaviour over many cycles.
- `Calibration`: the mean-of-samples bias and the bias subtraction.
- `Clock`: the wrapping 32-bit millisecond clock and the exit condition of
  the busy waits.
- `Record`: the JSON object as an ordered map.

Arithmetic is on `real`.

- `atan2` and `sqrt` are arrow-typed fields of `Common.MathLib`. Their values are not modelled.
- `String(float)` is a parameter `str: real -> string`.
- Sensor reads are method parameters.
- `millis()` is a sequence of clock readings, consumed in order.

The class methods are imperative: fields are updated in place, and the
calibration and range-tracking loops run over arrays where the source uses
arrays. Each method is tied to the shared specification functions by its
`ensures`, and the lemmas about those functions state what the firmware
promises.

A few points of the program's behaviour that the model keeps as they are:

- `fixAngle` leaves a heading of exactly 2π unchanged, so its range is the
  closed interval [0, 2π].
- The report carries only the nine base fields plus whatever the
  `addReport` hook adds.
- The sketch's `measure` does not subtract the gyro bias (see Findings).

## Model

| member | source | states |
|---|---|---|
| Clock.Elapsed | src/main.cpp:109 | definition: `millis() - last` stored in 32 bits; it differs from the true difference by a multiple of 2^32, is that difference when last <= now, and adds 2^32 when the counter wrapped past last |
| Clock.ElapsedAcrossWrap | src/Sensor/SensorFUSE.cpp:31 | `millis() - last` truncated to 32 bits is the true elapsed time whenever less than 2^32 ms passed, even if the counter wrapped in between |
| Filter.PitchFormsAgree | src/Sensor/SensorFusion.cpp:77 | for every acceleration, the sketch's `atan2(-x, ...)` pitch and the classes' `-atan2(x, ...)` pitch agree, given only that the library's atan2 is odd in its first argument on x >= 0 and its sqrt is non-negative |
| Filter.AccelRoll | src/main.cpp:206 | definition: `atan2(y, sqrt(x*x + z*z))`; with an odd atan2 and a non-negative sqrt, mirroring Y negates the roll and no Y component gives zero roll |
| Filter.AccelPitchNegArg | src/main.cpp:207 | definition: the sketch's `atan2(-x, sqrt(y*y + z*z))`; no X component gives zero pitch |
| Filter.AccelPitch | src/Sensor/SensorFusion.cpp:77 | definition: the classes' `-atan2(x, sqrt(y*y + z*z))`; it equals `atan2(-x, ...)` under an odd atan2, and no X component gives zero pitch |
| Filter.ResultantNonNeg | src/Sensor/SensorFusion.cpp:76-77 | the `sqrt(a*a + b*b)` denominator of the accelerometer angles is never negative when sqrt is not |
| Filter.Blend | src/main.cpp:216-217 | the blend departs from the accelerometer angle by the fraction tau of the gap to the gyro angle; with tau = 1 it is the gyro-integrated angle, with tau = 0 the accelerometer angle |
| Filter.BlendBetween | src/Sensor/SensorFusion.cpp:85-86 | for tau in [0, 1] the fused angle lies between the gyro-integrated and the accelerometer angle |
| Filter.TiltStep | src/Sensor/SensorFUSE.cpp:92-97 | one filter step leaves the heading alone; tau = 1 gives pure gyro integration of roll and pitch, tau = 0 the accelerometer tilt |
| Filter.YawStep | src/main.cpp:221-224 | the heading stays put when abs(gz) is at most the threshold and moves by exactly gz*dt when it is strictly above |
| Filter.GatedTiltStep | src/Sensor/SensorFusion.cpp:81-92 | the heading is unchanged when abs(gz) is within the threshold and moves by exactly gz*dt above it; tau = 1 gives pure gyro integration of roll and pitch, tau = 0 the accelerometer angles |
| Filter.LevelAtRest | src/Sensor/SensorFusion.cpp:76-92 | a flat, still sensor (acceleration (0, 0, g), no rotation) reads zero roll and pitch from the accelerometer, and a step from a level attitude stays level for any weight, dead-band and dt |
| Filter.GatedStepSeparates | src/Sensor/SensorFusion.cpp:81-92 | the new heading depends only on the previous heading (not on roll or pitch), and the new roll and pitch do not depend on the previous heading |
| Filter.YawRunLaw | src/Sensor/SensorFusion.cpp:89-92 | over any run of cycles the heading moves by exactly the sum of gz*dt over the rates strictly outside the dead-band |
| Filter.YawRunInsideBand | src/main.cpp:221-224 | at rest, with every rate inside the dead-band, the heading never drifts |
| Filter.YawRunOutsideBand | src/Sensor/SensorFusion.cpp:89-92 | when every rate clears the dead-band, the heading integrates all of them |
| Filter.QuarterTurn | src/main.cpp:221-224 | with the sketch's 0.03 rad/s dead-band, a 90 deg/s turn sampled at 100 Hz for one second accumulates exactly 90 degrees |
| Filter.SettleGap | src/main.cpp:216-217 | at rest the gap between the fused and the accelerometer angle shrinks by the factor tau every cycle, so gyro drift is forgotten geometrically |
| Calibration.CalibratedBias | src/main.cpp:280-289 | definition: the per-axis sample means with standard gravity off the accelerometer Z mean; each bias times the sample count gives back the axis sum (the Z accelerometer bias after adding gravity back) |
| Calibration.Correct | src/Sensor/SensorFusion.cpp:107-112 | each corrected axis plus its bias gives back the raw axis; the temperature passes through |
| Calibration.MeanOfConstant | src/main.cpp:281-286 | the per-axis mean of identical samples is that sample |
| Calibration.CalibrationAtRest | src/main.cpp:280-289 | calibrating on a still, level device stores its gyro reading as the gyro bias and its acceleration less standard gravity on Z as the accelerometer bias; the corrected reading then shows zero rotation and exactly 1 g on Z |
| Record.Put | src/Sensor/SensorBase.h:24 | after a keyed assignment the key reads the new value; an existing key keeps its place, a new key is appended |
| Record.NameInjective | src/Sensor/SensorBase.h:24-32 | two fixed keys name the same string exactly when they are the same key, so keying by constructors neither merges nor splits entries |
| Record.PutOther | src/Sensor/SensorBase.h:24-32 | a keyed assignment leaves every other key as it was |
| Record.PutValid | src/Sensor/SensorBase.h:24-32 | a keyed assignment keeps the object well formed: each key listed once, and exactly the listed keys have values |
| Record.PutAllKeeps | src/Sensor/SensorBase.h:34 | later assignments (the hook) never move or drop an existing key, leave every key they do not assign unchanged, and keep the object well formed |
| Record.PutAllAppends | src/Sensor/SensorBase.h:24-32 | assignments to distinct new keys append exactly those keys in assignment order |
| Record.PutAllReads | src/Sensor/SensorBase.h:24-32 | after assignments to distinct keys each key reads the value assigned to it |
| SensorBase.BaseFields | src/Sensor/SensorBase.h:24-32 | the base assignments write exactly gyroX, gyroY, gyroZ, acclX, acclY, acclZ, tiltY, tiltR, tiltP, in that order |
| SensorBase.GetReport | src/Sensor/SensorBase.h:18-36 | the nine base keys come first in order and once each, and are the only keys with the default hook; a base key the hook does not reassign reads its own component (tiltY the heading, tiltR the roll, tiltP the pitch); any other key is absent unless the hook writes it; when the hook assigns distinct keys, each reads the value the hook gave it |
| SensorBase.BaseKeyNames | src/Sensor/SensorBase.h:24-32 | the base keys are the strings "gyroX" to "tiltP" that getReport assigns, in its order |
| SensorBase.BaseReport | src/Sensor/SensorBase.h:24-32 | the base report lists exactly the nine base keys in order, is well formed, and gives no other key a value |
| SensorBase.BaseValues | src/Sensor/SensorBase.h:24-32 | in the base report every key reads the string of its own gyro, accelerometer or tilt component |
| Sketch.MeasuredImu | src/main.cpp:292-304 | as written, the gyro keeps its raw value and the acceleration loses both the accelerometer and the gyro offsets; the offsets are untouched |
| Sketch.MeasureSkipsGyroBias | src/main.cpp:301-303 | with any nonzero gyro offset the measured rate differs from the bias-corrected rate, and the acceleration is off by exactly the gyro offset |
| Sketch.FusedTilt | src/main.cpp:195-225 | roll and pitch are the TAU-blend of the gyro-integrated angle and the accelerometer tilt; the heading moves by gz*dt exactly when abs(gz) is above YAW_THRES |
| Sketch.SketchMatchesFusion | src/main.cpp:195-225 | the sketch's fused tilt equals the SensorFusion class's gated step with TAU and YAW_THRES, for every previous tilt, reading and dt, given an odd atan2 and a non-negative sqrt |
| Sketch.JsonFields | src/main.cpp:236-245 | the report assigns exactly temp, gyroX, gyroY, gyroZ, acclX, acclY, acclZ, tiltYaw, tiltRoll, tiltPitch, in that order |
| Sketch.ConvJson | src/main.cpp:227-248 | the report built holds exactly the ten keys, in order, once each |
| Sketch.LevelAtRestCorrected | src/main.cpp:195-225 | after calibrating on resting samples, a resting reading with both offsets taken off keeps the sketch's filter level |
| Sketch.JsonKeyNames | src/main.cpp:236-245 | the report's keys are the strings "temp" to "tiltPitch" that convJson assigns, in its order |
| Sketch.JsonKeys | src/main.cpp:236-245 | the ten keys are listed in order, once each, and the object is well formed |
| Sketch.JsonImuValues | src/main.cpp:236-242 | temp, gyroX..Z and acclX..Z read the strings of the temperature and the matching gyro and accelerometer axes |
| Sketch.JsonTiltValues | src/main.cpp:243-245 | tiltYaw reads the heading, tiltRoll the roll and tiltPitch the pitch |
| Sketch.Firmware.constructor | src/main.cpp:38-42 | the globals start zeroed: level tilt, zero IMU record, both gate timestamps zero |
| Sketch.Firmware.Calibrate | src/main.cpp:250-290 | the offsets become the per-axis sample means, with standard gravity taken off the accelerometer Z mean; nothing else changes |
| Sketch.Firmware.InitMpu | src/main.cpp:161-170 | a missing sensor gives the error and changes nothing; otherwise the offsets are calibrated over CALIB_CNT samples and every other field of the IMU record is kept |
| Sketch.Firmware.Measure | src/main.cpp:292-304 | the IMU record becomes the as-written measurement; the tilt and the timestamps are untouched |
| Sketch.Firmware.CalcTilt | src/main.cpp:195-225 | the global tilt becomes the fused tilt of the old tilt and the current IMU record |
| Sketch.Firmware.MeasureIfDue | src/main.cpp:108-115 | measuring and fusing happen exactly when more than MEASURE_MS ms passed, with dt the elapsed ms times 0.001 and the timestamp the next clock reading; otherwise nothing changes |
| Sketch.Firmware.ReportIfDue | src/main.cpp:117-123 | a report of the current tilt and IMU record is produced exactly when more than REPORT_MS ms passed, and the report timestamp moves only then |
| Sketch.Firmware.Loop | src/main.cpp:104-124 | one pass is the measuring gate followed by the reporting gate on the state the first left |
| Sketch.Firmware.ResetAll | src/main.cpp:82-85 | roll, pitch and heading become zero; nothing else changes |
| Sketch.Firmware.ResetYaw | src/main.cpp:86-89 | only the heading becomes zero |
| Sketch.Firmware.ResetRoll | src/main.cpp:90-93 | only the roll becomes zero |
| Sketch.Firmware.ResetPitch | src/main.cpp:94-97 | only the pitch becomes zero |
| Fusion.SensorFusion.constructor | src/Sensor/SensorFusion.cpp:3-11 | the scan time, threshold and filter weight are stored; both timestamps start at zero |
| Fusion.SensorFusion.Init | src/Sensor/SensorFusion.cpp:17-26 | a sensor that does not start throws "MPU6050 error\n" and changes nothing (no calibration); otherwise the offsets are the calibrated bias and the last reading is the last calibration sample |
| Fusion.SensorFusion.Calibrate | src/Sensor/SensorFusion.cpp:28-62 | the offsets are the per-axis means with gravity off the accelerometer Z mean; the last sample read stays in the event fields |
| Fusion.SensorFusion.GetTilt | src/Sensor/SensorFusion.cpp:64-93 | the tilt is the filter step with the fixed dt = scan time * 0.001 (not the measured time), and the heading changes by gz*dt exactly when abs(gz) is above the threshold |
| Fusion.LevelAfterCalibration | src/Sensor/SensorFusion.cpp:28-117 | calibrated at rest and read at rest, the bias-corrected reading keeps a level attitude level through the class's filter step |
| Fusion.SensorFusion.GetEvent | src/Sensor/SensorFusion.cpp:95-117 | the wait ends at the first clock reading at least the scan time after the last event, the next reading becomes the start time, and the outputs are the raw reading less each bias |
| Fuse.Duration | src/Sensor/SensorFUSE.cpp:118-121 | the period times the frequency is one second, and the period is in (0, 1] |
| Fuse.WaitMs | src/Sensor/SensorFUSE.cpp:30 | definition: the period in milliseconds truncated to an integer; at most the period and less than 1 ms below it |
| Fuse.WaitMsIsQuotient | src/Sensor/SensorFUSE.cpp:30 | the truncated wait threshold is 1000 div freq: at most the period in ms and less than 1 ms shorter |
| Fuse.Accumulate | src/Sensor/SensorFUSE.cpp:52-57 | a sample is added axis by axis to a three-element accumulator |
| Fuse.SensorFuse.constructor | src/Sensor/SensorFUSE.cpp:3-9 | the frequency and filter weight are stored; the start time is zero |
| Fuse.SensorFuse.Init | src/Sensor/SensorFUSE.cpp:15-24 | a sensor that does not start throws "MPU6050 error\n" and changes nothing; otherwise the offsets are the calibrated bias and the last reading is the last calibration sample |
| Fuse.SensorFuse.Wait | src/Sensor/SensorFUSE.cpp:26-36 | the wait ends at the first clock reading at least WaitMs after the start time, and the next reading becomes the start time; nothing else changes |
| Fuse.SensorFuse.Calibrate | src/Sensor/SensorFUSE.cpp:38-72 | the array accumulators produce the per-axis means, with gravity off the accelerometer Z mean |
| Fuse.SensorFuse.GetTilt | src/Sensor/SensorFUSE.cpp:74-98 | roll and pitch are blended with dt the sampling period; the heading is never changed |
| Fuse.SensorFuse.GetEvent | src/Sensor/SensorFUSE.cpp:100-116 | the outputs are the raw reading less each bias, without any wait |
| Magnet.Declination | src/Sensor/SensorMagnet.cpp:8 | definition: (degrees + minutes/60) in radians; converting back gives the total minutes of arc |
| Magnet.DeclinationMinutes | src/Sensor/SensorMagnet.cpp:8 | sixty minutes of declination equal one degree, and whole degrees convert by the degree-to-radian factor |
| Magnet.Track | src/Sensor/SensorMagnet.cpp:92-105 | the minimum becomes min(old minimum, value) and the maximum max(old maximum, value) |
| Magnet.TrackBounds | src/Sensor/SensorMagnet.cpp:92-105 | after a step the value lies between minimum and maximum, and the range only grows |
| Magnet.RangeOverBounds | src/Sensor/SensorMagnet.cpp:33-49 | since the range starts at {0, 0}, the tracked minimum is at most 0 and the maximum at least 0, every sample lies between them, and each end is 0 or one of the samples |
| Magnet.MidpointCentred | src/Sensor/SensorMagnet.cpp:51-54 | the midpoint of a range lies inside it, equally far from both ends |
| Magnet.OffsetCentres | src/Sensor/SensorMagnet.cpp:33-54 | each hard-iron offset lies between its axis's extremes, and subtracting it centres that axis |
| Magnet.HardIron | src/Sensor/SensorMagnet.cpp:52-54 | definition: the midpoint of the range tracked on each axis; each offset is equally far from its axis minimum and maximum |
| Magnet.HardIronCentres | src/Sensor/SensorMagnet.cpp:51-54 | all three stored offsets lie inside their axes' ranges |
| Magnet.FixAngle | src/Sensor/SensorMagnet.cpp:107-122 | the result is the heading itself or the heading shifted by exactly one full turn: a negative heading gains 2π, a heading above 2π loses 2π, and one in [0, 2π] is kept |
| Magnet.FixAngleRange | src/Sensor/SensorMagnet.cpp:107-122 | a heading in [-2π, 4π] comes out in [0, 2π] |
| Magnet.FixAngleIdempotent | src/Sensor/SensorMagnet.cpp:110-121 | a heading already in [0, 2π] is returned unchanged, so correcting twice is correcting once |
| Magnet.FixAngleSingleStep | src/Sensor/SensorMagnet.cpp:115-119 | only one turn is removed: 5π comes out as 3π, still out of range |
| Magnet.Bearing | src/Sensor/SensorMagnet.cpp:64 | definition: `atan2(x, sqrt(y*y + z*z))` of the field; with an odd atan2 and a non-negative sqrt, mirroring X negates it and no X component gives zero |
| Magnet.HeadingInRange | src/Sensor/SensorMagnet.cpp:64-70 | an atan2 bearing in [-π, π] plus a declination in [-π, π] gives a stored heading in [0, 2π] |
| Magnet.SensorMagnet.constructor | src/Sensor/SensorMagnet.cpp:3-9 | the declination is stored as (degrees + minutes/60) in radians |
| Magnet.SensorMagnet.Init | src/Sensor/SensorMagnet.cpp:15-24 | a compass that does not start throws "HMC5883L error\n" and changes nothing; otherwise the offsets are the hard-iron midpoints |
| Magnet.SensorMagnet.GetRange | src/Sensor/SensorMagnet.cpp:92-105 | the two-element buffer takes one tracking step, and afterwards rng[0] <= val <= rng[1] |
| Magnet.SensorMagnet.Calibrate | src/Sensor/SensorMagnet.cpp:26-55 | the offsets are the midpoints of the ranges tracked from {0, 0} over all samples, for any number of samples including none |
| Magnet.SensorMagnet.TrackAxes | src/Sensor/SensorMagnet.cpp:43-46 | the three per-axis buffers each take one tracking step with their own axis |
| Magnet.SensorMagnet.Update | src/Sensor/SensorMagnet.cpp:57-74 | the heading becomes fixAngle(atan2 bearing + declination); roll, pitch and the offsets are untouched |
| Magnet.SensorMagnet.GetEvent | src/Sensor/SensorMagnet.cpp:76-90 | only the magnetometer part of the sample set is written, and it plus the offsets gives back the raw reading |
| Dmp.AcclSI | src/Sensor/SensorDMP.cpp:72-75 | definition: counts / 16384 * standard gravity; the value times 16384 is the count times standard gravity |
| Dmp.GyroSI | src/Sensor/SensorDMP.cpp:76-79 | definition: counts / 16.4 * the degree-to-radian factor; the value times 16.4 is the count times that factor |
| Dmp.AcclScale | src/Sensor/SensorDMP.cpp:72-75 | 16384 counts are one standard gravity, and the 16-bit range covers [-2 g, 2 g) |
| Dmp.GyroScale | src/Sensor/SensorDMP.cpp:76-79 | 164 counts are 10 deg/s, and the 16-bit range stays within 32768/16.4 deg/s either way |
| Dmp.ConversionsIncrease | src/Sensor/SensorDMP.cpp:72-79 | both conversions are strictly increasing |
| Dmp.ConversionsInvert | src/Sensor/SensorDMP.cpp:72-79 | the raw count is recovered from the converted value by the inverse scaling |
| Dmp.YprToTilt | src/Sensor/SensorDMP.cpp:60-62 | definition: heading from yaw, roll from roll, pitch negated; reading the tilt back as yaw/pitch/roll gives the library's values |
| Dmp.YprRoundTrip | src/Sensor/SensorDMP.cpp:60-62 | heading from yaw, roll from roll and pitch sign-flipped: the conversion and its reverse undo each other |
| Dmp.CalibrationLoops | src/Sensor/SensorDMP.cpp:45-50 | the loop count is the integer quotient: loops*100 <= count < (loops+1)*100 |
| Dmp.CalibrationLoopsExamples | src/Sensor/SensorDMP.cpp:47-49 | 500 samples give 5 loops; fewer than 100 give none |
| Dmp.InitRun | src/Sensor/SensorDMP.cpp:13-35 | definition: the outcome and call trace of init; it passes exactly when the chip answers and the status is 0, the connection test always comes first, and the processor is enabled exactly on a pass |
| Dmp.InitErrors | src/Sensor/SensorDMP.cpp:13-35 | no connection gives "MPU6050 error\n" whatever the status, a nonzero motion-processor status gives "DMP error\n", and init passes exactly when both succeed |
| Dmp.EnabledAfterCalibration | src/Sensor/SensorDMP.cpp:26-30 | the motion processor is enabled exactly when init passes, and only after both calibrations with count/100 loops; a failed init calibrates nothing |
| Dmp.SensorDmp.constructor | src/Sensor/SensorDMP.cpp:3-7 | the pin is stored and no call has been made on the chip |
| Dmp.SensorDmp.Init | src/Sensor/SensorDMP.cpp:13-35 | the outcome and the calls made on the chip are those of the init run; the packet, quaternion and tilt are untouched |
| Dmp.SensorDmp.Calibrate | src/Sensor/SensorDMP.cpp:45-50 | both calibrations are called with count/100 loops, accelerometer first |
| Dmp.SensorDmp.Wait | src/Sensor/SensorDMP.cpp:37-43 | the stored packet is the first one the polls deliver |
| Dmp.SensorDmp.Update | src/Sensor/SensorDMP.cpp:52-63 | the tilt becomes the chip's yaw/pitch/roll of the stored quaternion, pitch sign-flipped |
| Dmp.SensorDmp.GetEvent | src/Sensor/SensorDMP.cpp:65-81 | the quaternion is decoded from the packet; the sample set's accelerometer and gyroscope parts become the converted counts and its magnetometer part is untouched |

## Left out

- Floating point: `float`/`double` rounding, NaN and infinity are not modelled. All arithmetic is exact `real`.
- Sketch.Firmware.Calibrate, Fusion.SensorFusion.Calibrate and Fuse.SensorFuse.Calibrate: require at least one sample. With none the source divides by zero in floating point and stores NaN.
- Fusion.SensorFusion.Init and Fuse.SensorFuse.Init: for the same reason, they require at least one sample when the sensor starts.
- Fuse.Duration, Fuse.SensorFuse.Wait and Fuse.SensorFuse.GetTilt: require a frequency of at least 1. A zero frequency gives an infinite period in the source.
- Fuse.WaitMsIsQuotient: states the exact quotient. The float product `duration() * 1000` can round differently before truncation.
- Busy waits (Fusion.SensorFusion.GetEvent, Fuse.SensorFuse.Wait, Dmp.SensorDmp.Wait): that they terminate is not proved.
  - The clock readings, or the FIFO polls, are a finite sequence that is required to contain a releasing entry.
  - Only the exit condition and the stored timestamp or packet are stated.
- Vendor and library calls are parameters: sensor start-up results, raw sensor events, the compass event, and the packet decoders and angle routines of the motion-processor library (`Dmp.DmpLib`). What these calls compute is not modelled. `dmpGetGravity` is folded into the yaw/pitch/roll routine.
- Dmp.SensorDmp.Calibrate: records the loop count passed to the library's calibration routines as the full `count / 100`. The width of that library parameter is not part of this model, so any truncation it applies to large counts is not captured.
- Sketch.Firmware.ResetAll, Sketch.Firmware.ResetYaw, Sketch.Firmware.ResetRoll and Sketch.Firmware.ResetPitch: modelled as atomic steps between loop passes. The route callbacks run on the web server's task, and their interleaving with `calcTilt`, which reads and then writes the same tilt fields, is not modelled, so a reset that lands mid-update and is overwritten is not captured.
- Dmp.SensorDmp.Init: the model records its effect on the chip only as the sequence of calls made.
- `JSON.stringify` and `String(float)` are not modelled. The report is the ordered key/value object before serialisation.
- The `addReport` hook is modelled as the list of keyed assignments an override would make. No override exists in the repository.
- Out of scope, as side effects with no stateable result:
  - the web server, its routes and event source;
  - Wi-Fi, SPIFFS;
  - the OLED and serial logging (`src/Logger/SensorLogger.cpp`);
  - `report()` sending the event;
  - the browser script.
- The error handler's endless LED blink is replaced by a `Fail` outcome, and Sketch.Firmware.InitMpu returns it.
- The `delay(1)` calls in the calibration loops are not modelled, because they do not change any value.
- The compass's empty inline `wait()` is not modelled. The motion-processor interrupt pin is stored but never used: its set-up is commented out in the source.
- The class headers' override lists (`wait`, `getEvent(sMARG_t*)`, `update`) do not match `SensorBase`'s pure virtual methods. The model follows the `.cpp` bodies and does not model virtual dispatch.

## Findings

| source | as written | input that shows it | evidently intended | confidence | as-written member | corrected member |
|---|---|---|---|---|---|---|
| src/main.cpp:301-303 | the gyro offsets are subtracted through the accelerometer event's `gyro` view, which shares storage with its `acceleration` in the sensor-event union, so the acceleration loses both offsets and the gyro rate is never corrected | any calibration with a nonzero gyro offset, e.g. gyro offset (0.01, 0, 0): the fused roll integrates the raw rate x and the accelerometer x is 0.01 too low | subtract the gyro offset from the gyro event and only the accelerometer offset from the acceleration, as the sensor classes do | high (follows from the union layout); not executed | Sketch.MeasuredImu (with Sketch.MeasureSkipsGyroBias) | Calibration.Correct (used by Fusion.SensorFusion.GetEvent and Fuse.SensorFuse.GetEvent) |
