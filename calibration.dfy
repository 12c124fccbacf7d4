/** Bias calibration shared by the sketch and the MPU6050 classes: the mean
    of N resting samples per axis, with standard gravity taken off the
    accelerometer Z mean, and the subtraction of those biases from every
    later reading. */
module Calibration {
  import opened Common

  /** Running per-axis sum, in sample order. */
  function SumVec(s: seq<Vec3>): Vec3 {
    if |s| == 0 then ZERO else Add(SumVec(s[..|s| - 1]), s[|s| - 1])
  }

  /** One more sample adds itself to the running sum. */
  lemma SumVecStep(s: seq<Vec3>, i: nat)
    requires i < |s|
    ensures SumVec(s[..i + 1]) == Add(SumVec(s[..i]), s[i])
  {
    assert s[..i + 1][..i] == s[..i];
  }

  function MeanVec(s: seq<Vec3>): Vec3
    requires |s| >= 1
  {
    var t, n := SumVec(s), |s| as real;
    Vec3(t.x / n, t.y / n, t.z / n)
  }

  function Gyros(s: seq<Reading>): (g: seq<Vec3>)
    ensures |g| == |s| && forall i :: 0 <= i < |s| ==> g[i] == s[i].gyro
  {
    seq(|s|, i requires 0 <= i < |s| => s[i].gyro)
  }

  function Accls(s: seq<Reading>): (a: seq<Vec3>)
    ensures |a| == |s| && forall i :: 0 <= i < |s| ==> a[i] == s[i].accl
  {
    seq(|s|, i requires 0 <= i < |s| => s[i].accl)
  }

  /** The biases a calibration over `samples` stores: the gyro mean, and
      the accelerometer mean less standard gravity on Z (the device is
      assumed level and still). */
  function CalibratedBias(samples: seq<Reading>): (b: Bias)
    requires |samples| >= 1
    ensures var n, sg := |samples| as real, SumVec(Gyros(samples));
      b.gyro.x * n == sg.x && b.gyro.y * n == sg.y && b.gyro.z * n == sg.z
    ensures var n, sa := |samples| as real, SumVec(Accls(samples));
      b.accl.x * n == sa.x && b.accl.y * n == sa.y && (b.accl.z + GRAVITY_STANDARD) * n == sa.z
  {
    Bias(MeanVec(Gyros(samples)), Sub(MeanVec(Accls(samples)), GRAVITY_Z))
  }

  /** Bias subtraction: the corrected reading plus the bias gives back the
      raw reading on every axis; the temperature is passed through. */
  function Correct(raw: Reading, b: Bias): (r: Reading)
    ensures Add(r.gyro, b.gyro) == raw.gyro
    ensures Add(r.accl, b.accl) == raw.accl
    ensures r.temp == raw.temp
  {
    Reading(Sub(raw.accl, b.accl), Sub(raw.gyro, b.gyro), raw.temp)
  }

  /** Summing `n` copies of one sample gives `n` times that sample. */
  lemma {:induction false} SumOfConstant(s: seq<Vec3>, v: Vec3)
    requires forall i :: 0 <= i < |s| ==> s[i] == v
    ensures SumVec(s) == Vec3(|s| as real * v.x, |s| as real * v.y, |s| as real * v.z)
  {
    if |s| > 0 {
      var init := s[..|s| - 1];
      assert forall i :: 0 <= i < |init| ==> init[i] == s[i];
      SumOfConstant(init, v);
      var n := |init| as real;
      assert (n + 1.0) * v.x == n * v.x + v.x;
      assert (n + 1.0) * v.y == n * v.y + v.y;
      assert (n + 1.0) * v.z == n * v.z + v.z;
    }
  }

  /** The mean of identical samples is that sample. */
  lemma MeanOfConstant(s: seq<Vec3>, v: Vec3)
    requires |s| >= 1
    requires forall i :: 0 <= i < |s| ==> s[i] == v
    ensures MeanVec(s) == v
  {
    SumOfConstant(s, v);
    var n := |s| as real;
    assert n * v.x / n == v.x;
    assert n * v.y / n == v.y;
    assert n * v.z / n == v.z;
  }

  /** Calibrating on a device that keeps reporting the same reading stores
      that reading as the gyro bias and the reading less gravity as the
      accelerometer bias; correcting that reading afterwards then shows no
      rotation and exactly standard gravity on Z. */
  lemma CalibrationAtRest(samples: seq<Reading>, r: Reading)
    requires |samples| >= 1
    requires forall i :: 0 <= i < |samples| ==> samples[i] == r
    ensures CalibratedBias(samples) == Bias(r.gyro, Sub(r.accl, GRAVITY_Z))
    ensures Correct(r, CalibratedBias(samples)) == Reading(GRAVITY_Z, ZERO, r.temp)
  {
    MeanOfConstant(Gyros(samples), r.gyro);
    MeanOfConstant(Accls(samples), r.accl);
  }
}
