/** The report every sensor class produces (`SensorBase::getReport`). */
module SensorBase {
  import opened Common
  import opened Record

  /** The keys of the base report, in the order they are written. */
  const BASE_KEYS: seq<Key> := [GyroX, GyroY, GyroZ, AcclX, AcclY, AcclZ, TiltY, TiltR, TiltP]

  /** The nine assignments of the base report, in order: the corrected gyro
      and accelerometer axes, then heading, roll and pitch under tiltY,
      tiltR and tiltP. `str` is the float-to-`String` conversion. */
  function BaseFields(gyro: Vec3, accl: Vec3, tilt: Tilt, str: real -> string): (fs: seq<Field>)
    ensures Assigned(fs) == BASE_KEYS
  {
    [Field(GyroX, str(gyro.x)), Field(GyroY, str(gyro.y)), Field(GyroZ, str(gyro.z)),
     Field(AcclX, str(accl.x)), Field(AcclY, str(accl.y)), Field(AcclZ, str(accl.z)),
     Field(TiltY, str(tilt.heading)), Field(TiltR, str(tilt.roll)), Field(TiltP, str(tilt.pitch))]
  }

  /** Builds the report object by the nine base assignments and then hands
      the same object to the `addReport` hook, modelled as the list of
      assignments an override makes (the base hook makes none). The nine
      base keys come first, in order and once each, and with the default
      hook they are the only keys; a base key the hook does not reassign
      reads the string of its own input component, a key that is
      neither a base key nor assigned by the hook is absent, and each key
      the hook assigns (once) reads the hook's value. */
  method GetReport(gyro: Vec3, accl: Vec3, tilt: Tilt, str: real -> string, addReport: seq<Field>)
    returns (data: Report)
    ensures Valid(data)
    ensures |data.keys| >= 9 && data.keys[..9] == BASE_KEYS
    ensures addReport == [] ==> data.keys == BASE_KEYS
    ensures GyroX !in Assigned(addReport) ==> Lookup(data, GyroX) == Some(str(gyro.x))
    ensures GyroY !in Assigned(addReport) ==> Lookup(data, GyroY) == Some(str(gyro.y))
    ensures GyroZ !in Assigned(addReport) ==> Lookup(data, GyroZ) == Some(str(gyro.z))
    ensures AcclX !in Assigned(addReport) ==> Lookup(data, AcclX) == Some(str(accl.x))
    ensures AcclY !in Assigned(addReport) ==> Lookup(data, AcclY) == Some(str(accl.y))
    ensures AcclZ !in Assigned(addReport) ==> Lookup(data, AcclZ) == Some(str(accl.z))
    ensures TiltY !in Assigned(addReport) ==> Lookup(data, TiltY) == Some(str(tilt.heading))
    ensures TiltR !in Assigned(addReport) ==> Lookup(data, TiltR) == Some(str(tilt.roll))
    ensures TiltP !in Assigned(addReport) ==> Lookup(data, TiltP) == Some(str(tilt.pitch))
    ensures forall k :: k !in BASE_KEYS && k !in Assigned(addReport) ==> Lookup(data, k) == None
    ensures Distinct(Assigned(addReport)) ==>
      forall i :: 0 <= i < |addReport| ==> Lookup(data, addReport[i].key) == Some(addReport[i].value)
  {
    data := PutAll(EMPTY, BaseFields(gyro, accl, tilt, str));
    BaseReport(gyro, accl, tilt, str);
    BaseValues(gyro, accl, tilt, str);
    ghost var base := data;
    data := PutAll(data, addReport);
    PutAllKeeps(base, addReport);
    if Distinct(Assigned(addReport)) {
      PutAllReads(base, addReport);
    }
  }

  /** The base assignments, made on an empty object, list the nine base
      keys once each and give no other key a value. */
  lemma BaseReport(gyro: Vec3, accl: Vec3, tilt: Tilt, str: real -> string)
    ensures PutAll(EMPTY, BaseFields(gyro, accl, tilt, str)).keys == BASE_KEYS
    ensures Valid(PutAll(EMPTY, BaseFields(gyro, accl, tilt, str)))
    ensures forall k :: k !in BASE_KEYS ==> Lookup(PutAll(EMPTY, BaseFields(gyro, accl, tilt, str)), k) == None
  {
    var fields := BaseFields(gyro, accl, tilt, str);
    BaseKeysDistinct();
    PutAllAppends(EMPTY, fields);
    EmptyValid();
    PutAllKeeps(EMPTY, fields);
  }

  /** In the base report each key reads the string of its own input
      component: tiltY the heading, tiltR the roll and tiltP the pitch. */
  lemma BaseValues(gyro: Vec3, accl: Vec3, tilt: Tilt, str: real -> string)
    ensures Lookup(PutAll(EMPTY, BaseFields(gyro, accl, tilt, str)), GyroX) == Some(str(gyro.x))
    ensures Lookup(PutAll(EMPTY, BaseFields(gyro, accl, tilt, str)), GyroY) == Some(str(gyro.y))
    ensures Lookup(PutAll(EMPTY, BaseFields(gyro, accl, tilt, str)), GyroZ) == Some(str(gyro.z))
    ensures Lookup(PutAll(EMPTY, BaseFields(gyro, accl, tilt, str)), AcclX) == Some(str(accl.x))
    ensures Lookup(PutAll(EMPTY, BaseFields(gyro, accl, tilt, str)), AcclY) == Some(str(accl.y))
    ensures Lookup(PutAll(EMPTY, BaseFields(gyro, accl, tilt, str)), AcclZ) == Some(str(accl.z))
    ensures Lookup(PutAll(EMPTY, BaseFields(gyro, accl, tilt, str)), TiltY) == Some(str(tilt.heading))
    ensures Lookup(PutAll(EMPTY, BaseFields(gyro, accl, tilt, str)), TiltR) == Some(str(tilt.roll))
    ensures Lookup(PutAll(EMPTY, BaseFields(gyro, accl, tilt, str)), TiltP) == Some(str(tilt.pitch))
  {
    var fields := BaseFields(gyro, accl, tilt, str);
    BaseKeysDistinct();
    PutAllReads(EMPTY, fields);
    assert fields[0] == Field(GyroX, str(gyro.x));
    assert fields[1] == Field(GyroY, str(gyro.y));
    assert fields[2] == Field(GyroZ, str(gyro.z));
    assert fields[3] == Field(AcclX, str(accl.x));
    assert fields[4] == Field(AcclY, str(accl.y));
    assert fields[5] == Field(AcclZ, str(accl.z));
    assert fields[6] == Field(TiltY, str(tilt.heading));
    assert fields[7] == Field(TiltR, str(tilt.roll));
    assert fields[8] == Field(TiltP, str(tilt.pitch));
  }

  lemma BaseKeysDistinct()
    ensures Distinct(BASE_KEYS)
  {
  }

  /** The base keys are the strings `getReport` assigns, in its order. */
  lemma BaseKeyNames()
    ensures Names(BASE_KEYS) == ["gyroX", "gyroY", "gyroZ", "acclX", "acclY", "acclZ", "tiltY", "tiltR", "tiltP"]
  {
  }
}
