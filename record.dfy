/** The JSON object a report is built in: assigning `data[key] = value`
    replaces the value of a key already present, keeping its place, and
    appends a new key at the end. Serialising the object is not modelled;
    the object itself is the report. */
module Record {
  import opened Common

  /** The keys the firmware writes, by the string each stands for (Name).
      A JSON object is keyed by strings; naming the fixed keys by
      constructors keeps them apart without comparing characters. A key an
      `addReport` override adds beyond these is told apart by a number. */
  datatype Key =
    | Temp | GyroX | GyroY | GyroZ | AcclX | AcclY | AcclZ
    | TiltY | TiltR | TiltP
    | TiltYaw | TiltRoll | TiltPitch
    | Added(id: nat)

  function Name(k: Key): string
    requires !k.Added?
  {
    match k
    case Temp => "temp"
    case GyroX => "gyroX"
    case GyroY => "gyroY"
    case GyroZ => "gyroZ"
    case AcclX => "acclX"
    case AcclY => "acclY"
    case AcclZ => "acclZ"
    case TiltY => "tiltY"
    case TiltR => "tiltR"
    case TiltP => "tiltP"
    case TiltYaw => "tiltYaw"
    case TiltRoll => "tiltRoll"
    case TiltPitch => "tiltPitch"
  }

  /** The string of each key in a list of fixed keys. */
  function Names(ks: seq<Key>): (ns: seq<string>)
    requires forall i :: 0 <= i < |ks| ==> !ks[i].Added?
    ensures |ns| == |ks| && forall i :: 0 <= i < |ks| ==> ns[i] == Name(ks[i])
  {
    if |ks| == 0 then [] else Names(ks[..|ks| - 1]) + [Name(ks[|ks| - 1])]
  }

  /** Two fixed keys are the same key exactly when they name the same
      string, so keying the object by constructors instead of strings
      neither merges nor splits entries. */
  lemma NameInjective(k1: Key, k2: Key)
    requires !k1.Added? && !k2.Added?
    ensures Name(k1) == Name(k2) <==> k1 == k2
  {
    if k1 != k2 {
      assert Name(k1)[..] != Name(k2)[..];
    }
  }

  /** A JSON object: its keys in the order they were first assigned, and
      the value of each. */
  datatype Report = Report(keys: seq<Key>, values: map<Key, string>)

  const EMPTY: Report := Report([], map[])

  /** No key is listed twice. */
  ghost predicate Distinct(ks: seq<Key>) {
    forall i, j :: 0 <= i < j < |ks| ==> ks[i] != ks[j]
  }

  /** Every key is listed once, and exactly the listed keys have a value. */
  ghost predicate Valid(r: Report) {
    && Distinct(r.keys)
    && (forall k :: k in r.values <==> k in r.keys)
  }

  function Lookup(r: Report, k: Key): Option<string> {
    if k in r.values then Some(r.values[k]) else None
  }

  /** `data[k] = v`. Afterwards `k` reads `v`; a key already present keeps
      its place and a new key is appended at the end. Every other key reads
      what it read before (PutOther) and a well-formed object stays well
      formed (PutValid). */
  function Put(r: Report, k: Key, v: string): (r': Report)
    ensures Lookup(r', k) == Some(v)
    ensures Lookup(r, k).Some? ==> r'.keys == r.keys
    ensures Lookup(r, k).None? ==> r'.keys == r.keys + [k]
  {
    Report(if k in r.values then r.keys else r.keys + [k], r.values[k := v])
  }

  lemma PutOther(r: Report, k: Key, v: string, k': Key)
    requires k' != k
    ensures Lookup(Put(r, k, v), k') == Lookup(r, k')
  {
  }

  lemma PutValid(r: Report, k: Key, v: string)
    requires Valid(r)
    ensures Valid(Put(r, k, v))
  {
  }

  lemma EmptyValid()
    ensures Valid(EMPTY)
  {
  }

  /** One keyed assignment, as an `addReport` override performs it. */
  datatype Field = Field(key: Key, value: string)

  /** The keys a list of assignments writes. */
  function Assigned(extra: seq<Field>): (ks: seq<Key>)
    ensures |ks| == |extra| && forall i :: 0 <= i < |extra| ==> ks[i] == extra[i].key
  {
    seq(|extra|, i requires 0 <= i < |extra| => extra[i].key)
  }

  /** Performs the assignments `extra` in order. */
  function PutAll(r: Report, extra: seq<Field>): Report
    decreases extra
  {
    if extra == [] then r else PutAll(Put(r, extra[0].key, extra[0].value), extra[1..])
  }

  /** Later assignments never move or drop a key already present, they
      leave every key they do not assign as it was, and a well-formed
      object stays well formed. */
  lemma {:induction false} PutAllKeeps(r: Report, extra: seq<Field>)
    ensures |PutAll(r, extra).keys| >= |r.keys|
    ensures PutAll(r, extra).keys[..|r.keys|] == r.keys
    ensures forall k :: k !in Assigned(extra) ==> Lookup(PutAll(r, extra), k) == Lookup(r, k)
    ensures Valid(r) ==> Valid(PutAll(r, extra))
    decreases extra
  {
    if extra != [] {
      var f := extra[0];
      var r1 := Put(r, f.key, f.value);
      PutAllKeeps(r1, extra[1..]);
      if Valid(r) {
        PutValid(r, f.key, f.value);
      }
      var all := PutAll(r1, extra[1..]).keys;
      assert r1.keys[..|r.keys|] == r.keys;
      assert all[..|r1.keys|][..|r.keys|] == all[..|r.keys|];
      forall k | k !in Assigned(extra)
        ensures Lookup(PutAll(r, extra), k) == Lookup(r, k)
      {
        assert Assigned(extra)[0] == f.key;
        assert k !in Assigned(extra[1..]) by {
          forall j | 0 <= j < |extra| - 1 ensures Assigned(extra[1..])[j] != k {
            assert Assigned(extra[1..])[j] == Assigned(extra)[j + 1];
          }
        }
        if k != f.key {
          PutOther(r, f.key, f.value, k);
        }
      }
    }
  }

  /** Assignments to distinct keys none of which is present yet append
      those keys, in order, after the keys already present. */
  lemma {:induction false} PutAllAppends(r: Report, extra: seq<Field>)
    requires Distinct(Assigned(extra))
    requires forall i :: 0 <= i < |extra| ==> extra[i].key !in r.values
    ensures PutAll(r, extra).keys == r.keys + Assigned(extra)
    decreases extra
  {
    if extra != [] {
      var f, rest := extra[0], extra[1..];
      var r1 := Put(r, f.key, f.value);
      assert forall i :: 0 <= i < |rest| ==> rest[i] == extra[i + 1];
      assert r1.keys == r.keys + [f.key];
      assert Assigned(extra) == [f.key] + Assigned(rest);
      PutAllAppends(r1, rest);
      AppendAssoc(r.keys, [f.key], Assigned(rest));
    }
  }

  /** After assignments to distinct keys, each key reads the value it was
      assigned. */
  lemma {:induction false} PutAllReads(r: Report, extra: seq<Field>)
    requires Distinct(Assigned(extra))
    ensures forall i :: 0 <= i < |extra| ==> Lookup(PutAll(r, extra), extra[i].key) == Some(extra[i].value)
    decreases extra
  {
    if extra != [] {
      var f, rest := extra[0], extra[1..];
      var r1 := Put(r, f.key, f.value);
      assert forall i :: 0 <= i < |rest| ==> rest[i] == extra[i + 1];
      assert Assigned(extra) == [f.key] + Assigned(rest);
      PutAllReads(r1, rest);
      PutAllKeeps(r1, rest);
      assert f.key !in Assigned(rest);
    }
  }

  lemma AppendAssoc<T>(a: seq<T>, b: seq<T>, c: seq<T>)
    ensures (a + b) + c == a + (b + c)
  {
  }
}
