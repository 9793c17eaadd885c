/** The Raspberry Pi's partitioned store: one dictionary per endpoint (the surface and the
    three Arduinos), a static transmission-key set per endpoint, ramped surface writes and
    verbatim mirroring of Arduino writes into the surface dictionary. */
module PiDataManager {
  import opened Common

  // Endpoint identifiers: the keys of `self._data`
  const SURFACE: Value := Num(0.0)
  const ARDUINO_T: Value := Text("Ard_T")
  const ARDUINO_M: Value := Text("Ard_M")
  const ARDUINO_I: Value := Text("Ard_I")

  const INDICES: set<Value> := {SURFACE, ARDUINO_T, ARDUINO_M, ARDUINO_I}

  const THRUSTER_IDLE: real := 1500.0

  /** How far one surface write moves a stored actuator value. */
  const RAMP_RATE: real := 2.0

  /** The keys of `DEFAULT`, each reset to THRUSTER_IDLE when the surface link is lost. */
  const DEFAULT_KEYS: seq<string> :=
    ["Thr_FP", "Thr_FS", "Thr_AP", "Thr_AS", "Thr_TFP", "Thr_TFS", "Thr_TAP", "Thr_TAS",
     "Thr_M", "Mot_R", "Mot_G", "Mot_F"]

  // The transmission-key sets of `self._transmission_keys`
  const SURFACE_KEYS: set<string> :=
    {"status_T", "status_M", "status_I", "Sen_IMU_X", "Sen_IMU_Y", "Sen_IMU_Z", "Sen_IMU_Temp",
     "Sen_IMU_AccX", "Sen_IMU_AccY", "Sen_IMU_AccZ", "Sen_Dep_Pres", "Sen_Dep_Temp", "Sen_Dep_Dep",
     "Sen_Temp", "Sen_PH", "Sen_Sonar_Dist", "Sen_Sonar_Conf", "Sen_Metal"}
  const ARDUINO_T_KEYS: set<string> :=
    {"Thr_FP", "Thr_FS", "Thr_AP", "Thr_AS", "Thr_TFP", "Thr_TFS", "Thr_TAP", "Thr_TAS",
     "Mot_R", "Mot_G", "Mot_F"}
  const ARDUINO_M_KEYS: set<string> := {"Thr_M"}
  const ARDUINO_I_KEYS: set<string> := {"Sen_Sonar_Start", "Sen_Sonar_Len"}

  /** `self._transmission_keys[index]`; None where Python raises KeyError. */
  function TransmissionKeys(index: Value): Option<set<string>> {
    if index == SURFACE then Some(SURFACE_KEYS)
    else if index == ARDUINO_T then Some(ARDUINO_T_KEYS)
    else if index == ARDUINO_M then Some(ARDUINO_M_KEYS)
    else if index == ARDUINO_I then Some(ARDUINO_I_KEYS)
    else None
  }

  /** `self._keys_lookup`: every key of an Arduino's transmission set, mapped to that Arduino
      (the comprehension visits T, M, I in turn, so a later set would win a clash). */
  const KEYS_LOOKUP: map<string, Value> :=
    map k | k in ARDUINO_T_KEYS + ARDUINO_M_KEYS + ARDUINO_I_KEYS ::
      if k in ARDUINO_I_KEYS then ARDUINO_I else if k in ARDUINO_M_KEYS then ARDUINO_M else ARDUINO_T

  /** The contents of `self._data`: one dictionary per endpoint. */
  type Partitions = map<Value, map<string, Value>>

  /** Every endpoint has its dictionary. */
  predicate WellFormed(d: Partitions) {
    SURFACE in d && ARDUINO_T in d && ARDUINO_M in d && ARDUINO_I in d
  }

  /** Key `k` has the same presence and value in `m1` and `m2`. */
  predicate Agree(m1: map<string, Value>, m2: map<string, Value>, k: string) {
    (k in m1 <==> k in m2) && (k in m1 ==> m1[k] == m2[k])
  }

  /** One surface-origin ramp step (`difference = stored - value`, then `-=`/`+=` RAMP_RATE);
      Python's `-` raises TypeError unless both sides are numbers. */
  function Ramp(stored: Value, requested: Value): Result<Value, Fault> {
    match (stored, requested)
    case (Num(s), Num(t)) =>
      Success(Num(if s - t > 0.0 then s - RAMP_RATE else if s - t < 0.0 then s + RAMP_RATE else s))
    case _ => Failure(TypeError)
  }

  /** One iteration of the non-default branch of `set` for the pair (key, value). */
  function WriteOne(d: Partitions, index: Value, key: string, value: Value): (r: Result<Partitions, Fault>)
    requires WellFormed(d)
    ensures r.Success? ==> WellFormed(r.value)
  {
    if index == SURFACE then
      if key !in KEYS_LOOKUP then Failure(KeyError)
      else
        var owner := KEYS_LOOKUP[key];
        if key !in d[owner] then Success(d[owner := d[owner][key := value]])
        else
          match Ramp(d[owner][key], value)
          case Success(v) => Success(d[owner := d[owner][key := v]])
          case Failure(e) => Failure(e)
    else
      Success(d[SURFACE := d[SURFACE][key := value]])
  }

  /** The non-default branch of `set`: the pairs in order, stopping at the first exception;
      the pairs before it stay applied. */
  function WriteAll(d: Partitions, index: Value, kv: seq<(string, Value)>): (r: (Partitions, Option<Fault>))
    requires WellFormed(d)
    ensures WellFormed(r.0)
    decreases |kv|
  {
    if kv == [] then (d, None)
    else
      match WriteOne(d, index, kv[0].0, kv[0].1)
      case Failure(e) => (d, Some(e))
      case Success(d') => WriteAll(d', index, kv[1..])
  }

  // Calling `set(index, **obj)`

  /** Python's truth value of a JSON scalar: zero and the empty string are false. */
  predicate Truthy(v: Value) {
    match v
    case Num(x) => x != 0.0
    case Text(s) => s != ""
  }

  /** The pairs of `kv` whose key is not `key`, in their order. */
  function Without(kv: seq<(string, Value)>, key: string): (r: seq<(string, Value)>)
    ensures KeysOf(r) == KeysOf(kv) - {key}
    ensures key !in KeysOf(kv) ==> r == kv
    decreases |kv|
  {
    if kv == [] then []
    else
      KeysOfCons(kv);
      var rest := Without(kv[1..], key);
      if kv[0].0 == key then rest
      else
        assert ([kv[0]] + rest)[1..] == rest;
        KeysOfCons([kv[0]] + rest);
        [kv[0]] + rest
  }

  /** Dropping the pairs of one key drops that key from the dictionary and keeps the rest. */
  lemma {:induction false} AsDictWithout(kv: seq<(string, Value)>, key: string)
    ensures AsDict(Without(kv, key)) == AsDict(kv) - {key}
    decreases |kv|
  {
    if kv != [] {
      AsDictWithout(kv[1..], key);
      var rest := Without(kv[1..], key);
      if kv[0].0 != key {
        assert ([kv[0]] + rest)[1..] == rest;
        assert AsDict([kv[0]] + rest) == map[kv[0].0 := kv[0].1] + AsDict(rest);
      }
    }
  }

  /** The arguments of `set` once Python has bound `**obj` to `set(self, index, default=False,
      **kwargs)`. */
  datatype Binding = Binding(default: bool, kwargs: seq<(string, Value)>)

  /** Binding `**obj`: a pair named "self" or "index" collides with a positional parameter
      and raises TypeError before `set` runs; a pair named "default" becomes the `default`
      flag, taken by its truth value; every other pair goes to `kwargs`, in order. */
  function Bind(obj: seq<(string, Value)>): (r: Result<Binding, Fault>)
    ensures r.Failure? <==> "self" in KeysOf(obj) || "index" in KeysOf(obj)
    ensures r.Failure? ==> r.error == TypeError
    ensures r.Success? ==> AsDict(r.value.kwargs) == AsDict(obj) - {"default"}
    ensures r.Success? ==> (r.value.default <==> "default" in KeysOf(obj) && Truthy(AsDict(obj)["default"]))
    ensures r.Success? && "default" !in KeysOf(obj) ==> r.value == Binding(false, obj)
  {
    if "self" in KeysOf(obj) || "index" in KeysOf(obj) then Failure(TypeError)
    else
      AsDictWithout(obj, "default");
      var default := "default" in AsDict(obj) && Truthy(AsDict(obj)["default"]);
      Success(Binding(default, Without(obj, "default")))
  }

  /** `set(index, **obj)` on the partitions `d`: the partitions afterwards and the exception
      raised, if any. */
  function SetCall(d: Partitions, index: Value, obj: seq<(string, Value)>): (r: (Partitions, Option<Fault>))
    requires WellFormed(d)
    ensures WellFormed(r.0)
  {
    match Bind(obj)
    case Failure(e) => (d, Some(e))
    case Success(b) => if b.default then (ResetDefaults(d), None) else WriteAll(d, index, b.kwargs)
  }

  /** Without "self", "index" or a truthy "default", `set(index, **obj)` writes the pairs of
      `obj` other than "default", in order. */
  lemma SetCallWrites(d: Partitions, index: Value, obj: seq<(string, Value)>)
    requires WellFormed(d) && "self" !in KeysOf(obj) && "index" !in KeysOf(obj)
    requires !("default" in KeysOf(obj) && Truthy(AsDict(obj)["default"]))
    ensures SetCall(d, index, obj) == WriteAll(d, index, Without(obj, "default"))
  {
    assert Bind(obj) == Success(Binding(false, Without(obj, "default")));
  }

  /** Every one of `keys` has an owner among the partitions of `d`. */
  predicate Owned(d: Partitions, keys: seq<string>, owner: map<string, Value>) {
    forall j :: 0 <= j < |keys| ==> keys[j] in owner && owner[keys[j]] in d
  }

  /** The partitions after resetting keys[i..], one after the other, to THRUSTER_IDLE in the
      partitions `owner` assigns them to. */
  function ResetKeys(d: Partitions, keys: seq<string>, owner: map<string, Value>, i: nat): (r: Partitions)
    requires i <= |keys| && Owned(d, keys, owner)
    ensures r.Keys == d.Keys
    decreases |keys| - i
  {
    if i == |keys| then d
    else
      var o := owner[keys[i]];
      ResetKeys(d[o := d[o][keys[i] := Num(THRUSTER_IDLE)]], keys, owner, i + 1)
  }

  /** The partitions after `set(..., default=True)`. */
  function ResetDefaults(d: Partitions): (r: Partitions)
    requires WellFormed(d)
    ensures WellFormed(r)
  {
    DefaultsOwned(d);
    ResetKeys(d, DEFAULT_KEYS, KEYS_LOOKUP, 0)
  }

  /** `get(index, *args)` on the partitions `d`: with no keys, the stored keys of the partition that are in its
      transmission set; with keys, those of them in the transmission set (KeyError when such a
      key is not stored yet); KeyError for an unknown index. */
  function Get(d: Partitions, index: Value, args: seq<string>): (r: Result<map<string, Value>, Fault>)
    requires WellFormed(d)
    ensures TransmissionKeys(index).None? ==> r == Failure(KeyError)
    ensures r.Success? ==>
      TransmissionKeys(index).Some? &&
      r.value.Keys <= TransmissionKeys(index).value &&
      forall k :: k in r.value ==> k in d[index] && r.value[k] == d[index][k]
    ensures TransmissionKeys(index).Some? && args == [] ==>
      r.Success? && r.value.Keys == TransmissionKeys(index).value * d[index].Keys
    ensures TransmissionKeys(index).Some? && args != [] ==>
      (r.Failure? <==>
        exists i :: 0 <= i < |args| && args[i] in TransmissionKeys(index).value && args[i] !in d[index])
    ensures TransmissionKeys(index).Some? && args != [] && r.Success? ==>
      r.value.Keys == (set i | 0 <= i < |args| && args[i] in TransmissionKeys(index).value :: args[i])
  {
    match TransmissionKeys(index)
    case None => Failure(KeyError)
    case Some(keys) =>
      if args == [] then
        Success(map k | k in keys && k in d[index] :: d[index][k])
      else if exists i :: 0 <= i < |args| && args[i] in keys && args[i] !in d[index] then
        Failure(KeyError)
      else
        Success(map k | k in (set i | 0 <= i < |args| && args[i] in keys :: args[i]) :: d[index][k])
  }

  class DataManager {
    var data: Partitions

    ghost predicate Valid()
      reads this
    {
      WellFormed(data)
    }

    /** `__init__`: four empty dictionaries. */
    constructor ()
      ensures Valid() && data.Keys == INDICES
      ensures forall ix :: ix in INDICES ==> data[ix] == map[]
    {
      data := map ix | ix in INDICES :: map[];
    }

    /** `set(index, default, **kwargs)`. With `default`, every DEFAULT key is reset in its
        owning Arduino partition and `index` and `kwargs` are ignored; otherwise each pair is
        ramped into its owning Arduino partition (surface origin) or mirrored into the surface
        partition (Arduino origin), stopping at the first exception. */
    method Set(index: Value, default: bool, kwargs: seq<(string, Value)>) returns (fault: Option<Fault>)
      requires Valid()
      modifies this
      ensures Valid()
      ensures default ==> data == ResetDefaults(old(data)) && fault == None
      ensures !default ==> (data, fault) == WriteAll(old(data), index, kwargs)
    {
      if default {
        ResetToDefaults();
        fault := None;
      } else {
        fault := WritePairs(index, kwargs);
      }
    }

    /** The `default` branch of `set`. */
    method ResetToDefaults()
      requires Valid()
      modifies this
      ensures Valid()
      ensures data == ResetDefaults(old(data))
    {
      DefaultsOwned(data);
      var i := 0;
      while i < |DEFAULT_KEYS|
        invariant 0 <= i <= |DEFAULT_KEYS|
        invariant data.Keys == old(data).Keys && Owned(data, DEFAULT_KEYS, KEYS_LOOKUP)
        invariant ResetDefaults(old(data)) == ResetKeys(data, DEFAULT_KEYS, KEYS_LOOKUP, i)
      {
        var key := DEFAULT_KEYS[i];
        var owner := KEYS_LOOKUP[key];
        data := data[owner := data[owner][key := Num(THRUSTER_IDLE)]];
        i := i + 1;
      }
    }

    /** The standard-communication branch of `set`. */
    method WritePairs(index: Value, kwargs: seq<(string, Value)>) returns (fault: Option<Fault>)
      requires Valid()
      modifies this
      ensures Valid()
      ensures (data, fault) == WriteAll(old(data), index, kwargs)
    {
      KeysLookupOwners();
      fault := None;
      var i := 0;
      while i < |kwargs|
        invariant 0 <= i <= |kwargs|
        invariant WellFormed(data)
        invariant WriteAll(old(data), index, kwargs) == WriteAll(data, index, kwargs[i..])
      {
        var (key, value) := kwargs[i];
        ghost var before := data;
        assert kwargs[i..][0] == kwargs[i] && kwargs[i..][1..] == kwargs[i + 1..];
        assert WriteAll(before, index, kwargs[i..]) ==
          match WriteOne(before, index, key, value)
          case Failure(e) => (before, Some(e))
          case Success(d') => WriteAll(d', index, kwargs[i + 1..]);
        if index == SURFACE {
          if key !in KEYS_LOOKUP {
            fault := Some(KeyError);
            return;
          }
          var owner := KEYS_LOOKUP[key];
          if key !in data[owner] {
            data := data[owner := data[owner][key := value]];
          } else {
            var stored := data[owner][key];
            if !stored.Num? || !value.Num? {
              assert WriteOne(before, index, key, value) == Failure(TypeError);
              fault := Some(TypeError);
              return;
            }
            var difference := stored.x - value.x;
            var ramped := stored.x;
            if difference > 0.0 {
              ramped := stored.x - RAMP_RATE;
            } else if difference < 0.0 {
              ramped := stored.x + RAMP_RATE;
            }
            assert Ramp(stored, value) == Success(Num(ramped));
            data := data[owner := data[owner][key := Num(ramped)]];
          }
        } else {
          data := data[SURFACE := data[SURFACE][key := value]];
        }
        assert WriteOne(before, index, key, value) == Success(data);
        i := i + 1;
      }
    }
  }

  /** The three Arduino transmission sets are pairwise disjoint, so `_keys_lookup` sends each
      actuator or sonar key to the one Arduino whose set holds it, and never to the surface. */
  lemma KeysLookupOwners()
    ensures ARDUINO_T_KEYS !! ARDUINO_M_KEYS && ARDUINO_T_KEYS !! ARDUINO_I_KEYS && ARDUINO_M_KEYS !! ARDUINO_I_KEYS
    ensures KEYS_LOOKUP.Keys == ARDUINO_T_KEYS + ARDUINO_M_KEYS + ARDUINO_I_KEYS
    ensures forall k :: k in KEYS_LOOKUP ==> KEYS_LOOKUP[k] in INDICES && KEYS_LOOKUP[k] != SURFACE
    ensures forall k :: k in KEYS_LOOKUP ==> k in TransmissionKeys(KEYS_LOOKUP[k]).value
    ensures forall k :: k in ARDUINO_T_KEYS ==> KEYS_LOOKUP[k] == ARDUINO_T
    ensures forall k :: k in ARDUINO_M_KEYS ==> KEYS_LOOKUP[k] == ARDUINO_M
    ensures forall k :: k in ARDUINO_I_KEYS ==> KEYS_LOOKUP[k] == ARDUINO_I
  {
  }

  /** Every DEFAULT key has its owner among well-formed partitions. */
  lemma DefaultsOwned(d: Partitions)
    requires WellFormed(d)
    ensures Owned(d, DEFAULT_KEYS, KEYS_LOOKUP)
  {
    DefaultKeysOwned();
  }

  /** Every DEFAULT key is owned by an Arduino. */
  lemma DefaultKeysOwned()
    ensures forall i :: 0 <= i < |DEFAULT_KEYS| ==>
      DEFAULT_KEYS[i] in KEYS_LOOKUP && KEYS_LOOKUP[DEFAULT_KEYS[i]] in INDICES &&
      KEYS_LOOKUP[DEFAULT_KEYS[i]] != SURFACE
  {
  }

  // Ramping

  /** One ramp step on numbers moves the stored value by exactly -RAMP_RATE, 0 or +RAMP_RATE,
      toward the request and only when the two differ. A gap of at least RAMP_RATE shrinks by
      RAMP_RATE; a smaller non-zero gap is overshot and changes sign. */
  lemma RampStep(s: real, t: real)
    ensures Ramp(Num(s), Num(t)).Success? && Ramp(Num(s), Num(t)).value.Num?
    ensures var s' := Ramp(Num(s), Num(t)).value.x;
      (s' == s - RAMP_RATE || s' == s || s' == s + RAMP_RATE) &&
      (s' == s <==> s == t) &&
      (s > t ==> s' < s) && (s < t ==> s' > s) &&
      (s - t >= RAMP_RATE ==> s' - t == s - t - RAMP_RATE) &&
      (t - s >= RAMP_RATE ==> t - s' == t - s - RAMP_RATE) &&
      (0.0 < s - t < RAMP_RATE ==> s' < t) &&
      (0.0 < t - s < RAMP_RATE ==> s' > t)
  {
  }

  /** Ramping a non-number, or toward a non-number, raises TypeError. */
  lemma RampNonNumber(stored: Value, requested: Value)
    requires !stored.Num? || !requested.Num?
    ensures Ramp(stored, requested) == Failure(TypeError)
  {
  }

  /** The stored number after `n` surface writes of the same request `t`, starting from `s`. */
  function RampIter(s: real, t: real, n: nat): real
    decreases n
  {
    if n == 0 then s else RampIter(Ramp(Num(s), Num(t)).value.x, t, n - 1)
  }

  /** From an even gap 2k the stored value reaches the request in exactly k writes and then
      stays there. */
  lemma {:induction false} RampConvergesOnEvenGap(s: real, t: real, k: nat, extra: nat)
    requires s - t == 2.0 * k as real || t - s == 2.0 * k as real
    ensures RampIter(s, t, k + extra) == t
    decreases k
  {
    if k == 0 {
      RampSettled(t, extra);
    } else {
      RampStep(s, t);
      RampConvergesOnEvenGap(Ramp(Num(s), Num(t)).value.x, t, k - 1, extra);
    }
  }

  /** A stored value equal to the request never moves again. */
  lemma {:induction false} RampSettled(t: real, n: nat)
    ensures RampIter(t, t, n) == t
  {
    if n > 0 {
      RampSettled(t, n - 1);
    }
  }

  /** From a gap of 1 the stored value never reaches the request: it alternates between
      one above and one below it forever. */
  lemma {:induction false} RampOscillatesOnUnitGap(t: real, n: nat)
    ensures RampIter(t + 1.0, t, n) == if n % 2 == 0 then t + 1.0 else t - 1.0
    ensures RampIter(t - 1.0, t, n) == if n % 2 == 0 then t - 1.0 else t + 1.0
  {
    if n > 0 {
      RampOscillatesOnUnitGap(t, n - 1);
    }
  }

  // Surface-origin writes

  /** A surface write of a key not yet stored in its owning Arduino partition stores the
      value as given; one of a stored number ramps it toward the requested number. */
  lemma SurfaceWriteOne(d: Partitions, key: string, value: Value)
    requires WellFormed(d) && key in KEYS_LOOKUP
    ensures KEYS_LOOKUP[key] in d
    ensures var owner := KEYS_LOOKUP[key];
      key !in d[owner] ==>
        WriteAll(d, SURFACE, [(key, value)]) == (d[owner := d[owner][key := value]], None)
    ensures var owner := KEYS_LOOKUP[key];
      key in d[owner] && d[owner][key].Num? && value.Num? ==>
        exists s' :: WriteAll(d, SURFACE, [(key, value)]) == (d[owner := d[owner][key := Num(s')]], None) &&
          s' == RampIter(d[owner][key].x, value.x, 1)
  {
    KeysLookupOwners();
    var owner := KEYS_LOOKUP[key];
    assert [(key, value)][1..] == [];
    if key in d[owner] && d[owner][key].Num? && value.Num? {
      var s' := RampIter(d[owner][key].x, value.x, 1);
      assert WriteAll(d, SURFACE, [(key, value)]) == (d[owner := d[owner][key := Num(s')]], None);
    }
  }

  /** `d2` differs from `d` at most in the entries of `keys` inside their owning Arduino
      partitions. */
  ghost predicate OwnersOnlyChanged(d: Partitions, d2: Partitions, keys: set<string>)
    requires WellFormed(d)
  {
    d2.Keys == d.Keys && d2[SURFACE] == d[SURFACE] &&
    forall ix, k :: ix in d && (k !in keys || k !in KEYS_LOOKUP || KEYS_LOOKUP[k] != ix) ==>
      Agree(d[ix], d2[ix], k)
  }

  lemma OwnersOnlyChangedTrans(d: Partitions, d1: Partitions, d2: Partitions, k1: set<string>, k2: set<string>)
    requires WellFormed(d) && WellFormed(d1)
    requires OwnersOnlyChanged(d, d1, k1) && OwnersOnlyChanged(d1, d2, k2)
    ensures OwnersOnlyChanged(d, d2, k1 + k2)
  {
  }

  /** One surface-origin pair changes at most the entry of its key in the key's owning
      partition; it fails with KeyError exactly when the key is missing from the lookup, and
      otherwise can fail only with TypeError. */
  lemma SurfaceWriteOneFrame(d: Partitions, key: string, value: Value)
    requires WellFormed(d)
    ensures var r := WriteOne(d, SURFACE, key, value);
      (r == Failure(KeyError) <==> key !in KEYS_LOOKUP) &&
      (r.Failure? ==> r.error == KeyError || r.error == TypeError) &&
      (r.Success? ==> OwnersOnlyChanged(d, r.value, {key}))
  {
    var r := WriteOne(d, SURFACE, key, value);
    if key in KEYS_LOOKUP {
      KeyOwner(key);
      var o := KEYS_LOOKUP[key];
      if r.Success? {
        var v := if key !in d[o] then value else Ramp(d[o][key], value).value;
        assert r.value == d[o := d[o][key := v]];
        OwnerUpdateFrame(d, key, v);
      }
    }
  }

  /** The owner of an actuator or sonar key is an Arduino. */
  lemma KeyOwner(key: string)
    requires key in KEYS_LOOKUP
    ensures KEYS_LOOKUP[key] in INDICES && KEYS_LOOKUP[key] != SURFACE
  {
    KeysLookupOwners();
  }

  /** Updating a key in its owner's partition changes nothing else. */
  lemma OwnerUpdateFrame(d: Partitions, key: string, v: Value)
    requires WellFormed(d) && key in KEYS_LOOKUP
    requires KEYS_LOOKUP[key] in d && KEYS_LOOKUP[key] != SURFACE
    ensures var o := KEYS_LOOKUP[key];
      OwnersOnlyChanged(d, d[o := d[o][key := v]], {key})
  {
  }

  /** A surface write touches only the owning Arduino partitions of the given keys: the
      surface partition, every key not given, and every key outside its owner keep their
      presence and value. */
  lemma {:induction false} SurfaceWriteFrame(d: Partitions, kv: seq<(string, Value)>)
    requires WellFormed(d)
    ensures OwnersOnlyChanged(d, WriteAll(d, SURFACE, kv).0, KeysOf(kv))
    decreases |kv|
  {
    if kv == [] {
    } else {
      var (key, value) := kv[0];
      SurfaceWriteOneFrame(d, key, value);
      KeysOfCons(kv);
      match WriteOne(d, SURFACE, key, value)
      case Failure(e) =>
      case Success(d1) =>
        SurfaceWriteFrame(d1, kv[1..]);
        OwnersOnlyChangedTrans(d, d1, WriteAll(d1, SURFACE, kv[1..]).0, {key}, KeysOf(kv[1..]));
    }
  }

  /** A surface write fails only with KeyError or TypeError, and a key missing from the lookup
      always makes it fail. */
  lemma {:induction false} SurfaceWriteFaults(d: Partitions, kv: seq<(string, Value)>)
    requires WellFormed(d)
    ensures var f := WriteAll(d, SURFACE, kv).1;
      (f == None || f == Some(KeyError) || f == Some(TypeError)) &&
      ((exists i :: 0 <= i < |kv| && kv[i].0 !in KEYS_LOOKUP) ==> f.Some?)
    decreases |kv|
  {
    if kv != [] {
      var (key, value) := kv[0];
      SurfaceWriteOneFrame(d, key, value);
      match WriteOne(d, SURFACE, key, value)
      case Failure(e) =>
      case Success(d1) =>
        SurfaceWriteFaults(d1, kv[1..]);
        if exists i :: 0 <= i < |kv| && kv[i].0 !in KEYS_LOOKUP {
          var i :| 0 <= i < |kv| && kv[i].0 !in KEYS_LOOKUP;
          assert i > 0 && kv[1..][i - 1].0 !in KEYS_LOOKUP;
        }
    }
  }

  /** All stored actuator values are numbers. */
  predicate NumericArduinos(d: Partitions) {
    forall ix, k :: ix in d && ix != SURFACE && k in d[ix] ==> d[ix][k].Num?
  }

  /** Surface writes of known keys with numeric values never fail, and keep the Arduino
      partitions numeric. */
  lemma {:induction false} SurfaceWriteNumeric(d: Partitions, kv: seq<(string, Value)>)
    requires WellFormed(d) && NumericArduinos(d)
    requires forall i :: 0 <= i < |kv| ==> kv[i].0 in KEYS_LOOKUP && kv[i].1.Num?
    ensures WriteAll(d, SURFACE, kv).1 == None && NumericArduinos(WriteAll(d, SURFACE, kv).0)
    decreases |kv|
  {
    KeysLookupOwners();
    if kv != [] {
      var (key, value) := kv[0];
      assert kv[0].0 in KEYS_LOOKUP && kv[0].1.Num?;
      var d1 := WriteOne(d, SURFACE, key, value);
      assert d1.Success?;
      assert NumericArduinos(d1.value);
      SurfaceWriteNumeric(d1.value, kv[1..]);
    }
  }

  /** `r` holds, in the partition that owns `key`, the value written under `key` into `d`:
      the value itself when `d` did not store the key yet, one ramp step from the stored
      number toward it otherwise. */
  ghost predicate RampedTo(d: Partitions, r: Partitions, key: string, value: Value) {
    key in KEYS_LOOKUP && KEYS_LOOKUP[key] in d && KEYS_LOOKUP[key] in r &&
    var o := KEYS_LOOKUP[key];
    key in r[o] &&
    if key !in d[o] then r[o][key] == value
    else d[o][key].Num? && value.Num? && r[o][key] == Num(RampIter(d[o][key].x, value.x, 1))
  }

  /** A surface write of distinct actuator keys with numeric values, on numeric Arduino
      partitions, leaves every one of them ramped to its value, each independently of the
      others. */
  lemma {:induction false} SurfaceWriteValues(d: Partitions, kv: seq<(string, Value)>)
    requires WellFormed(d) && NumericArduinos(d)
    requires forall i :: 0 <= i < |kv| ==> kv[i].0 in KEYS_LOOKUP && kv[i].1.Num?
    requires forall i, j :: 0 <= i < j < |kv| ==> kv[i].0 != kv[j].0
    ensures forall i :: 0 <= i < |kv| ==> RampedTo(d, WriteAll(d, SURFACE, kv).0, kv[i].0, kv[i].1)
    decreases |kv|
  {
    if kv != [] {
      var (key, value) := kv[0];
      assert kv[0].0 in KEYS_LOOKUP && kv[0].1.Num?;
      var d1 := SurfaceWriteHead(d, key, value);
      var r := WriteAll(d1, SURFACE, kv[1..]).0;
      assert WriteAll(d, SURFACE, kv).0 == r;
      forall i, j | 0 <= i < j < |kv[1..]| ensures kv[1..][i].0 != kv[1..][j].0 {
        assert kv[1..][i] == kv[i + 1] && kv[1..][j] == kv[j + 1];
      }
      SurfaceWriteValues(d1, kv[1..]);
      SurfaceWriteFrame(d1, kv[1..]);
      forall i | 0 <= i < |kv| ensures RampedTo(d, r, kv[i].0, kv[i].1) {
        if i == 0 {
          forall j | 0 <= j < |kv[1..]| ensures kv[1..][j].0 != key {
            assert kv[1..][j] == kv[j + 1];
          }
          RampedToKept(d, d1, r, key, value, kv[1..]);
        } else {
          assert kv[1..][i - 1] == kv[i] && kv[i].0 != key;
          RampedToOther(d, d1, r, key, kv[i].0, kv[i].1);
        }
      }
    }
  }

  /** The first pair of a well-behaved surface write succeeds, ramps its key and keeps the
      Arduino partitions numeric. */
  lemma SurfaceWriteHead(d: Partitions, key: string, value: Value) returns (d1: Partitions)
    requires WellFormed(d) && NumericArduinos(d) && key in KEYS_LOOKUP && value.Num?
    ensures WellFormed(d1) && NumericArduinos(d1) && RampedTo(d, d1, key, value)
    ensures WriteOne(d, SURFACE, key, value) == Success(d1)
    ensures var o := KEYS_LOOKUP[key];
      o in d && o in d1 && key in d1[o] && d1 == d[o := d1[o]] && d1[o] == d[o][key := d1[o][key]]
  {
    KeysLookupOwners();
    var o := KEYS_LOOKUP[key];
    var v1 := if key !in d[o] then value else Num(RampIter(d[o][key].x, value.x, 1));
    d1 := d[o := d[o][key := v1]];
    assert WriteOne(d, SURFACE, key, value) == Success(d1);
  }

  /** A key ramped by the first write and left alone by the later ones stays ramped. */
  lemma RampedToKept(d: Partitions, d1: Partitions, r: Partitions, key: string, value: Value, later: seq<(string, Value)>)
    requires WellFormed(d1) && RampedTo(d, d1, key, value)
    requires OwnersOnlyChanged(d1, r, KeysOf(later)) && key !in KeysOf(later)
    ensures RampedTo(d, r, key, value)
  {
    var o := KEYS_LOOKUP[key];
    assert Agree(d1[o], r[o], key);
  }

  /** A later key ramped after the first write is ramped relative to the partitions before
      it, since the first write touched only its own key. */
  lemma RampedToOther(d: Partitions, d1: Partitions, r: Partitions, key: string, k: string, value: Value)
    requires key in KEYS_LOOKUP && KEYS_LOOKUP[key] in d && k != key
    requires var o := KEYS_LOOKUP[key];
      o in d1 && key in d1[o] && d1 == d[o := d1[o]] && d1[o] == d[o][key := d1[o][key]]
    requires RampedTo(d1, r, k, value)
    ensures RampedTo(d, r, k, value)
  {
    var o := KEYS_LOOKUP[key];
    var ok := KEYS_LOOKUP[k];
    assert Agree(d[ok], d1[ok], k);
  }

  // Arduino-origin writes

  /** Copying the first pair and then merging the rest is merging all of them. */
  lemma SurfaceMergeStep(d: Partitions, kv: seq<(string, Value)>)
    requires SURFACE in d && kv != []
    ensures var d1 := d[SURFACE := d[SURFACE][kv[0].0 := kv[0].1]];
      d1[SURFACE := d1[SURFACE] + AsDict(kv[1..])] == d[SURFACE := d[SURFACE] + AsDict(kv)]
  {
    var (key, value) := kv[0];
    var d1 := d[SURFACE := d[SURFACE][key := value]];
    var merged := d[SURFACE] + AsDict(kv);
    assert d1[SURFACE] + AsDict(kv[1..]) == merged by {
      MergeAfterUpdate(d[SURFACE], key, value, AsDict(kv[1..]));
      assert AsDict(kv) == map[key := value] + AsDict(kv[1..]);
    }
    assert d1[SURFACE := merged] == d[SURFACE := merged];
  }

  /** One pair from an Arduino lands, unramped, in the surface partition. */
  lemma ArduinoWriteOne(d: Partitions, index: Value, key: string, value: Value)
    requires WellFormed(d) && index != SURFACE
    ensures WriteOne(d, index, key, value) == Success(d[SURFACE := d[SURFACE][key := value]])
  {
  }

  /** An Arduino write copies every pair, unramped, into the surface partition (a later pair
      for the same key wins) and leaves every Arduino partition, the sender's included, as it
      was; it never fails. */
  lemma {:induction false} ArduinoWriteMirrors(d: Partitions, index: Value, kv: seq<(string, Value)>)
    requires WellFormed(d) && index != SURFACE
    ensures WriteAll(d, index, kv) == (d[SURFACE := d[SURFACE] + AsDict(kv)], None)
    decreases |kv|
  {
    if kv == [] {
      assert d[SURFACE] + map[] == d[SURFACE];
      assert d[SURFACE := d[SURFACE]] == d;
    } else {
      var (key, value) := kv[0];
      var d1 := d[SURFACE := d[SURFACE][key := value]];
      ArduinoWriteOne(d, index, key, value);
      assert WriteAll(d, index, kv) == WriteAll(d1, index, kv[1..]);
      ArduinoWriteMirrors(d1, index, kv[1..]);
      SurfaceMergeStep(d, kv);
    }
  }



  // The fail-safe reset

  /** `r` is `d` with each of keys[i..] at THRUSTER_IDLE in its owner's partition and every
      other entry as it was. */
  ghost predicate KeysReset(d: Partitions, r: Partitions, keys: seq<string>, owner: map<string, Value>, i: nat)
    requires i <= |keys|
  {
    forall ix, k :: ix in d ==>
      if k in keys[i..] && k in owner && owner[k] == ix then ix in r && k in r[ix] && r[ix][k] == Num(THRUSTER_IDLE)
      else ix in r && Agree(d[ix], r[ix], k)
  }

  /** Resetting keys[i..] puts each of them at THRUSTER_IDLE in its owner's partition and
      leaves every other entry as it was. */
  lemma {:induction false} ResetKeysEffect(d: Partitions, keys: seq<string>, owner: map<string, Value>, i: nat)
    requires i <= |keys| && Owned(d, keys, owner)
    ensures KeysReset(d, ResetKeys(d, keys, owner, i), keys, owner, i)
    decreases |keys| - i
  {
    if i < |keys| {
      var o := owner[keys[i]];
      var d1 := d[o := d[o][keys[i] := Num(THRUSTER_IDLE)]];
      ResetKeysEffect(d1, keys, owner, i + 1);
      ResetKeysStep(d, d1, ResetKeys(d1, keys, owner, i + 1), keys, owner, i);
    }
  }

  lemma ResetKeysStep(d: Partitions, d1: Partitions, r: Partitions, keys: seq<string>, owner: map<string, Value>, i: nat)
    requires i < |keys| && keys[i] in owner && owner[keys[i]] in d
    requires d1 == d[owner[keys[i]] := d[owner[keys[i]]][keys[i] := Num(THRUSTER_IDLE)]]
    requires KeysReset(d1, r, keys, owner, i + 1)
    ensures KeysReset(d, r, keys, owner, i)
  {
    assert keys[i..] == [keys[i]] + keys[i + 1..];
    forall ix, k | ix in d
      ensures if k in keys[i..] && k in owner && owner[k] == ix then ix in r && k in r[ix] && r[ix][k] == Num(THRUSTER_IDLE)
        else ix in r && Agree(d[ix], r[ix], k)
    {
      assert ix in d1;
      assert k in keys[i..] <==> k == keys[i] || k in keys[i + 1..];
    }
  }

  /** What a reset of all of `keys` means entry by entry, for a partition `surface` that owns
      none of them. */
  lemma ResetKeysMeaning(d: Partitions, keys: seq<string>, owner: map<string, Value>, surface: Value)
    requires Owned(d, keys, owner) && surface in d
    requires forall j :: 0 <= j < |keys| ==> owner[keys[j]] != surface
    ensures var r := ResetKeys(d, keys, owner, 0);
      r.Keys == d.Keys && r[surface] == d[surface] && Resets(d, r, keys, owner)
  {
    var r := ResetKeys(d, keys, owner, 0);
    ResetKeysEffect(d, keys, owner, 0);
    assert keys[0..] == keys;
    KeysResetResets(d, r, keys, owner);
    SurfaceUntouched(d, r, keys, owner, surface);
  }

  lemma KeysResetResets(d: Partitions, r: Partitions, keys: seq<string>, owner: map<string, Value>)
    requires Owned(d, keys, owner) && r.Keys == d.Keys
    requires KeysReset(d, r, keys, owner, 0) && keys[0..] == keys
    ensures Resets(d, r, keys, owner)
  {
    forall j | 0 <= j < |keys|
      ensures keys[j] in r[owner[keys[j]]] && r[owner[keys[j]]][keys[j]] == Num(THRUSTER_IDLE)
    {
      assert keys[j] in keys[0..];
    }
  }

  lemma SurfaceUntouched(d: Partitions, r: Partitions, keys: seq<string>, owner: map<string, Value>, surface: Value)
    requires Owned(d, keys, owner) && r.Keys == d.Keys && surface in d
    requires forall j :: 0 <= j < |keys| ==> owner[keys[j]] != surface
    requires Resets(d, r, keys, owner)
    ensures r[surface] == d[surface]
  {
    forall k | k in r[surface] || k in d[surface] ensures Agree(d[surface], r[surface], k) {
      assert !(k in keys && k in owner && owner[k] == surface);
    }
  }

  /** `r` has each of `keys` at THRUSTER_IDLE in its owner's partition and every entry that
      is not such a key, in a partition of `d`, as `d` has it. */
  ghost predicate Resets(d: Partitions, r: Partitions, keys: seq<string>, owner: map<string, Value>) {
    (forall j :: 0 <= j < |keys| ==>
      keys[j] in owner && owner[keys[j]] in r && keys[j] in r[owner[keys[j]]] &&
      r[owner[keys[j]]][keys[j]] == Num(THRUSTER_IDLE)) &&
    (forall ix, k :: ix in d && !(k in keys && k in owner && owner[k] == ix) ==> ix in r && Agree(d[ix], r[ix], k))
  }

  /** `r` is `d` with all twelve DEFAULT keys at THRUSTER_IDLE in their owning Arduino
      partitions and every other entry, the surface partition included, as it was. */
  ghost predicate IsReset(d: Partitions, r: Partitions)
    requires WellFormed(d)
  {
    r.Keys == d.Keys && r[SURFACE] == d[SURFACE] && Resets(d, r, DEFAULT_KEYS, KEYS_LOOKUP)
  }

  /** `set(..., default=True)` puts all twelve DEFAULT keys at THRUSTER_IDLE in their owning
      Arduino partitions and leaves every other entry, and the surface partition, as it was. */
  lemma ResetDefaultsEffect(d: Partitions)
    requires WellFormed(d)
    ensures IsReset(d, ResetDefaults(d))
  {
    DefaultKeysOwned();
    DefaultsOwned(d);
    ResetKeysMeaning(d, DEFAULT_KEYS, KEYS_LOOKUP, SURFACE);
  }

  /** A reset of a reset changes nothing. */
  lemma ResetOfResetIsSame(d: Partitions, r: Partitions, r2: Partitions)
    requires WellFormed(d) && WellFormed(r)
    requires IsReset(d, r) && IsReset(r, r2)
    ensures r2 == r
  {
    ResetsTwice(d, r, r2, DEFAULT_KEYS, KEYS_LOOKUP);
  }

  lemma ResetsTwice(d: Partitions, r: Partitions, r2: Partitions, keys: seq<string>, owner: map<string, Value>)
    requires r.Keys == d.Keys && r2.Keys == r.Keys
    requires Resets(d, r, keys, owner) && Resets(r, r2, keys, owner)
    ensures r2 == r
  {
    forall ix | ix in r ensures r2[ix] == r[ix] {
      forall k ensures (k in r[ix] <==> k in r2[ix]) && (k in r[ix] ==> r[ix][k] == r2[ix][k]) {
        if k in keys && k in owner && owner[k] == ix {
          var j :| 0 <= j < |keys| && keys[j] == k;
        } else {
          assert Agree(r[ix], r2[ix], k);
        }
      }
    }
  }

  /** Every DEFAULT key is stored at THRUSTER_IDLE in its owning partition. */
  ghost predicate DefaultsIdle(d: Partitions) {
    forall i :: 0 <= i < |DEFAULT_KEYS| ==>
      DEFAULT_KEYS[i] in KEYS_LOOKUP && KEYS_LOOKUP[DEFAULT_KEYS[i]] in d &&
      DEFAULT_KEYS[i] in d[KEYS_LOOKUP[DEFAULT_KEYS[i]]] &&
      d[KEYS_LOOKUP[DEFAULT_KEYS[i]]][DEFAULT_KEYS[i]] == Num(THRUSTER_IDLE)
  }

  /** After the reset every actuator is idle. */
  lemma ResetDefaultsIdle(d: Partitions)
    requires WellFormed(d)
    ensures DefaultsIdle(ResetDefaults(d))
  {
    ResetDefaultsEffect(d);
    KeysLookupOwners();
  }

  /** Resetting twice is the same as resetting once. */
  lemma ResetDefaultsIdempotent(d: Partitions)
    requires WellFormed(d)
    ensures ResetDefaults(ResetDefaults(d)) == ResetDefaults(d)
  {
    ResetDefaultsEffect(d);
    ResetDefaultsEffect(ResetDefaults(d));
    ResetOfResetIsSame(d, ResetDefaults(d), ResetDefaults(ResetDefaults(d)));
  }
}
