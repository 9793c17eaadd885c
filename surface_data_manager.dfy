/** The surface station's store: a flat key/value cache written by the controller and by the
    Raspberry Pi's replies, read whole or in part, and filtered and current-limited (the
    "safeguard") before it is sent to the Pi. */
module SurfaceDataManager {
  import opened Common

  /** `self._transmission_keys`: the actuator and sonar keys networked to the Pi. */
  const TRANSMISSION_KEYS: set<string> :=
    {"Thr_FP", "Thr_FS", "Thr_AP", "Thr_AS", "Thr_TFP", "Thr_TFS", "Thr_TAP", "Thr_TAS", "Thr_M", "Mot_R",
     "Mot_G", "Mot_F", "Sen_Sonar_Start", "Sen_Sonar_Len"}

  /** `self._SAFEGUARD_KEYS`, in a fixed order: the summed current and the per-key
      replacements do not depend on the order in which the keys are visited. */
  const SAFEGUARD_KEYS: seq<string> :=
    ["Thr_FP", "Thr_FS", "Thr_AP", "Thr_AS", "Thr_TFP", "Thr_TFS", "Thr_TAP", "Thr_TAS", "Thr_M",
     "Mot_F", "Mot_G", "Mot_R"]

  /** `self._AMP_LIMIT` */
  const AMP_LIMIT: real := 99.0

  /** The one member of `self._IDLE_VALUES`. */
  const IDLE_VALUE: real := 1500.0

  type Store = map<string, Value>

  /** The `data` dictionary of `_safeguard_transmission_data`: the stored transmission keys,
      restricted to the requested ones when any are given. */
  function Selected(store: Store, args: seq<string>): (r: Store)
    ensures forall k :: k in r ==> k in TRANSMISSION_KEYS && k in store && r[k] == store[k]
    ensures args == [] ==> r.Keys == TRANSMISSION_KEYS * store.Keys
    ensures args != [] ==> forall k :: k in r <==> k in args && k in TRANSMISSION_KEYS && k in store
  {
    if args == [] then map k | k in TRANSMISSION_KEYS && k in store :: store[k]
    else map k | k in args && k in TRANSMISSION_KEYS && k in store :: store[k]
  }

  /** No name occurs twice. */
  predicate Distinct(keys: seq<string>) {
    forall i, j :: 0 <= i < j < |keys| ==> keys[i] != keys[j]
  }

  /** Every key of `keys` present in `data` holds a number. */
  predicate AllNumeric(keys: seq<string>, data: Store) {
    forall k :: k in keys && k in data ==> data[k].Num?
  }

  /** The modelled current of the keys among keys[..n] present in `data`, summed. */
  function CurrentUpTo(keys: seq<string>, data: Store, amp: real -> real, n: nat): real
    requires AllNumeric(keys, data) && n <= |keys|
  {
    if n == 0 then 0.0
    else CurrentUpTo(keys, data, amp, n - 1) + if keys[n - 1] in data then CurrentOf(amp, data[keys[n - 1]].x) else 0.0
  }

  /** Whichever of the two roots is closer to `x`, the first on a tie. */
  function Closer(x: real, roots: (real, real)): (r: real)
    ensures r == roots.0 || r == roots.1
    ensures Abs(x - r) <= Abs(x - roots.0) && Abs(x - r) <= Abs(x - roots.1)
    ensures Abs(x - roots.0) == Abs(x - roots.1) ==> r == roots.0
  {
    if Abs(x - roots.0) <= Abs(x - roots.1) then roots.0 else roots.1
  }

  /** The modelled current drawn at value `x`. */
  function CurrentOf(amp: real -> real, x: real): real {
    amp(x)
  }

  /** The two values whose modelled current is `v`, if the square root is defined. */
  function RootsOf(roots: real -> Option<(real, real)>, v: real): Option<(real, real)> {
    roots(v)
  }

  /** The factor that brings a total current `current` down to AMP_LIMIT. */
  function Ratio(current: real): real
    requires current > AMP_LIMIT
  {
    AMP_LIMIT / current
  }

  /** The current `current` scaled by `ratio`. */
  function Share(current: real, ratio: real): real {
    current * ratio
  }

  /** The roots for a value whose current is scaled by `ratio`. */
  function ScaledRoots(amp: real -> real, roots: real -> Option<(real, real)>, x: real, ratio: real): Option<(real, real)> {
    RootsOf(roots, Share(CurrentOf(amp, x), ratio))
  }

  /** The safeguard's replacement for a value: idle values are kept, any other number becomes
      the closer of its roots. */
  function Scaled(v: Value, rs: (real, real)): Value
    requires v.Num?
  {
    if v == Num(IDLE_VALUE) then v else Num(Closer(v.x, rs))
  }

  /** `_safeguard_transmission_data` applied to already selected `data`, with the safeguarded
      keys `keys`: when the summed current of those keys exceeds AMP_LIMIT, every non-idle
      safeguarded value is replaced by the closer root of its current scaled by
      AMP_LIMIT / current. A non-number under a safeguarded key raises TypeError (Python
      arithmetic on it); a root solve outside the square root's domain raises ValueError,
      idle keys included, since the roots are solved before the idle test. */
  function GuardOver(keys: seq<string>, data: Store, amp: real -> real, roots: real -> Option<(real, real)>): Result<Store, Fault> {
    if !AllNumeric(keys, data) then Failure(TypeError)
    else
      var current := CurrentUpTo(keys, data, amp, |keys|);
      if current <= AMP_LIMIT then Success(data)
      else
        var ratio := Ratio(current);
        if exists k :: k in keys && k in data && ScaledRoots(amp, roots, data[k].x, ratio).None? then
          Failure(ValueError)
        else
          Success(map k | k in data ::
            if k in keys then Scaled(data[k], ScaledRoots(amp, roots, data[k].x, ratio).value) else data[k])
  }

  /** The result of `get(*args, transmit=True)`. */
  function Safeguard(store: Store, args: seq<string>, amp: real -> real, roots: real -> Option<(real, real)>): Result<Store, Fault> {
    GuardOver(SAFEGUARD_KEYS, Selected(store, args), amp, roots)
  }


  /** The currents of the keys of `keys` present in `data` (the `amps` dictionary); TypeError
      when one of them is not a number. */
  method Currents(keys: seq<string>, data: Store, amp: real -> real) returns (r: Result<map<string, real>, Fault>)
    ensures r.Failure? <==> !AllNumeric(keys, data)
    ensures r.Failure? ==> r.error == TypeError
    ensures r.Success? ==>
      (forall k :: k in r.value <==> k in keys && k in data) &&
      (forall k :: k in r.value ==> r.value[k] == CurrentOf(amp, data[k].x))
  {
    var amps: map<string, real> := map[];
    var i := 0;
    while i < |keys|
      invariant 0 <= i <= |keys|
      invariant forall k :: k in amps <==> k in keys[..i] && k in data
      invariant AllNumeric(keys[..i], data)
      invariant forall k :: k in amps ==> amps[k] == CurrentOf(amp, data[k].x)
    {
      var key := keys[i];
      if key in data {
        if !data[key].Num? {
          return Failure(TypeError);
        }
        amps := amps[key := CurrentOf(amp, data[key].x)];
      }
      i := i + 1;
    }
    assert keys[..i] == keys;
    r := Success(amps);
  }

  /** `sum(amps.values())` */
  method TotalCurrent(keys: seq<string>, data: Store, amp: real -> real, amps: map<string, real>) returns (current: real)
    requires AllNumeric(keys, data)
    requires forall k :: k in amps <==> k in keys && k in data
    requires forall k :: k in amps ==> amps[k] == CurrentOf(amp, data[k].x)
    ensures current == CurrentUpTo(keys, data, amp, |keys|)
  {
    current := 0.0;
    var i := 0;
    while i < |keys|
      invariant 0 <= i <= |keys|
      invariant current == CurrentUpTo(keys, data, amp, i)
    {
      if keys[i] in amps {
        current := current + amps[keys[i]];
      }
      i := i + 1;
    }
  }

  /** The scaling loop over the `safeguard_data` dictionary `guarded`: for each key, the roots
      are solved first (ValueError outside the square root's domain), then a non-idle value is
      replaced by the closer root. */
  method ScaleAll(keys: seq<string>, guarded: Store, amp: real -> real, roots: real -> Option<(real, real)>,
                  amps: map<string, real>, ratio: real)
    returns (r: Result<Store, Fault>)
    requires Distinct(keys) && AllNumeric(keys, guarded)
    requires forall k :: k in guarded ==> k in keys
    requires forall k :: k in amps <==> k in guarded
    requires forall k :: k in amps ==> amps[k] == CurrentOf(amp, guarded[k].x)
    ensures r.Failure? <==> exists k :: k in guarded && ScaledRoots(amp, roots, guarded[k].x, ratio).None?
    ensures r.Failure? ==> r.error == ValueError
    ensures r.Success? ==>
      r.value.Keys == guarded.Keys &&
      forall k :: k in guarded ==> r.value[k] == Scaled(guarded[k], ScaledRoots(amp, roots, guarded[k].x, ratio).value)
  {
    var scaled := guarded;
    var i := 0;
    while i < |keys|
      invariant 0 <= i <= |keys|
      invariant scaled.Keys == guarded.Keys
      invariant ScaledBefore(keys, guarded, scaled, amp, roots, ratio, i)
      invariant forall j :: i <= j < |keys| && keys[j] in guarded ==> scaled[keys[j]] == guarded[keys[j]]
    {
      var key := keys[i];
      if key in scaled {
        assert key in guarded && key in amps;
        var values := RootsOf(roots, Share(amps[key], ratio));
        assert values == ScaledRoots(amp, roots, guarded[key].x, ratio);
        if values.None? {
          return Failure(ValueError);
        }
        ScaledBeforeStep(keys, guarded, scaled, amp, roots, ratio, i);
        if scaled[key] != Num(IDLE_VALUE) {
          scaled := scaled[key := Num(Closer(scaled[key].x, values.value))];
        }
      }
      i := i + 1;
    }
    ScaledBeforeAll(keys, guarded, scaled, amp, roots, ratio);
    r := Success(scaled);
  }

  /** The keys among keys[..i] present in `guarded` have roots and hold their scaled values. */
  ghost predicate ScaledBefore(keys: seq<string>, guarded: Store, scaled: Store, amp: real -> real,
                               roots: real -> Option<(real, real)>, ratio: real, i: int)
    requires AllNumeric(keys, guarded) && 0 <= i <= |keys|
  {
    forall j :: 0 <= j < i && keys[j] in guarded ==>
      ScaledRoots(amp, roots, guarded[keys[j]].x, ratio).Some? && keys[j] in scaled &&
      scaled[keys[j]] == Scaled(guarded[keys[j]], ScaledRoots(amp, roots, guarded[keys[j]].x, ratio).value)
  }

  /** Scaling key `keys[i]`, if it is guarded and has roots, extends ScaledBefore by one. */
  lemma ScaledBeforeStep(keys: seq<string>, guarded: Store, scaled: Store, amp: real -> real,
                         roots: real -> Option<(real, real)>, ratio: real, i: int)
    requires Distinct(keys) && AllNumeric(keys, guarded) && 0 <= i < |keys|
    requires ScaledBefore(keys, guarded, scaled, amp, roots, ratio, i)
    requires keys[i] in guarded && keys[i] in scaled && scaled[keys[i]] == guarded[keys[i]]
    requires ScaledRoots(amp, roots, guarded[keys[i]].x, ratio).Some?
    ensures var rs := ScaledRoots(amp, roots, guarded[keys[i]].x, ratio).value;
      ScaledBefore(keys, guarded, scaled[keys[i] := Scaled(scaled[keys[i]], rs)], amp, roots, ratio, i + 1)
  {
  }

  /** Once every key has been visited, every guarded key holds its scaled value. */
  lemma ScaledBeforeAll(keys: seq<string>, guarded: Store, scaled: Store, amp: real -> real,
                        roots: real -> Option<(real, real)>, ratio: real)
    requires AllNumeric(keys, guarded) && forall k :: k in guarded ==> k in keys
    requires ScaledBefore(keys, guarded, scaled, amp, roots, ratio, |keys|)
    ensures forall k :: k in guarded ==>
      (ScaledRoots(amp, roots, guarded[k].x, ratio).Some? && k in scaled &&
       scaled[k] == Scaled(guarded[k], ScaledRoots(amp, roots, guarded[k].x, ratio).value))
  {
    forall k | k in guarded
      ensures ScaledRoots(amp, roots, guarded[k].x, ratio).Some? && k in scaled
      ensures scaled[k] == Scaled(guarded[k], ScaledRoots(amp, roots, guarded[k].x, ratio).value)
    {
      var j :| 0 <= j < |keys| && keys[j] == k;
    }
  }

  /** Writing the scaled copy of the safeguarded keys back over the selected data. */
  lemma MergeScaled(keys: seq<string>, data: Store, scaled: Store, amp: real -> real,
                    roots: real -> Option<(real, real)>, ratio: real)
    requires AllNumeric(keys, data)
    requires forall k :: k in scaled <==> k in keys && k in data
    requires forall k :: k in scaled ==>
      (ScaledRoots(amp, roots, data[k].x, ratio).Some? &&
       scaled[k] == Scaled(data[k], ScaledRoots(amp, roots, data[k].x, ratio).value))
    ensures forall k :: k in keys && k in data ==> ScaledRoots(amp, roots, data[k].x, ratio).Some?
    ensures data + scaled == map k | k in data ::
      if k in keys then Scaled(data[k], ScaledRoots(amp, roots, data[k].x, ratio).value) else data[k]
  {
  }

  /** `_safeguard_transmission_data` after its selection step: it works on copies and returns
      the selected data with the safeguarded values replaced. */
  method SafeguardSelected(keys: seq<string>, data: Store, amp: real -> real, roots: real -> Option<(real, real)>)
    returns (r: Result<Store, Fault>)
    requires Distinct(keys)
    ensures r == GuardOver(keys, data, amp, roots)
  {
    var guarded := map k | k in keys && k in data :: data[k];
    var amps := Currents(keys, guarded, amp);
    assert AllNumeric(keys, guarded) <==> AllNumeric(keys, data);
    if amps.Failure? {
      return Failure(amps.error);
    }
    var current := TotalCurrent(keys, data, amp, amps.value);
    if current > AMP_LIMIT {
      var ratio := Ratio(current);
      var scaled := ScaleAll(keys, guarded, amp, roots, amps.value, ratio);
      if scaled.Failure? {
        return Failure(scaled.error);
      }
      MergeScaled(keys, data, scaled.value, amp, roots, ratio);
      guarded := scaled.value;
    } else {
      assert data + guarded == data;
    }
    r := Success(data + guarded);
  }

  class DataManager {
    var data: Store

    /** The current model of `_init_safeguards` (`a·x² + b·x + c`), kept abstract. */
    const amp: real -> real

    /** The scaling function of `_init_safeguards`: the two roots of `amp(x) = v`, or None
        when `sqrt` would raise ValueError on a negative discriminant. */
    const roots: real -> Option<(real, real)>

    /** `__init__`: the disk cache opens on whatever it held before. */
    constructor (persisted: Store, amp: real -> real, roots: real -> Option<(real, real)>)
      ensures data == persisted && this.amp == amp && this.roots == roots
    {
      data := persisted;
      this.amp := amp;
      this.roots := roots;
    }

    /** `get(*args)` without `transmit`: the requested keys that are stored, or the whole
        store when no key is requested. */
    function Get(args: seq<string>): (r: Store)
      reads this
      ensures args == [] ==> r == data
      ensures args != [] ==> forall k :: (k in r <==> k in args && k in data) && (k in r ==> r[k] == data[k])
    {
      if args == [] then map k | k in data :: data[k]
      else map k | k in args && k in data :: data[k]
    }

    /** `set(**kwargs)`: each pair overwrites its key, without ramping. */
    method Set(kwargs: seq<(string, Value)>)
      modifies this
      ensures data == old(data) + AsDict(kwargs)
    {
      var i := 0;
      while i < |kwargs|
        invariant 0 <= i <= |kwargs|
        invariant data == old(data) + AsDict(kwargs[..i])
      {
        var (key, value) := kwargs[i];
        assert kwargs[..i + 1] == kwargs[..i] + [(key, value)];
        AsDictSnoc(kwargs[..i], key, value);
        MergeThenUpdate(old(data), AsDict(kwargs[..i]), key, value);
        data := data[key := value];
        i := i + 1;
      }
      assert kwargs[..i] == kwargs;
    }

    /** `clear()` */
    method Clear()
      modifies this
      ensures data == map[]
    {
      data := map[];
    }

    /** `get(*args, transmit=True)`: the stored transmission keys (only the requested ones
        when any are given), safeguarded; having no `modifies` clause, it cannot change the
        store. */
    method GetTransmit(args: seq<string>) returns (r: Result<Store, Fault>)
      ensures r == Safeguard(data, args, amp, roots)
    {
      var selected := Selected(data, args);
      assert Distinct(SAFEGUARD_KEYS);
      r := SafeguardSelected(SAFEGUARD_KEYS, selected, amp, roots);
    }
  }

  // What the transmit filter promises

  /** The transmit result holds exactly the selected keys: stored transmission keys, and only
      requested ones when any are given. */
  lemma SafeguardSelection(store: Store, args: seq<string>, amp: real -> real, roots: real -> Option<(real, real)>)
    ensures var r := Safeguard(store, args, amp, roots);
      r.Success? ==>
        r.value.Keys == Selected(store, args).Keys &&
        (forall k :: k in r.value ==> k in TRANSMISSION_KEYS && k in store) &&
        (args != [] ==> forall k :: k in r.value ==> k in args)
  {
  }

  /** At or under the current limit the transmit result is the selected data, unchanged. */
  lemma SafeguardUnderLimit(store: Store, args: seq<string>, amp: real -> real, roots: real -> Option<(real, real)>)
    requires AllNumeric(SAFEGUARD_KEYS, Selected(store, args))
    requires CurrentUpTo(SAFEGUARD_KEYS, Selected(store, args), amp, |SAFEGUARD_KEYS|) <= AMP_LIMIT
    ensures var r := Safeguard(store, args, amp, roots);
      r.Success? && forall k :: k in r.value ==> r.value[k] == store[k]
  {
  }

  /** Idle values and keys outside the safeguarded set, the sonar keys among them, reach the
      Pi exactly as stored. */
  lemma SafeguardKeepsIdleAndUnguarded(store: Store, args: seq<string>, amp: real -> real, roots: real -> Option<(real, real)>)
    ensures var r := Safeguard(store, args, amp, roots);
      r.Success? ==>
        (forall k :: k in r.value && (k !in SAFEGUARD_KEYS || store[k] == Num(IDLE_VALUE)) ==> r.value[k] == store[k]) &&
        ("Sen_Sonar_Start" in r.value ==> r.value["Sen_Sonar_Start"] == store["Sen_Sonar_Start"]) &&
        ("Sen_Sonar_Len" in r.value ==> r.value["Sen_Sonar_Len"] == store["Sen_Sonar_Len"])
  {
    var r := Safeguard(store, args, amp, roots);
    assert "Sen_Sonar_Start" !in SAFEGUARD_KEYS && "Sen_Sonar_Len" !in SAFEGUARD_KEYS;
  }

  /** Over the limit, each non-idle safeguarded value of the selected data becomes one of the
      two roots for its current scaled by AMP_LIMIT / current: the one closer to it, the first
      on a tie. (`Safeguard` is this filter with the twelve SAFEGUARD_KEYS.) */
  lemma GuardCloserRoot(keys: seq<string>, data: Store, amp: real -> real, roots: real -> Option<(real, real)>, k: string)
    requires AllNumeric(keys, data)
    requires CurrentUpTo(keys, data, amp, |keys|) > AMP_LIMIT
    requires GuardOver(keys, data, amp, roots).Success?
    requires k in data && k in keys && data[k] != Num(IDLE_VALUE)
    ensures var current := CurrentUpTo(keys, data, amp, |keys|);
      var rs := ScaledRoots(amp, roots, data[k].x, Ratio(current));
      var r := GuardOver(keys, data, amp, roots).value;
      rs.Some? && k in r && r[k].Num? &&
      (r[k].x == rs.value.0 || r[k].x == rs.value.1) &&
      Abs(data[k].x - r[k].x) <= Abs(data[k].x - rs.value.0) &&
      Abs(data[k].x - r[k].x) <= Abs(data[k].x - rs.value.1) &&
      (Abs(data[k].x - rs.value.0) == Abs(data[k].x - rs.value.1) ==> r[k].x == rs.value.0)
  {
  }

  /** The transmit filter fails with TypeError exactly when a selected safeguarded key holds a
      non-number, and with ValueError exactly when, over the limit, some selected safeguarded
      key has no real roots; it fails in no other way. */
  lemma SafeguardFaults(store: Store, args: seq<string>, amp: real -> real, roots: real -> Option<(real, real)>)
    ensures var data := Selected(store, args);
      var r := Safeguard(store, args, amp, roots);
      (r == Failure(TypeError) <==> !AllNumeric(SAFEGUARD_KEYS, data)) &&
      (r == Failure(ValueError) <==>
        AllNumeric(SAFEGUARD_KEYS, data) &&
        CurrentUpTo(SAFEGUARD_KEYS, data, amp, |SAFEGUARD_KEYS|) > AMP_LIMIT &&
        exists k :: k in SAFEGUARD_KEYS && k in data &&
          ScaledRoots(amp, roots, data[k].x, Ratio(CurrentUpTo(SAFEGUARD_KEYS, data, amp, |SAFEGUARD_KEYS|))).None?) &&
      (r.Failure? ==> r.error == TypeError || r.error == ValueError)
  {
  }
}
