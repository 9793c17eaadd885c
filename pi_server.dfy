/** The Raspberry Pi's links: the TCP server that exchanges JSON with the surface station, and
    the serial links to the three Arduinos. Each exchange cycle is a step from an abstract I/O
    outcome to an update of the shared partitioned store and a verdict; the surrounding loops
    are driven by a sequence of such outcomes. */
module PiServer {
  import opened Common
  import opened PiDataManager

  /** One surface cycle: what `recv` gave, and how the `sendall` of the reply went. */
  datatype SurfaceCycle = SurfaceCycle(received: Received, reply: SendOutcome)

  /** `Server._handle_data`: the partitions afterwards, the verdict and the reply sent. A
      zero-byte read, a reset, an abort or a timeout tear the link down; any other socket
      error escapes the handler; an undecodable, blank or invalid message leaves the store
      alone but is still answered; an object is applied as `set(SURFACE, **obj)`; anything
      else fails `**` with TypeError. The reply is `get(SURFACE)` on the updated store. */
  function SurfaceExchange(d: Partitions, c: SurfaceCycle): (r: (Partitions, Verdict, Option<map<string, Value>>))
    requires WellFormed(d)
    ensures WellFormed(r.0)
  {
    match c.received
    case ZeroBytes => (d, TearDown, None)
    case ConnectionLost => (d, TearDown, None)
    case SocketFailed => (d, Crash(OSError), None)
    case Message(p) =>
      var (d', fault) :=
        match p
        case Object(kv) => SetCall(d, SURFACE, kv)
        case NonObject(_) => (d, Some(TypeError))
        case _ => (d, None);
      if fault.Some? then (d', Crash(fault.value), None)
      else (d', SendVerdict(c.reply), Some(Get(d', SURFACE, []).value))
  }

  /** `_listen_high_level` over a sequence of cycles: a waiting server accepts, exchanges
      until the link is torn down, then `_on_surface_disconnected` resets the defaults and the
      server waits again. Yields the partitions, whether a client is connected, and the
      exception that ended the thread, if any. */
  function Session(d: Partitions, connected: bool, cycles: seq<SurfaceCycle>): (Partitions, bool, Option<Fault>)
    requires WellFormed(d)
    decreases |cycles|
  {
    if cycles == [] then (d, connected, None)
    else
      var (d1, v, _) := SurfaceExchange(d, cycles[0]);
      match v
      case Crash(f) => (d1, true, Some(f))
      case TearDown => Session(ResetDefaults(d1), false, cycles[1..])
      case Continue => Session(d1, true, cycles[1..])
  }

  /** The tty ports of the three Arduinos. */
  const SERIAL_PORTS: seq<string> := ["/dev/ttyACM0", "/dev/ttyACM1", "/dev/ttyACM2"]

  /** `arduino_ids` of `_init_low_level`. */
  const ARDUINO_IDS: seq<Value> := [ARDUINO_I, ARDUINO_T, ARDUINO_M]

  /** `_init_low_level`: the i-th port is paired with the i-th Arduino identifier; a fourth
      port indexes past `arduino_ids` and raises IndexError. */
  function PortIds(ports: seq<string>): (r: Result<seq<(string, Value)>, Fault>)
    ensures r.Success? <==> |ports| <= |ARDUINO_IDS|
    ensures r.Success? ==> |r.value| == |ports|
    ensures r.Success? ==> forall i :: 0 <= i < |ports| ==> r.value[i] == (ports[i], ARDUINO_IDS[i])
  {
    if |ports| > |ARDUINO_IDS| then Failure(IndexError)
    else Success(seq(|ports|, i requires 0 <= i < |ports| => (ports[i], ARDUINO_IDS[i])))
  }

  /** What `read_until` gave on a serial port. */
  datatype LineRead = ReadFailed | Line(payload: Payload)   // ReadFailed: SerialException

  /** One pass of the inner loop of `Arduino._listen`: whether `open` succeeds (used only when
      the port is closed), whether the `write` goes through, and what is read. */
  datatype SerialEvent = SerialEvent(opens: bool, written: bool, read: LineRead)

  /** `Arduino._handle_data` with identifier `id`: the partitions, the identifier afterwards,
      the verdict, and what `_handle_data` tried to write (also when the write raised). `get(id)` is written first (KeyError for an unknown
      identifier ends the thread); a SerialException on write or read tears the port down;
      a non-empty object takes its `deviceID` as the new identifier and is applied as
      `set(id, **obj)` (a pair named "self" or "index" raises TypeError). Invalid JSON, a missing `deviceID` and a KeyError inside `set` raise
      DataError, which the loop swallows. */
  function ArduinoExchange(d: Partitions, id: Value, written: bool, read: LineRead)
    : (r: (Partitions, Value, Verdict, Option<map<string, Value>>))
    requires WellFormed(d)
    ensures WellFormed(r.0)
  {
    match Get(d, id, [])
    case Failure(e) => (d, id, Crash(e), None)
    case Success(out) =>
      if !written then (d, id, TearDown, Some(out))
      else
        match read
        case ReadFailed => (d, id, TearDown, Some(out))
        case Line(p) =>
          match p
          case NonObject(truthy) =>
            // indexing a list, number or string with "deviceID" raises TypeError
            (d, id, if truthy then Crash(TypeError) else Continue, Some(out))
          case Object(kv) =>
            if kv == [] then (d, id, Continue, Some(out))
            else if "deviceID" !in AsDict(kv) then (d, id, Continue, Some(out))
            else
              var id' := AsDict(kv)["deviceID"];
              var (d', fault) := SetCall(d, id', kv);
              (d', id', if fault == Some(TypeError) then Crash(TypeError) else Continue, Some(out))
          case _ => (d, id, Continue, Some(out))
  }

  /** One pass of the inner loop of `_listen` on a port that is `open` or not: a closed port
      that fails to open stays closed (the loop sleeps and retries); otherwise one exchange,
      and a SerialException closes the port. Yields the partitions, the identifier, whether
      the port is open, and the verdict. */
  function LinkStep(d: Partitions, id: Value, open: bool, ev: SerialEvent): (r: (Partitions, Value, bool, Verdict))
    requires WellFormed(d)
    ensures WellFormed(r.0)
  {
    if !open && !ev.opens then (d, id, false, Continue)
    else
      var (d', id', v, _) := ArduinoExchange(d, id, ev.written, ev.read);
      (d', id', v != TearDown, v)
  }

  /** `_listen` over a sequence of events, until an uncaught exception ends the thread. */
  function LinkRun(d: Partitions, id: Value, open: bool, events: seq<SerialEvent>): (Partitions, Value, bool, Option<Fault>)
    requires WellFormed(d)
    decreases |events|
  {
    if events == [] then (d, id, open, None)
    else
      var (d', id', open', v) := LinkStep(d, id, open, events[0]);
      if v.Crash? then (d', id', open', Some(v.fault))
      else LinkRun(d', id', open', events[1..])
  }

  // Properties of the surface exchange

  /** Whatever the surface sent, the reply is the surface partition restricted to its
      transmission keys: values from the Arduinos' partitions or keys outside SURFACE_KEYS
      (such as "deviceID") never reach the surface. */
  lemma SurfaceReplyIsTransmissionView(d: Partitions, c: SurfaceCycle)
    requires WellFormed(d)
    ensures var (d', _, reply) := SurfaceExchange(d, c);
      reply.Some? ==>
        reply.value.Keys == SURFACE_KEYS * d'[SURFACE].Keys &&
        forall k :: k in reply.value ==> reply.value[k] == d'[SURFACE][k]
  {
  }

  /** An undecodable, blank or invalid message leaves the store unchanged and is still
      answered; the link survives exactly when the reply goes through. */
  lemma SurfaceIgnoresBadPayload(d: Partitions, c: SurfaceCycle)
    requires WellFormed(d)
    requires c.received.Message? && !c.received.payload.Object? && !c.received.payload.NonObject?
    ensures var (d', v, reply) := SurfaceExchange(d, c);
      d' == d && reply == Some(Get(d, SURFACE, []).value) && v == SendVerdict(c.reply)
  {
  }

  /** A closed connection, a reset, an abort or a timeout tear the link down without
      touching the store or replying; any other socket error on `recv` ends the thread. */
  lemma SurfaceLossTearsDown(d: Partitions, c: SurfaceCycle)
    requires WellFormed(d) && !c.received.Message?
    ensures SurfaceExchange(d, c) ==
      (d, if c.received.SocketFailed? then Crash(OSError) else TearDown, None)
  {
  }

  /** An object of known actuator keys with numeric values, on numeric Arduino partitions,
      never makes the store raise; the pairs land only in the owning Arduinos' partitions. */
  lemma SurfaceWellBehavedNoCrash(d: Partitions, c: SurfaceCycle)
    requires WellFormed(d) && NumericArduinos(d)
    requires c.received.Message? && c.received.payload.Object? && c.reply != SendFailed
    requires var kv := c.received.payload.pairs;
      forall i :: 0 <= i < |kv| ==> kv[i].0 in KEYS_LOOKUP && kv[i].1.Num?
    ensures var (d', v, _) := SurfaceExchange(d, c);
      !v.Crash? && NumericArduinos(d') &&
      OwnersOnlyChanged(d, d', KeysOf(c.received.payload.pairs))
  {
    var kv := c.received.payload.pairs;
    ActuatorKeysBindPlainly(kv);
    SurfaceWriteNumeric(d, kv);
    SurfaceWriteFrame(d, kv);
    SurfaceObjectWrites(d, c);
  }

  /** Actuator names are none of the parameter names of `set`, so an object of them binds
      entirely to `kwargs`. */
  lemma ActuatorKeysBindPlainly(kv: seq<(string, Value)>)
    requires forall i :: 0 <= i < |kv| ==> kv[i].0 in KEYS_LOOKUP
    ensures Bind(kv) == Success(Binding(false, kv))
  {
    KeysLookupOwners();
    assert "self" !in KEYS_LOOKUP && "index" !in KEYS_LOOKUP && "default" !in KEYS_LOOKUP;
  }

  /** An object message changes the store as `set(SURFACE, **obj)` does, and ends the thread
      exactly when that call raises or the reply meets a socket error other than a reset, an
      abort or a timeout (SetCallWrites says what that call writes). */
  lemma SurfaceObjectWrites(d: Partitions, c: SurfaceCycle)
    requires WellFormed(d)
    requires c.received.Message? && c.received.payload.Object?
    ensures var w := SetCall(d, SURFACE, c.received.payload.pairs);
      SurfaceExchange(d, c).0 == w.0 &&
      (SurfaceExchange(d, c).1.Crash? <==> w.1.Some? || c.reply == SendFailed)
  {
    SurfaceObjectStep(d, c);
  }

  /** An object message is applied as `set(SURFACE, **obj)`; when that returns, the reply
      is sent. */
  lemma SurfaceObjectStep(d: Partitions, c: SurfaceCycle)
    requires WellFormed(d)
    requires c.received.Message? && c.received.payload.Object?
    ensures var w := SetCall(d, SURFACE, c.received.payload.pairs);
      SurfaceExchange(d, c) ==
        if w.1.Some? then (w.0, Crash(w.1.value), None)
        else (w.0, SendVerdict(c.reply), Some(Get(w.0, SURFACE, []).value))
  {
    var w := SetCall(d, SURFACE, c.received.payload.pairs);
    assert w == match c.received.payload
      case Object(kv) => SetCall(d, SURFACE, kv)
      case NonObject(_) => (d, Some(TypeError))
      case _ => (d, None);
  }

  /** How `**obj` binds on the surface link: a "self" or "index" pair ends the thread with
      TypeError before anything is written or answered; a truthy "default" resets every
      actuator to idle, writes none of the pairs, and is still answered. */
  lemma SurfaceKeywordBinding(d: Partitions, kv: seq<(string, Value)>, reply: SendOutcome)
    requires WellFormed(d)
    ensures var (d', v, out) := SurfaceExchange(d, SurfaceCycle(Message(Object(kv)), reply));
      ("self" in KeysOf(kv) || "index" in KeysOf(kv) ==> d' == d && v == Crash(TypeError) && out == None) &&
      ("self" !in KeysOf(kv) && "index" !in KeysOf(kv) && "default" in KeysOf(kv) &&
       Truthy(AsDict(kv)["default"]) ==>
        IsReset(d, d') && v == SendVerdict(reply) && out == Some(Get(d', SURFACE, []).value))
  {
    var c := SurfaceCycle(Message(Object(kv)), reply);
    match Bind(kv)
    case Failure(e) =>
      assert SetCall(d, SURFACE, kv) == (d, Some(TypeError));
    case Success(b) =>
      if b.default {
        ResetDefaultsEffect(d);
        assert SetCall(d, SURFACE, kv) == (ResetDefaults(d), None);
        assert SurfaceExchange(d, c) == (ResetDefaults(d), SendVerdict(reply), Some(Get(ResetDefaults(d), SURFACE, []).value));
      }
  }

  /** An object naming a key that no Arduino owns, other than "default", ends the server
      thread (a KeyError escapes `_handle_data`, after the pairs before it were applied)
      unless a truthy "default" turns the call into a reset. */
  lemma SurfaceUnknownKeyCrashes(d: Partitions, c: SurfaceCycle)
    requires WellFormed(d)
    requires c.received.Message? && c.received.payload.Object?
    requires var kv := c.received.payload.pairs;
      !("default" in KeysOf(kv) && Truthy(AsDict(kv)["default"])) &&
      exists i :: 0 <= i < |kv| && kv[i].0 !in KEYS_LOOKUP && kv[i].0 != "default"
    ensures SurfaceExchange(d, c).1.Crash?
  {
    var kv := c.received.payload.pairs;
    if "self" !in KeysOf(kv) && "index" !in KeysOf(kv) {
      var i :| 0 <= i < |kv| && kv[i].0 !in KEYS_LOOKUP && kv[i].0 != "default";
      var rest := Without(kv, "default");
      assert kv[i].0 in KeysOf(rest);
      SurfaceWriteFaults(d, rest);
    }
  }

  /** Whenever a session ends with no client, after at least one cycle, the last thing that
      happened was the reset: every actuator is at THRUSTER_IDLE. (A session that ends in an
      exception still has its client: see SessionSocketErrorSkipsReset.) */
  lemma {:induction false} SessionFailSafe(d: Partitions, connected: bool, cycles: seq<SurfaceCycle>)
    requires WellFormed(d) && cycles != []
    requires !Session(d, connected, cycles).1
    ensures DefaultsIdle(Session(d, connected, cycles).0)
    decreases |cycles|
  {
    var (d1, v, _) := SurfaceExchange(d, cycles[0]);
    match v
    case Crash(_) =>
    case TearDown =>
      if cycles[1..] == [] {
        ResetDefaultsIdle(d1);
      } else {
        SessionFailSafe(ResetDefaults(d1), false, cycles[1..]);
      }
    case Continue =>
      SessionFailSafe(d1, true, cycles[1..]);
  }

  /** A socket error other than a reset, an abort or a timeout escapes `_handle_data` and
      `_listen_high_level` alike: the thread ends with the client still counted as
      connected, `_on_surface_disconnected` never runs, and the store keeps whatever the
      cycle wrote, unreset. */
  lemma SessionSocketErrorSkipsReset(d: Partitions, connected: bool, c: SurfaceCycle, rest: seq<SurfaceCycle>)
    requires WellFormed(d)
    requires c.received.SocketFailed? || (c.received.Message? && c.reply == SendFailed)
    ensures var (d1, v, _) := SurfaceExchange(d, c);
      v.Crash? && Session(d, connected, [c] + rest) == (d1, true, Some(v.fault)) &&
      (c.received.SocketFailed? ==> d1 == d && v.fault == OSError)
  {
    assert ([c] + rest)[0] == c;
  }

  /** A message that sets a thruster whose reply then fails with, say, BrokenPipeError leaves
      that thruster running when the server thread dies: the fail-safe reset does not
      happen. */
  lemma SocketErrorLeavesThrusterRunning(d: Partitions, rest: seq<SurfaceCycle>)
    requires WellFormed(d) && "Thr_FP" !in d[ARDUINO_T]
    ensures var c := SurfaceCycle(Message(Object([("Thr_FP", Num(1600.0))])), SendFailed);
      var (d', connected, crash) := Session(d, true, [c] + rest);
      connected && crash == Some(OSError) && ARDUINO_T in d' && "Thr_FP" in d'[ARDUINO_T] &&
      d'[ARDUINO_T]["Thr_FP"] == Num(1600.0) && !DefaultsIdle(d')
  {
    var kv := [("Thr_FP", Num(1600.0))];
    var c := SurfaceCycle(Message(Object(kv)), SendFailed);
    var d1 := ThrusterWrite(d);
    SurfaceObjectStep(d, c);
    assert SurfaceExchange(d, c).0 == d1 && SurfaceExchange(d, c).1 == Crash(OSError);
    SessionSocketErrorSkipsReset(d, true, c, rest);
    assert d1[ARDUINO_T]["Thr_FP"] == Num(1600.0);
    assert !DefaultsIdle(d1) by {
      assert DEFAULT_KEYS[0] == "Thr_FP" && KEYS_LOOKUP["Thr_FP"] == ARDUINO_T;
    }
  }

  /** Setting an unstored Thr_FP to 1600 from the surface stores it verbatim. */
  lemma ThrusterWrite(d: Partitions) returns (d1: Partitions)
    requires WellFormed(d) && "Thr_FP" !in d[ARDUINO_T]
    ensures d1 == d[ARDUINO_T := d[ARDUINO_T]["Thr_FP" := Num(1600.0)]]
    ensures SetCall(d, SURFACE, [("Thr_FP", Num(1600.0))]) == (d1, None)
  {
    var kv := [("Thr_FP", Num(1600.0))];
    KeysLookupOwners();
    ActuatorKeysBindPlainly(kv);
    SurfaceWriteOne(d, "Thr_FP", Num(1600.0));
    d1 := d[ARDUINO_T := d[ARDUINO_T]["Thr_FP" := Num(1600.0)]];
  }

  /** The server thread ends only through an exception of the store or a socket error that
      is not caught: a session whose every cycle is well behaved never reports a fault. */
  lemma {:induction false} SessionWellBehavedRunsOn(d: Partitions, connected: bool, cycles: seq<SurfaceCycle>)
    requires WellFormed(d) && NumericArduinos(d)
    requires forall j :: 0 <= j < |cycles| ==> WellBehaved(cycles[j])
    ensures Session(d, connected, cycles).2 == None
    decreases |cycles|
  {
    if cycles != [] {
      var c := cycles[0];
      var (d1, v, _) := SurfaceExchange(d, c);
      if c.received.Message? && c.received.payload.Object? && c.reply != SendFailed {
        SurfaceWellBehavedNoCrash(d, c);
      }
      if v == TearDown {
        ResetKeepsNumeric(d1);
      }
      SessionWellBehavedRunsOn(if v == TearDown then ResetDefaults(d1) else d1, v != TearDown, cycles[1..]);
    }
  }

  /** A cycle that meets no socket error other than a reset, an abort or a timeout, and whose
      message, if any, is not a non-object and names only actuator keys with numeric values. */
  predicate WellBehaved(c: SurfaceCycle) {
    !c.received.SocketFailed? &&
    (c.received.Message? ==>
      c.reply != SendFailed && !c.received.payload.NonObject? &&
      (c.received.payload.Object? ==>
        forall i :: 0 <= i < |c.received.payload.pairs| ==>
          c.received.payload.pairs[i].0 in KEYS_LOOKUP && c.received.payload.pairs[i].1.Num?))
  }

  /** The reset writes numbers only, so numeric Arduino partitions stay numeric. */
  lemma ResetKeepsNumeric(d: Partitions)
    requires WellFormed(d) && NumericArduinos(d)
    ensures NumericArduinos(ResetDefaults(d))
  {
    DefaultsOwned(d);
    ResetKeysKeepsNumeric(d, DEFAULT_KEYS, KEYS_LOOKUP, 0);
  }

  lemma {:induction false} ResetKeysKeepsNumeric(d: Partitions, keys: seq<string>, owner: map<string, Value>, i: nat)
    requires i <= |keys| && Owned(d, keys, owner) && NumericArduinos(d)
    ensures NumericArduinos(ResetKeys(d, keys, owner, i))
    decreases |keys| - i
  {
    if i < |keys| {
      var k0, o := keys[i], owner[keys[i]];
      var d1 := d[o := d[o][k0 := Num(THRUSTER_IDLE)]];
      assert NumericArduinos(d1) by {
        forall ix, k | ix in d1 && ix != SURFACE && k in d1[ix] ensures d1[ix][k].Num? {
          if ix == o && k == k0 {
          } else {
            assert d1[ix][k] == d[ix][k];
          }
        }
      }
      ResetKeysKeepsNumeric(d1, keys, owner, i + 1);
    }
  }

  /** `_init_low_level` pairs ttyACM0..2 with the intake, thruster and manipulator Arduinos. */
  lemma DefaultPortsPairing()
    ensures PortIds(SERIAL_PORTS) ==
      Success([("/dev/ttyACM0", ARDUINO_I), ("/dev/ttyACM1", ARDUINO_T), ("/dev/ttyACM2", ARDUINO_M)])
  {
    var r := PortIds(SERIAL_PORTS);
    assert |r.value| == 3;
    assert r.value[0] == ("/dev/ttyACM0", ARDUINO_I);
    assert r.value[1] == ("/dev/ttyACM1", ARDUINO_T);
    assert r.value[2] == ("/dev/ttyACM2", ARDUINO_M);
    assert r.value == [("/dev/ttyACM0", ARDUINO_I), ("/dev/ttyACM1", ARDUINO_T), ("/dev/ttyACM2", ARDUINO_M)];
  }

  // Properties of the Arduino links

  /** `get(id)` is computed before anything is read: whenever the identifier is known, its
      transmission view is what is written, whatever the line read brings. */
  lemma ArduinoWritesCurrentState(d: Partitions, id: Value, written: bool, read: LineRead)
    requires WellFormed(d) && TransmissionKeys(id).Some?
    ensures var (_, _, v, sent) := ArduinoExchange(d, id, written, read);
      sent == Some(Get(d, id, []).value) && !(v == Crash(KeyError))
  {
  }

  /** A "deviceID" naming no known index is taken as the identifier without complaint (the
      pairs only reach the surface partition), and the next cycle's `get(id)`, which no
      handler covers, ends the thread with KeyError whatever that cycle brings. */
  lemma UnknownDeviceIdEndsLink(d: Partitions, id: Value, x: Value, written: bool, read: LineRead)
    requires WellFormed(d) && TransmissionKeys(id).Some?
    requires TransmissionKeys(x).None?
    ensures var (d', id', v, _) := ArduinoExchange(d, id, true, Line(Object([("deviceID", x)])));
      id' == x && v == Continue &&
      ArduinoExchange(d', id', written, read) == (d', x, Crash(KeyError), None)
  {
    var kv := [("deviceID", x)];
    assert kv[0].0 == "deviceID";
    assert KeysOf(kv) == {"deviceID"};
    assert AsDict(kv)["deviceID"] == x;
    ArduinoObjectMirrors(d, id, kv);
    var d' := ArduinoExchange(d, id, true, Line(Object(kv))).0;
    assert Get(d', x, []) == Failure(KeyError);
  }

  /** A non-empty object with a "deviceID" other than the surface's index, no "self" or
      "index" pair and no truthy "default", switches the link to that identifier and copies
      every pair but "default" verbatim into the surface partition. */
  lemma ArduinoObjectMirrors(d: Partitions, id: Value, kv: seq<(string, Value)>)
    requires WellFormed(d) && TransmissionKeys(id).Some?
    requires "deviceID" in AsDict(kv) && AsDict(kv)["deviceID"] != SURFACE
    requires "self" !in KeysOf(kv) && "index" !in KeysOf(kv)
    requires !("default" in KeysOf(kv) && Truthy(AsDict(kv)["default"]))
    ensures ArduinoExchange(d, id, true, Line(Object(kv))) ==
      (d[SURFACE := d[SURFACE] + (AsDict(kv) - {"default"})], AsDict(kv)["deviceID"], Continue,
       Some(Get(d, id, []).value))
  {
    ArduinoWriteMirrors(d, AsDict(kv)["deviceID"], Without(kv, "default"));
  }

  /** How `**obj` binds on a serial link, once "deviceID" has switched the identifier: a
      "self" or "index" pair ends the thread with TypeError and writes nothing; a truthy
      "default" resets every actuator to idle instead of mirroring the pairs. */
  lemma ArduinoKeywordBinding(d: Partitions, id: Value, kv: seq<(string, Value)>)
    requires WellFormed(d) && TransmissionKeys(id).Some?
    requires "deviceID" in AsDict(kv)
    ensures var (d', id', v, _) := ArduinoExchange(d, id, true, Line(Object(kv)));
      id' == AsDict(kv)["deviceID"] &&
      ("self" in KeysOf(kv) || "index" in KeysOf(kv) ==> d' == d && v == Crash(TypeError)) &&
      ("self" !in KeysOf(kv) && "index" !in KeysOf(kv) && "default" in KeysOf(kv) &&
       Truthy(AsDict(kv)["default"]) ==>
        IsReset(d, d') && v == Continue)
  {
    var id' := AsDict(kv)["deviceID"];
    ArduinoObjectStep(d, id, kv);
    match Bind(kv)
    case Failure(e) =>
      assert SetCall(d, id', kv) == (d, Some(TypeError));
    case Success(b) =>
      if b.default {
        ResetDefaultsEffect(d);
        assert SetCall(d, id', kv) == (ResetDefaults(d), None);
      }
  }

  /** An object with a "deviceID" on a known link is applied as `set(deviceID, **obj)`. */
  lemma ArduinoObjectStep(d: Partitions, id: Value, kv: seq<(string, Value)>)
    requires WellFormed(d) && TransmissionKeys(id).Some?
    requires "deviceID" in AsDict(kv)
    ensures var id' := AsDict(kv)["deviceID"];
      var w := SetCall(d, id', kv);
      ArduinoExchange(d, id, true, Line(Object(kv))) ==
        (w.0, id', if w.1 == Some(TypeError) then Crash(TypeError) else Continue, Some(Get(d, id, []).value))
  {
    var out := Get(d, id, []);
    assert out.Success?;
    assert kv != [];
    var id' := AsDict(kv)["deviceID"];
    var w := SetCall(d, id', kv);
    assert ArduinoExchange(d, id, true, Line(Object(kv))) ==
      (w.0, id', if w.1 == Some(TypeError) then Crash(TypeError) else Continue, Some(out.value));
  }

  /** Invalid, empty or falsy data and objects without "deviceID" change nothing and keep the
      link going (DataError is swallowed by `_listen`). */
  lemma ArduinoIgnoresBadData(d: Partitions, id: Value, p: Payload)
    requires WellFormed(d) && TransmissionKeys(id).Some?
    requires p.Undecodable? || p.Blank? || p.InvalidJson? || p == NonObject(false) ||
             (p.Object? && "deviceID" !in AsDict(p.pairs))
    ensures ArduinoExchange(d, id, true, Line(p)) == (d, id, Continue, Some(Get(d, id, []).value))
  {
  }

  /** A serial failure closes the port and leaves the store and identifier alone. */
  lemma LinkSerialFailureCloses(d: Partitions, id: Value, open: bool, ev: SerialEvent)
    requires WellFormed(d) && TransmissionKeys(id).Some?
    requires (open || ev.opens) && (!ev.written || ev.read.ReadFailed?)
    ensures LinkStep(d, id, open, ev) == (d, id, false, TearDown)
  {
  }

  /** While `open` keeps failing the link retries without touching the store, and it never
      ends the thread. */
  lemma {:induction false} LinkRetriesWhileClosed(d: Partitions, id: Value, events: seq<SerialEvent>)
    requires WellFormed(d)
    requires forall j :: 0 <= j < |events| ==> !events[j].opens
    ensures LinkRun(d, id, false, events) == (d, id, false, None)
    decreases |events|
  {
    if events != [] {
      LinkRetriesWhileClosed(d, id, events[1..]);
    }
  }

  /** A link whose port, once open, never fails, and whose Arduino reports nothing but data
      without an identifier stays open and leaves the store unchanged. */
  lemma {:induction false} LinkQuietStaysOpen(d: Partitions, id: Value, events: seq<SerialEvent>)
    requires WellFormed(d) && TransmissionKeys(id).Some?
    requires forall j :: 0 <= j < |events| ==>
      events[j].written && events[j].read.Line? && events[j].read.payload.Blank?
    ensures LinkRun(d, id, true, events) == (d, id, true, None)
    decreases |events|
  {
    if events != [] {
      LinkQuietStaysOpen(d, id, events[1..]);
    }
  }

  class Arduino {
    const dm: DataManager
    const port: string
    var id: Value
    var portOpen: bool

    /** `Arduino.__init__`: the serial port is configured but not opened. */
    constructor (dm: DataManager, port: string, id: Value)
      ensures this.dm == dm && this.port == port && this.id == id && !portOpen
    {
      this.dm := dm;
      this.port := port;
      this.id := id;
      portOpen := false;
    }

    /** `Arduino._handle_data` */
    method HandleData(written: bool, read: LineRead) returns (v: Verdict, sent: Option<map<string, Value>>)
      requires dm.Valid() && (read.Line? ==> WellDecoded(read.payload))
      modifies this, dm
      ensures dm.Valid() && portOpen == old(portOpen)
      ensures (dm.data, id, v, sent) == ArduinoExchange(old(dm.data), old(id), written, read)
    {
      var out := Get(dm.data, id, []);
      if out.Failure? {
        return Crash(out.error), None;
      }
      sent := Some(out.value);
      if !written || read.ReadFailed? {
        return TearDown, sent;
      }
      match read.payload {
        case NonObject(truthy) =>
          v := if truthy then Crash(TypeError) else Continue;
        case Object(kv) =>
          v := Continue;
          if kv != [] {
            var decoded := AsDict(kv);
            if "deviceID" in decoded {
              id := decoded["deviceID"];
              var binding := Bind(kv);
              if binding.Failure? {
                v := Crash(binding.error);
              } else {
                var fault := dm.Set(id, binding.value.default, binding.value.kwargs);
                if fault == Some(TypeError) {
                  v := Crash(TypeError);
                }
              }
            }
          }
        case _ =>
          v := Continue;
      }
    }

    /** One pass of the inner loop of `_listen`. */
    method Step(ev: SerialEvent) returns (v: Verdict)
      requires dm.Valid() && (ev.read.Line? ==> WellDecoded(ev.read.payload))
      modifies this, dm
      ensures dm.Valid()
      ensures (dm.data, id, portOpen, v) == LinkStep(old(dm.data), old(id), old(portOpen), ev)
    {
      if !portOpen {
        if !ev.opens {
          return Continue;
        }
        portOpen := true;
      }
      var sent;
      v, sent := HandleData(ev.written, ev.read);
      if v == TearDown {
        portOpen := false;
      }
    }

    /** `_listen`, fed the given events. */
    method Listen(events: seq<SerialEvent>) returns (crash: Option<Fault>)
      requires dm.Valid()
      requires forall i :: 0 <= i < |events| && events[i].read.Line? ==> WellDecoded(events[i].read.payload)
      modifies this, dm
      ensures dm.Valid()
      ensures (dm.data, id, portOpen, crash) == LinkRun(old(dm.data), old(id), old(portOpen), events)
    {
      var i := 0;
      while i < |events|
        invariant 0 <= i <= |events|
        invariant dm.Valid()
        invariant LinkRun(old(dm.data), old(id), old(portOpen), events) == LinkRun(dm.data, id, portOpen, events[i..])
      {
        assert events[i..][0] == events[i] && events[i..][1..] == events[i + 1..];
        var v := Step(events[i]);
        if v.Crash? {
          return Some(v.fault);
        }
        i := i + 1;
      }
      crash := None;
    }
  }

  class Server {
    const dm: DataManager
    var connected: bool

    /** `Server.__init__`: a fresh store, no client yet. The serial links are created by
        `InitLowLevel`. */
    constructor ()
      ensures fresh(dm) && dm.Valid() && !connected
    {
      dm := new DataManager();
      connected := false;
    }

    /** `_init_low_level`: one link per port, paired with its identifier. */
    method InitLowLevel(ports: seq<string>) returns (clients: Result<seq<Arduino>, Fault>)
      ensures clients.Failure? <==> |ports| > |ARDUINO_IDS|
      ensures clients.Success? ==> |clients.value| == |ports|
      ensures clients.Success? ==> forall i :: 0 <= i < |ports| ==>
        clients.value[i].dm == dm && clients.value[i].port == ports[i] &&
        clients.value[i].id == ARDUINO_IDS[i] && !clients.value[i].portOpen
    {
      var pairs := PortIds(ports);
      if pairs.Failure? {
        return Failure(pairs.error);
      }
      var links: seq<Arduino> := [];
      var i := 0;
      while i < |pairs.value|
        invariant 0 <= i <= |pairs.value|
        invariant |links| == i
        invariant forall j :: 0 <= j < i ==>
          links[j].dm == dm && links[j].port == ports[j] && links[j].id == ARDUINO_IDS[j] && !links[j].portOpen
      {
        var link := new Arduino(dm, pairs.value[i].0, pairs.value[i].1);
        links := links + [link];
        i := i + 1;
      }
      clients := Success(links);
    }

    /** `Server._handle_data` */
    method HandleData(c: SurfaceCycle) returns (v: Verdict, reply: Option<map<string, Value>>)
      requires dm.Valid() && (c.received.Message? ==> WellDecoded(c.received.payload))
      modifies dm
      ensures dm.Valid()
      ensures (dm.data, v, reply) == SurfaceExchange(old(dm.data), c)
    {
      if c.received.ZeroBytes? || c.received.ConnectionLost? {
        return TearDown, None;
      } else if c.received.SocketFailed? {
        return Crash(OSError), None;
      }
      match c.received.payload {
        case Object(kv) =>
          var binding := Bind(kv);
          if binding.Failure? {
            return Crash(binding.error), None;
          }
          var fault := dm.Set(SURFACE, binding.value.default, binding.value.kwargs);
          if fault.Some? {
            return Crash(fault.value), None;
          }
        case NonObject(_) =>
          return Crash(TypeError), None;
        case _ =>
      }
      reply := Some(Get(dm.data, SURFACE, []).value);
      match c.reply {
        case Sent => v := Continue;
        case SendLost => v := TearDown;
        case SendFailed => v := Crash(OSError);
      }
    }

    /** `_on_surface_disconnected`: close the client socket and reset the defaults. */
    method OnSurfaceDisconnected()
      requires dm.Valid()
      modifies this, dm
      ensures dm.Valid() && !connected
      ensures dm.data == ResetDefaults(old(dm.data))
    {
      connected := false;
      var _ := dm.Set(SURFACE, true, []);
    }

    /** `_listen_high_level`, fed the given cycles. */
    method ListenHighLevel(cycles: seq<SurfaceCycle>) returns (crash: Option<Fault>)
      requires dm.Valid()
      requires forall i :: 0 <= i < |cycles| && cycles[i].received.Message? ==> WellDecoded(cycles[i].received.payload)
      modifies this, dm
      ensures dm.Valid()
      ensures (dm.data, connected, crash) == Session(old(dm.data), old(connected), cycles)
    {
      var i := 0;
      while i < |cycles|
        invariant 0 <= i <= |cycles|
        invariant dm.Valid()
        invariant Session(old(dm.data), old(connected), cycles) == Session(dm.data, connected, cycles[i..])
      {
        assert cycles[i..][0] == cycles[i] && cycles[i..][1..] == cycles[i + 1..];
        // `accept` when waiting
        connected := true;
        var v, reply := HandleData(cycles[i]);
        match v {
          case Crash(f) =>
            return Some(f);
          case TearDown =>
            OnSurfaceDisconnected();
          case Continue =>
        }
        i := i + 1;
      }
      crash := None;
    }
  }
}
