/** The surface end of the data link to the Raspberry Pi: a TCP client that, once connected,
    sends the safeguarded transmission view of the surface store, then applies the JSON object
    it receives back. The `_connect` loop is driven by a sequence of abstract I/O outcomes. */
module SurfaceConnection {
  import opened Common
  import opened SurfaceDataManager

  /** One pass of the loops of `_connect`: whether `connect` succeeds (used only when not
      exchanging), whether the `sendall` goes through, and what `recv` gives. */
  datatype LinkEvent = LinkEvent(connects: bool, sent: bool, received: Received)

  /** `Connection._handle_data` on the store `data` through a socket in state `sock`: the
      store afterwards, the verdict and what was sent. The transmission view is computed and
      sent before anything is received; a zero-byte read and every socket error of the send
      or the receive raise DataError; a JSON object is applied as `set_data(**obj)`, whose
      own `d.set(**kwargs)` raises TypeError on a pair named "self"; a non-object fails `**`
      with TypeError. A missing socket has no `sendall`; otherwise the argument, and so the
      safeguard with its faults, is evaluated before a closed socket fails the send. */
  function Exchange(data: Store, amp: real -> real, roots: real -> Option<(real, real)>,
                    sock: SocketState, sent: bool, received: Received)
    : (r: (Store, Verdict, Option<Store>))
  {
    match sock
    case NoSocket => (data, Crash(AttributeError), None)
    case _ =>
      match Safeguard(data, [], amp, roots)
      case Failure(e) => (data, Crash(e), None)
      case Success(out) =>
        if sock == Closed || !sent then (data, TearDown, None)
        else
          match received
          case Message(p) =>
            (match p
             case Object(kv) =>
               if "self" in KeysOf(kv) then (data, Crash(TypeError), Some(out))
               else (data + AsDict(kv), Continue, Some(out))
             case NonObject(_) => (data, Crash(TypeError), Some(out))
             case _ => (data, Continue, Some(out)))
          case _ => (data, TearDown, Some(out))
  }

  /** One pass of `_connect`: when not exchanging, a missing socket is created and `connect`
      is tried (a refusal or OSError sleeps and retries, keeping the socket); once connected,
      or while exchanging, one exchange; a DataError closes the socket and resets it to None.
      Yields the store, the socket, whether the inner loop is running, and the verdict. */
  function Pass(data: Store, amp: real -> real, roots: real -> Option<(real, real)>,
                sock: SocketState, exchanging: bool, ev: LinkEvent)
    : (r: (Store, SocketState, bool, Verdict))
  {
    var sock1 := if !exchanging && sock == NoSocket then Open else sock;
    if !exchanging && (sock1 == Closed || !ev.connects) then (data, sock1, false, Continue)
    else
      var (data', v, _) := Exchange(data, amp, roots, sock1, ev.sent, ev.received);
      if v == TearDown then (data', NoSocket, false, v) else (data', sock1, true, v)
  }

  /** `_connect` over a sequence of events, until an uncaught exception ends the process. */
  function Passes(data: Store, amp: real -> real, roots: real -> Option<(real, real)>,
               sock: SocketState, exchanging: bool, events: seq<LinkEvent>)
    : (Store, SocketState, bool, Option<Fault>)
    decreases |events|
  {
    if events == [] then (data, sock, exchanging, None)
    else
      var (data', sock', exchanging', v) := Pass(data, amp, roots, sock, exchanging, events[0]);
      if v.Crash? then (data', sock', exchanging', Some(v.fault))
      else Passes(data', amp, roots, sock', exchanging', events[1..])
  }

  class Connection {
    const dm: DataManager
    var socket: SocketState

    /** Whether `_connect` is inside its inner exchange loop. */
    var exchanging: bool

    /** `Connection.__init__`: no socket yet. */
    constructor (dm: DataManager)
      ensures this.dm == dm && socket == NoSocket && !exchanging
    {
      this.dm := dm;
      socket := NoSocket;
      exchanging := false;
    }

    /** `_handle_data` */
    method HandleData(sent: bool, received: Received) returns (v: Verdict, out: Option<Store>)
      requires received.Message? ==> WellDecoded(received.payload)
      modifies dm
      ensures (dm.data, v, out) == Exchange(old(dm.data), dm.amp, dm.roots, socket, sent, received)
    {
      out := None;
      if socket == NoSocket {
        return Crash(AttributeError), out;
      }
      var view := dm.GetTransmit([]);
      if view.Failure? {
        return Crash(view.error), out;
      }
      if socket == Closed || !sent {
        return TearDown, out;
      }
      out := Some(view.value);
      if !received.Message? {
        return TearDown, out;
      }
      match received.payload {
        case Object(kv) =>
          if "self" in KeysOf(kv) {
            return Crash(TypeError), out;
          }
          dm.Set(kv);
          v := Continue;
        case NonObject(_) =>
          v := Crash(TypeError);
        case _ =>
          v := Continue;
      }
    }

    /** One pass of `_connect`. */
    method Step(ev: LinkEvent) returns (v: Verdict)
      requires ev.received.Message? ==> WellDecoded(ev.received.payload)
      modifies this, dm
      ensures (dm.data, socket, exchanging, v) == Pass(old(dm.data), dm.amp, dm.roots, old(socket), old(exchanging), ev)
    {
      if !exchanging {
        if socket == NoSocket {
          socket := Open;
        }
        if socket == Closed || !ev.connects {
          return Continue;
        }
        exchanging := true;
      }
      var out;
      v, out := HandleData(ev.sent, ev.received);
      if v == TearDown {
        exchanging := false;
        socket := NoSocket;
      }
    }

    /** `_connect`, fed the given events. */
    method Connect(events: seq<LinkEvent>) returns (crash: Option<Fault>)
      requires forall i :: 0 <= i < |events| && events[i].received.Message? ==> WellDecoded(events[i].received.payload)
      modifies this, dm
      ensures (dm.data, socket, exchanging, crash) == Passes(old(dm.data), dm.amp, dm.roots, old(socket), old(exchanging), events)
    {
      var i := 0;
      while i < |events|
        invariant 0 <= i <= |events|
        invariant Passes(old(dm.data), dm.amp, dm.roots, old(socket), old(exchanging), events)
          == Passes(dm.data, dm.amp, dm.roots, socket, exchanging, events[i..])
      {
        assert events[i..][0] == events[i] && events[i..][1..] == events[i + 1..];
        var v := Step(events[i]);
        if v.Crash? {
          return Some(v.fault);
        }
        i := i + 1;
      }
      crash := None;
    }

    /** `reconnect`: close the socket, so that the next send fails; `close` on None raises
        AttributeError. The model lets this act on the socket that `_connect` uses, as the
        docstring of `reconnect` intends; in the program `_connect` runs in another process,
        whose socket the caller never sees. */
    method Reconnect() returns (fault: Option<Fault>)
      modifies this
      ensures old(socket) == NoSocket ==> fault == Some(AttributeError) && socket == NoSocket
      ensures old(socket) != NoSocket ==> fault == None && socket == Closed
      ensures exchanging == old(exchanging)
    {
      if socket == NoSocket {
        return Some(AttributeError);
      }
      socket := Closed;
      fault := None;
    }
  }

  // Properties of the link

  /** Whatever comes back, what is sent is the safeguarded transmission view of the store as
      it was before the reply arrived. */
  lemma SendsBeforeReceiving(data: Store, amp: real -> real, roots: real -> Option<(real, real)>, received: Received)
    requires Safeguard(data, [], amp, roots).Success?
    ensures var (_, _, out) := Exchange(data, amp, roots, Open, true, received);
      out == Some(Safeguard(data, [], amp, roots).value)
  {
  }

  /** A failed send, a zero-byte read or any socket error of the receive tear the link down,
      leave the store alone, and leave no socket behind. */
  lemma LossTearsDown(data: Store, amp: real -> real, roots: real -> Option<(real, real)>,
                      exchanging: bool, ev: LinkEvent)
    requires Safeguard(data, [], amp, roots).Success?
    requires exchanging || ev.connects
    requires !ev.sent || !ev.received.Message?
    ensures Pass(data, amp, roots, Open, exchanging, ev) == (data, NoSocket, false, TearDown)
  {
  }

  /** An undecodable, blank or invalid reply leaves the store alone and keeps the link; a
      reply object overwrites its keys in the store, unless a pair named "self" makes the
      call raise TypeError first. */
  lemma ReplyHandling(data: Store, amp: real -> real, roots: real -> Option<(real, real)>, p: Payload)
    requires Safeguard(data, [], amp, roots).Success?
    ensures var (data', v, _) := Exchange(data, amp, roots, Open, true, Message(p));
      (p.Undecodable? || p.Blank? || p.InvalidJson? ==> data' == data && v == Continue) &&
      (p.Object? && "self" in KeysOf(p.pairs) ==> data' == data && v == Crash(TypeError)) &&
      (p.Object? && "self" !in KeysOf(p.pairs) ==>
        v == Continue && data'.Keys == data.Keys + KeysOf(p.pairs) &&
        forall k :: k in data' ==> data'[k] == if k in KeysOf(p.pairs) then AsDict(p.pairs)[k] else data[k]) &&
      (p.NonObject? ==> v == Crash(TypeError))
  {
  }

  /** While `connect` is refused the loop retries with the socket it created, never resetting
      it, and the store is untouched. */
  lemma {:induction false} RefusedRetries(data: Store, amp: real -> real, roots: real -> Option<(real, real)>,
                                         sock: SocketState, events: seq<LinkEvent>)
    requires sock != Closed
    requires forall j :: 0 <= j < |events| ==> !events[j].connects
    ensures Passes(data, amp, roots, sock, false, events) ==
      (data, if events == [] then sock else Open, false, None)
    decreases |events|
  {
    if events != [] {
      RefusedRetries(data, amp, roots, Open, events[1..]);
    }
  }

  /** After a teardown the socket is None, so the next pass creates a fresh one. */
  lemma TearDownThenFreshSocket(data: Store, amp: real -> real, roots: real -> Option<(real, real)>,
                                sock: SocketState, exchanging: bool, ev: LinkEvent, next: LinkEvent)
    requires Pass(data, amp, roots, sock, exchanging, ev).3 == TearDown
    ensures var (data', sock', exchanging', _) := Pass(data, amp, roots, sock, exchanging, ev);
      sock' == NoSocket && !exchanging' &&
      (!next.connects ==> Pass(data', amp, roots, sock', exchanging', next).1 == Open)
  {
  }

  /** Were `reconnect` to close the socket of `_connect` (see Connection.Reconnect), a close
      during connection attempts would leave a closed socket that every later attempt fails
      on, so the loop would retry forever without exchanging; ClosedSocketTearsDown covers a
      close during an exchange. */
  lemma {:induction false} ClosedSocketNeverReconnects(data: Store, amp: real -> real, roots: real -> Option<(real, real)>,
                                                      events: seq<LinkEvent>)
    ensures Passes(data, amp, roots, Closed, false, events) == (data, Closed, false, None)
    decreases |events|
  {
    if events != [] {
      ClosedSocketNeverReconnects(data, amp, roots, events[1..]);
    }
  }

  /** An exchange on a closed socket fails its send, so the link is torn down; but the
      transmission view is computed first, so a safeguard fault escapes instead, with the
      closed socket kept. */
  lemma ClosedSocketTearsDown(data: Store, amp: real -> real, roots: real -> Option<(real, real)>, ev: LinkEvent)
    ensures Safeguard(data, [], amp, roots).Success? ==>
      Pass(data, amp, roots, Closed, true, ev) == (data, NoSocket, false, TearDown)
    ensures Safeguard(data, [], amp, roots).Failure? ==>
      Pass(data, amp, roots, Closed, true, ev) == (data, Closed, true, Crash(Safeguard(data, [], amp, roots).error))
  {
  }
}
