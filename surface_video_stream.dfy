/** The surface end of the video link: a TCP client that accumulates received chunks in a
    byte buffer until the buffer ends with a fixed end marker, then takes the bytes before
    the marker as the new frame, empties the buffer and acknowledges. The Pi sends each frame
    as its pickled bytes followed by the same marker. */
module SurfaceVideoStream {
  import opened Common

  /** `_end_payload`: the ASCII codes of the 27 characters of "Frame was successfully sent". */
  const END_MARKER: Bytes :=
    [70, 114, 97, 109, 101, 32, 119, 97, 115, 32, 115, 117, 99, 99, 101, 115, 115, 102, 117, 108,
     108, 121, 32, 115, 101, 110, 116]

  /** What `recv` gave: a chunk (possibly empty), a reset or abort, or any other socket
      error. */
  datatype Chunk = Data(bytes: Bytes) | Lost | Failed

  /** One pass of the loops of `_connect`: whether `connect` succeeds (used only when not
      exchanging), what `recv` gives, and how the `sendall` of the ACK goes. */
  datatype StreamEvent = StreamEvent(connects: bool, chunk: Chunk, ack: SendOutcome)

  /** The receiver's state: the partial buffer, the last frame (None before the first one),
      the socket, whether `_connect` is in its inner exchange loop, and whether its thread is
      still alive. */
  datatype Receiver = Receiver(partial: Bytes, frame: Option<Bytes>, sock: SocketState, exchanging: bool, running: bool)

  /** `VideoStream._handle_data` on the buffer and frame: the chunk is appended; an empty
      buffer after that is a disconnect; a buffer ending with the marker yields a frame (the
      bytes before the marker, unpickled: `unpicklable` says whether `loads` accepts them) and
      is emptied before the ACK is sent. A reset, an abort or an UnpicklingError raise
      DataError (TearDown); any other socket error escapes as OSError; unpickling the empty
      bytes before a bare marker raises EOFError. */
  function Receive(partial: Bytes, frame: Option<Bytes>, chunk: Chunk, ack: SendOutcome, unpicklable: Bytes -> bool, marker: Bytes)
    : (r: (Bytes, Option<Bytes>, Verdict))
    ensures r.1 != frame ==> chunk.Data? && EndsWith(partial + chunk.bytes, marker)
    ensures r.2 == Continue && r.0 != [] ==> chunk.Data? && r.0 == partial + chunk.bytes
    ensures r.0 == [] && partial != [] ==> chunk.Data? && EndsWith(partial + chunk.bytes, marker)
    ensures r.2 == Crash(EOFError) <==> chunk.Data? && partial + chunk.bytes == marker && marker != []
  {
    match chunk
    case Lost => (partial, frame, TearDown)
    case Failed => (partial, frame, Crash(OSError))
    case Data(data) =>
      var buffer := partial + data;
      if buffer == [] then (buffer, frame, TearDown)
      else if EndsWith(buffer, marker) then
        var payload := buffer[..|buffer| - |marker|];
        if payload == [] then (buffer, frame, Crash(EOFError))
        else if !unpicklable(payload) then (buffer, frame, TearDown)
        else ([], Some(payload), SendVerdict(ack))
      else (buffer, frame, Continue)
  }

  /** One pass of `_connect` while its thread is alive: when not exchanging, a missing socket
      is created and `connect` is tried (a refusal or OSError sleeps and retries); once
      connected, or while exchanging, one `_handle_data`. A DataError closes the socket and
      resets it to None; an OSError reaches the outer handler, which keeps the socket as it
      is and tries `connect` on it again; any other exception ends the thread. The buffer is
      not cleared on a teardown. */
  function Pass(s: Receiver, ev: StreamEvent, unpicklable: Bytes -> bool, marker: Bytes): (r: Receiver)
    ensures r.frame != s.frame ==>
      s.running && (s.exchanging || ev.connects) && ev.chunk.Data? && EndsWith(s.partial + ev.chunk.bytes, marker)
  {
    if !s.running then s
    else
      var sock := if !s.exchanging && s.sock == NoSocket then Open else s.sock;
      if !s.exchanging && !ev.connects then s.(sock := sock)
      else
        var (partial, frame, v) := Receive(s.partial, s.frame, ev.chunk, ev.ack, unpicklable, marker);
        match v
        case Continue => Receiver(partial, frame, sock, true, true)
        case TearDown => Receiver(partial, frame, NoSocket, false, true)
        case Crash(f) => Receiver(partial, frame, sock, false, f == OSError)
  }

  /** The stream never closes a socket it keeps, and it exchanges only over a socket. */
  predicate Consistent(s: Receiver) {
    s.sock != Closed && (s.exchanging ==> s.sock == Open)
  }

  /** `_connect` over a sequence of events. */
  function Passes(s: Receiver, events: seq<StreamEvent>, unpicklable: Bytes -> bool, marker: Bytes): Receiver
    decreases |events|
  {
    if events == [] then s else Passes(Pass(s, events[0], unpicklable, marker), events[1..], unpicklable, marker)
  }

  class VideoStream {
    var partial: Bytes
    var currentFrame: Option<Bytes>
    var socket: SocketState
    var exchanging: bool

    /** False once an exception other than DataError and OSError has ended the thread. */
    var running: bool

    /** Whether `loads` accepts a byte string (unpickling itself is not modelled). */
    const unpicklable: Bytes -> bool

    /** `_end_payload` */
    const endPayload: Bytes

    /** `VideoStream.__init__`: an empty buffer, no frame, no socket. */
    constructor (unpicklable: Bytes -> bool)
      ensures partial == [] && currentFrame == None && socket == NoSocket && !exchanging && running
      ensures this.unpicklable == unpicklable && endPayload == END_MARKER
    {
      endPayload := END_MARKER;
      partial := [];
      currentFrame := None;
      socket := NoSocket;
      exchanging := false;
      running := true;
      this.unpicklable := unpicklable;
    }

    function State(): Receiver
      reads this
    {
      Receiver(partial, currentFrame, socket, exchanging, running)
    }

    /** The `frame` property: None until a first complete frame arrived. */
    function Frame(): (r: Option<Bytes>)
      reads this
      ensures r == State().frame
    {
      currentFrame
    }

    /** `_handle_data` */
    method HandleData(chunk: Chunk, ack: SendOutcome) returns (v: Verdict)
      modifies this
      ensures (partial, currentFrame, v) == Receive(old(partial), old(currentFrame), chunk, ack, unpicklable, endPayload)
      ensures socket == old(socket) && exchanging == old(exchanging) && running == old(running)
    {
      if chunk.Lost? {
        return TearDown;
      } else if chunk.Failed? {
        return Crash(OSError);
      }
      partial := partial + chunk.bytes;
      if partial == [] {
        return TearDown;
      }
      if EndsWith(partial, endPayload) {
        var payload := partial[..|partial| - |endPayload|];
        if payload == [] {
          return Crash(EOFError);
        }
        if !unpicklable(payload) {
          return TearDown;
        }
        currentFrame := Some(payload);
        partial := [];
        match ack {
          case Sent => v := Continue;
          case SendLost => v := TearDown;
          case SendFailed => v := Crash(OSError);
        }
      } else {
        v := Continue;
      }
    }

    /** One pass of `_connect`. */
    method Step(ev: StreamEvent)
      modifies this
      ensures State() == Pass(old(State()), ev, unpicklable, endPayload)
    {
      if !running {
        return;
      }
      if !exchanging {
        if socket == NoSocket {
          socket := Open;
        }
        if !ev.connects {
          return;
        }
        exchanging := true;
      }
      var v := HandleData(ev.chunk, ev.ack);
      match v {
        case Continue =>
        case TearDown =>
          socket, exchanging := NoSocket, false;
        case Crash(f) =>
          exchanging, running := false, f == OSError;
      }
    }

    /** `_connect`, fed the given events. */
    method Connect(events: seq<StreamEvent>)
      modifies this
      ensures State() == Passes(old(State()), events, unpicklable, endPayload)
    {
      var i := 0;
      while i < |events|
        invariant 0 <= i <= |events|
        invariant Passes(old(State()), events, unpicklable, endPayload) == Passes(State(), events[i..], unpicklable, endPayload)
      {
        assert events[i..][0] == events[i] && events[i..][1..] == events[i + 1..];
        Step(events[i]);
        i := i + 1;
      }
    }
  }

  // Properties of the framer

  /** Each received chunk is appended to the buffer, and only a buffer ending with the marker
      is emptied (as it yields a frame). */
  lemma ChunkAppended(partial: Bytes, frame: Option<Bytes>, data: Bytes, ack: SendOutcome, unpicklable: Bytes -> bool, marker: Bytes)
    requires partial + data != [] && !EndsWith(partial + data, marker)
    ensures Receive(partial, frame, Data(data), ack, unpicklable, marker) == (partial + data, frame, Continue)
  {
  }

  /** A disconnect is noticed only on an empty buffer: an empty chunk onto a non-empty buffer
      that does not end with the marker goes unnoticed. */
  lemma EmptyChunkUnnoticed(partial: Bytes, frame: Option<Bytes>, ack: SendOutcome, unpicklable: Bytes -> bool, marker: Bytes)
    ensures var (_, _, v) := Receive(partial, frame, Data([]), ack, unpicklable, marker);
      var completes := EndsWith(partial, marker) && |partial| > |marker| &&
        (!unpicklable(partial[..|partial| - |marker|]) || ack == SendLost);
      v == TearDown <==> partial == [] || completes
  {
    assert partial + [] == partial;
    if partial != [] && EndsWith(partial, marker) {
      var payload := partial[..|partial| - |marker|];
      assert payload == [] <==> |partial| == |marker|;
    }
  }

  /** A buffer ending with the marker after a non-empty payload yields that payload as the
      frame and is emptied. */
  lemma MarkerCompletesFrame(partial: Bytes, frame: Option<Bytes>, data: Bytes, payload: Bytes,
                             unpicklable: Bytes -> bool, marker: Bytes)
    requires marker != [] && payload != []
    requires partial + data == payload + marker && unpicklable(payload)
    ensures Receive(partial, frame, Data(data), Sent, unpicklable, marker) == ([], Some(payload), Continue)
  {
    var buffer := partial + data;
    assert buffer[|buffer| - |marker|..] == marker;
    assert buffer[..|buffer| - |marker|] == payload;
  }

  /** Bytes left in the buffer when the link drops are kept and prefix the next connection's
      data. */
  lemma TearDownKeepsBuffer(s: Receiver, ev: StreamEvent, unpicklable: Bytes -> bool, marker: Bytes)
    requires s.running && s.exchanging && s.sock == Open && ev.chunk.Lost?
    ensures Pass(s, ev, unpicklable, marker) == s.(sock := NoSocket, exchanging := false)
  {
  }

  /** A socket error other than a reset or an abort on `recv` leaves the inner loop without
      closing the socket or dropping it: the next pass tries `connect` on the same socket. */
  lemma RecvErrorKeepsSocket(s: Receiver, ev: StreamEvent, unpicklable: Bytes -> bool, marker: Bytes)
    requires s.running && s.exchanging && s.sock == Open && ev.chunk.Failed?
    ensures Pass(s, ev, unpicklable, marker) == s.(exchanging := false)
  {
  }

  /** Such an error on the ACK of a completed frame keeps the frame and the emptied buffer,
      and likewise keeps the socket while leaving the inner loop. */
  lemma AckErrorKeepsSocket(s: Receiver, ev: StreamEvent, payload: Bytes, unpicklable: Bytes -> bool, marker: Bytes)
    requires s.running && s.exchanging && s.sock == Open
    requires marker != [] && payload != [] && unpicklable(payload)
    requires ev.chunk.Data? && s.partial + ev.chunk.bytes == payload + marker && ev.ack == SendFailed
    ensures Pass(s, ev, unpicklable, marker) == Receiver([], Some(payload), Open, false, true)
  {
    var buffer := s.partial + ev.chunk.bytes;
    assert buffer[|buffer| - |marker|..] == marker;
    assert buffer[..|buffer| - |marker|] == payload;
  }

  /** A buffer that is exactly the marker makes `loads` unpickle no bytes: the EOFError
      escapes every handler, the thread ends with the buffer and the frame as they were, and
      no later event changes anything. */
  lemma {:induction false} BareMarkerEndsThread(s: Receiver, ev: StreamEvent, later: seq<StreamEvent>,
                                              unpicklable: Bytes -> bool, marker: Bytes)
    requires marker != [] && s.running && (s.exchanging || ev.connects)
    requires ev.chunk.Data? && s.partial + ev.chunk.bytes == marker
    ensures var r := Pass(s, ev, unpicklable, marker);
      !r.running && r.partial == marker && r.frame == s.frame &&
      Passes(r, later, unpicklable, marker) == r
  {
    var r := Pass(s, ev, unpicklable, marker);
    assert !r.running;
    DeadStreamIgnoresEvents(r, later, unpicklable, marker);
  }

  /** Once its thread has ended, the stream changes no more. */
  lemma {:induction false} DeadStreamIgnoresEvents(s: Receiver, events: seq<StreamEvent>, unpicklable: Bytes -> bool, marker: Bytes)
    requires !s.running
    ensures Passes(s, events, unpicklable, marker) == s
    decreases |events|
  {
    if events != [] {
      DeadStreamIgnoresEvents(s, events[1..], unpicklable, marker);
    }
  }

  /** The bytes of the chunks of a sequence of events, in order. */
  function Concatenated(events: seq<StreamEvent>): Bytes
    requires forall j :: 0 <= j < |events| ==> events[j].chunk.Data?
  {
    if events == [] then [] else events[0].chunk.bytes + Concatenated(events[1..])
  }

  /** The buffer after the first k chunks, seen from the buffer after the first one. */
  lemma {:induction false} ShiftedPrefixes(partial: Bytes, events: seq<StreamEvent>)
    requires events != []
    requires forall j :: 0 <= j < |events| ==> events[j].chunk.Data?
    ensures forall k :: 0 < k <= |events| ==>
      (partial + events[0].chunk.bytes) + Concatenated(events[1..][..k - 1]) == partial + Concatenated(events[..k])
  {
    forall k | 0 < k <= |events|
      ensures (partial + events[0].chunk.bytes) + Concatenated(events[1..][..k - 1]) == partial + Concatenated(events[..k])
    {
      assert events[..k][1..] == events[1..][..k - 1];
    }
  }

  /** The framing round trip: starting from a buffer `partial` in the exchange loop, if the
      chunks complete a non-empty `payload` followed by the marker, every ACK goes through,
      and the buffer at no earlier chunk boundary is empty or ends with the marker, the
      receiver ends with `payload` as its frame and an empty buffer. */
  lemma {:induction false} RoundTrip(partial: Bytes, frame: Option<Bytes>, events: seq<StreamEvent>,
                                     payload: Bytes, unpicklable: Bytes -> bool, marker: Bytes)
    requires events != [] && marker != [] && payload != []
    requires forall j :: 0 <= j < |events| ==> events[j].chunk.Data? && events[j].ack == Sent
    requires partial + Concatenated(events) == payload + marker && unpicklable(payload)
    requires forall k :: 0 < k < |events| ==>
      partial + Concatenated(events[..k]) != [] && !EndsWith(partial + Concatenated(events[..k]), marker)
    ensures Passes(Receiver(partial, frame, Open, true, true), events, unpicklable, marker) == Receiver([], Some(payload), Open, true, true)
    decreases |events|
  {
    var s := Receiver(partial, frame, Open, true, true);
    var data := events[0].chunk.bytes;
    assert Concatenated(events) == data + Concatenated(events[1..]);
    if |events| == 1 {
      MarkerCompletesFrame(partial, frame, data, payload, unpicklable, marker);
      assert Pass(s, events[0], unpicklable, marker) == Receiver([], Some(payload), Open, true, true);
    } else {
      FirstChunkAppends(partial, frame, events, unpicklable, marker);
      TailGuard(partial, events, marker);
      assert (partial + data) + Concatenated(events[1..]) == payload + marker;
      RoundTrip(partial + data, frame, events[1..], payload, unpicklable, marker);
    }
  }

  /** Before the last chunk, a chunk that leaves a non-empty buffer without the marker is
      appended and the loop goes on. */
  lemma FirstChunkAppends(partial: Bytes, frame: Option<Bytes>, events: seq<StreamEvent>,
                          unpicklable: Bytes -> bool, marker: Bytes)
    requires |events| > 1 && events[0].chunk.Data?
    requires partial + Concatenated(events[..1]) != [] && !EndsWith(partial + Concatenated(events[..1]), marker)
    requires forall j :: 0 <= j < |events| ==> events[j].chunk.Data?
    ensures Pass(Receiver(partial, frame, Open, true, true), events[0], unpicklable, marker)
      == Receiver(partial + events[0].chunk.bytes, frame, Open, true, true)
  {
    var data := events[0].chunk.bytes;
    assert events[..1][1..] == [];
    assert Concatenated(events[..1]) == data + [];
    ChunkAppended(partial, frame, data, events[0].ack, unpicklable, marker);
  }

  /** The no-early-marker condition carries over from the events to their tail. */
  lemma TailGuard(partial: Bytes, events: seq<StreamEvent>, marker: Bytes)
    requires events != []
    requires forall j :: 0 <= j < |events| ==> events[j].chunk.Data?
    requires forall k :: 0 < k < |events| ==>
      partial + Concatenated(events[..k]) != [] && !EndsWith(partial + Concatenated(events[..k]), marker)
    ensures forall k :: 0 < k < |events[1..]| ==>
      (partial + events[0].chunk.bytes) + Concatenated(events[1..][..k]) != [] &&
      !EndsWith((partial + events[0].chunk.bytes) + Concatenated(events[1..][..k]), marker)
  {
    ShiftedPrefixes(partial, events);
    forall k | 0 < k < |events[1..]|
      ensures (partial + events[0].chunk.bytes) + Concatenated(events[1..][..k]) == partial + Concatenated(events[..k + 1])
    {
      assert (k + 1) - 1 == k;
    }
  }

  /** Every pass keeps the receiver consistent. */
  lemma PassConsistent(s: Receiver, ev: StreamEvent, unpicklable: Bytes -> bool, marker: Bytes)
    requires Consistent(s)
    ensures Consistent(Pass(s, ev, unpicklable, marker))
  {
  }

  /** While `connect` is refused nothing but the socket changes: the buffer and the frame,
      None on a fresh stream, stay as they are. */
  lemma {:induction false} RefusedKeepsFrame(s: Receiver, events: seq<StreamEvent>, unpicklable: Bytes -> bool, marker: Bytes)
    requires !s.exchanging
    requires forall j :: 0 <= j < |events| ==> !events[j].connects
    ensures var r := Passes(s, events, unpicklable, marker);
      r.partial == s.partial && r.frame == s.frame && !r.exchanging
    decreases |events|
  {
    if events != [] {
      RefusedKeepsFrame(Pass(s, events[0], unpicklable, marker), events[1..], unpicklable, marker);
    }
  }
}
