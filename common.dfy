/** Shared vocabulary of the model: optional values, results, the scalar values that
    travel in the JSON objects, the Python exceptions the core raises, and bytes. */
module Common {

  datatype Option<+T> = None | Some(value: T)

  datatype Result<+T, +E> = Success(value: T) | Failure(error: E)

  /** A scalar held in a store: a JSON number (Python int or float) or a JSON string. */
  datatype Value = Num(x: real) | Text(s: string)

  /** The Python exceptions the core raises. */
  datatype Fault =
    | KeyError        // missing dictionary key
    | TypeError       // arithmetic on a non-number, indexing with None
    | ValueError      // rejected argument, or math domain error in `sqrt`
    | IndexError      // list index out of range
    | AttributeError  // rejected attribute value, or attribute of None
    | EOFError        // unpickling no bytes at all
    | OSError         // a socket error that no handler on the way catches

  type byte = x: int | 0 <= x < 256

  type Bytes = seq<byte>

  /** `s` ends with `suffix` (Python `s[-len(suffix):] == suffix` for a non-empty suffix). */
  predicate EndsWith(s: Bytes, suffix: Bytes) {
    |suffix| <= |s| && s[|s| - |suffix|..] == suffix
  }

  // Keyword arguments and JSON objects: ordered (key, value) pairs

  /** The keys named by a keyword-argument list. */
  function KeysOf(kv: seq<(string, Value)>): set<string> {
    set i | 0 <= i < |kv| :: kv[i].0
  }

  /** The dictionary that `**kwargs` denotes: a later pair for the same key wins. */
  function AsDict(kv: seq<(string, Value)>): (m: map<string, Value>)
    ensures m.Keys == KeysOf(kv)
  {
    if kv == [] then map[]
    else
      KeysOfCons(kv);
      map[kv[0].0 := kv[0].1] + AsDict(kv[1..])
  }

  lemma KeysOfCons(kv: seq<(string, Value)>)
    requires kv != []
    ensures KeysOf(kv) == {kv[0].0} + KeysOf(kv[1..])
  {
    forall k | k in KeysOf(kv) ensures k in {kv[0].0} + KeysOf(kv[1..]) {
      var i :| 0 <= i < |kv| && kv[i].0 == k;
      if i > 0 { assert kv[1..][i - 1].0 == k; }
    }
    forall k | k in KeysOf(kv[1..]) ensures k in KeysOf(kv) {
      var i :| 0 <= i < |kv[1..]| && kv[1..][i].0 == k;
      assert kv[i + 1].0 == k;
    }
  }

  /** In the dictionary of a pair list, each key holds the value of its last pair. */
  lemma {:induction false} AsDictLastWins(kv: seq<(string, Value)>, i: nat)
    requires i < |kv| && forall j :: i < j < |kv| ==> kv[j].0 != kv[i].0
    ensures kv[i].0 in AsDict(kv) && AsDict(kv)[kv[i].0] == kv[i].1
  {
    KeysOfCons(kv);
    if i > 0 {
      forall j | i - 1 < j < |kv[1..]| ensures kv[1..][j].0 != kv[1..][i - 1].0 {
        assert kv[j + 1].0 != kv[i].0;
      }
      AsDictLastWins(kv[1..], i - 1);
    }
  }

  /** Appending a pair to the list updates its dictionary at that key. */
  lemma {:induction false} AsDictSnoc(kv: seq<(string, Value)>, key: string, value: Value)
    ensures AsDict(kv + [(key, value)]) == AsDict(kv)[key := value]
    decreases |kv|
  {
    if kv == [] {
      assert [(key, value)][1..] == [];
    } else {
      assert (kv + [(key, value)])[1..] == kv[1..] + [(key, value)];
      AsDictSnoc(kv[1..], key, value);
    }
  }

  /** Updating a key and then merging later pairs is merging the update with them. */
  lemma MergeAfterUpdate(m: map<string, Value>, k: string, v: Value, later: map<string, Value>)
    ensures m[k := v] + later == m + (map[k := v] + later)
  {
  }

  /** Merging and then updating a key is merging the updated map. */
  lemma MergeThenUpdate(m: map<string, Value>, later: map<string, Value>, k: string, v: Value)
    ensures (m + later)[k := v] == m + later[k := v]
  {
  }

  // Abstract I/O outcomes shared by the links

  /** What a received message decodes to (UTF-8 and JSON decoding are abstract). */
  datatype Payload =
    | Undecodable                          // UnicodeDecodeError: treated as no data
    | Blank                                // nothing left after `strip()`
    | InvalidJson                          // JSONDecodeError
    | NonObject(truthy: bool)              // valid JSON that is not an object; `truthy` is its truth value
    | Object(pairs: seq<(string, Value)>)  // a JSON object, keys in order

  /** `json.loads` yields each key of an object once. */
  predicate WellDecoded(p: Payload) {
    p.Object? ==> forall i, j :: 0 <= i < j < |p.pairs| ==> p.pairs[i].0 != p.pairs[j].0
  }

  /** The outcome of `recv` on a TCP socket. */
  datatype Received =
    | ZeroBytes                            // the peer closed the connection
    | ConnectionLost                       // ConnectionResetError, ConnectionAbortedError or a timeout
    | SocketFailed                         // any other socket error (OSError)
    | Message(payload: Payload)

  /** The outcome of `sendall` on a TCP socket. */
  datatype SendOutcome =
    | Sent
    | SendLost                             // ConnectionResetError, ConnectionAbortedError or a timeout
    | SendFailed                           // any other socket error, such as BrokenPipeError

  /** How a handler that turns resets, aborts and timeouts into DataError treats the outcome
      of a `sendall`: any other socket error escapes it. */
  function SendVerdict(o: SendOutcome): (v: Verdict)
    ensures v == Continue <==> o == Sent
    ensures v == TearDown <==> o == SendLost
    ensures v.Crash? ==> v.fault == OSError
  {
    match o
    case Sent => Continue
    case SendLost => TearDown
    case SendFailed => Crash(OSError)
  }

  /** A client socket field: None, a socket object, or a socket object that was closed. */
  datatype SocketState = NoSocket | Open | Closed

  /** How a cycle ends: the loop goes on, the link is torn down (DataError, or a
      SerialException on a serial link), or an uncaught exception ends the thread. */
  datatype Verdict = Continue | TearDown | Crash(fault: Fault)

  function Abs(x: real): (r: real)
    ensures r >= 0.0 && (r == x || r == -x)
  {
    if x < 0.0 then -x else x
  }
}
