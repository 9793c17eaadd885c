# ROV data routing, controls and vision helpers in Dafny

This project models the data-routing and safety layer of the ncl-ROVers 2018-19 underwater
vehicle, together with a few small rule sets around it:

- **The Raspberry Pi's partitioned store** (`PiDataManager`). One dictionary per endpoint
  (`SURFACE`, `Ard_T`, `Ard_M`, `Ard_I`), with fixed transmission-key sets and a reverse lookup
  from every actuator or sonar key to the Arduino that owns it. It has three writes:
  - a surface write, which ramps an existing value by 2 per call;
  - an Arduino write, which mirrors the pairs into the surface dictionary;
  - the fail-safe reset of twelve actuators to 1500.
- **The surface station's store** (`SurfaceDataManager`): plain `set`/`clear`/`get`, and the
  transmit view with its current safeguard. The current model and the quadratic root solver are
  left abstract, as the parameters `amp` and `roots`.
- **The Pi server** (`PiServer`). The surface-facing exchange and its accept/exchange/fail-safe
  session loop; the pairing of serial ports with Arduino ids; and each Arduino's serial exchange
  and open/retry/close loop.
- **The surface client** (`SurfaceConnection`): send the transmit view, then receive and apply
  the reply, then reconnect and `reconnect()`.
- **The surface video receiver** (`SurfaceVideoStream`). It collects bytes until the buffer ends
  with the end marker "Frame was successfully sent". The bytes before the marker become the frame.
- **The gamepad controller** (`Controller`):
  - integer `normalise`;
  - the sensitivity-gated axis setters and the trigger and hat getters;
  - the nine thruster rules and three motor rules;
  - resetting to defaults and setting the driving mode;
  - the change-detecting push of outputs to the surface store.
- **The dam grid** (`DamGrid`): the twelve squares, the bounded position setter, first-crack-wins
  marking with the length clamped to [8, 20], and the three-row text rendering.
- **The discrete parts of the vision helpers** (`VisionTools`):
  - the shape decision rule and the shape tally;
  - the 3x3 frame partition;
  - the floor-averaged, offset centroids.

Values travelling between the ends are `Num(real)` or `Text(string)` (`Common.Value`).

Python exceptions are a `Fault` datatype. A fault that ends a thread is the verdict `Crash`.
A DataError that ends an exchange loop is the verdict `TearDown`.

I/O is abstract. Sockets, serial ports, `recv`, decoding and JSON parsing are replaced by the
outcome of each step:
- a received message with a decoded payload;
- a lost link;
- a refused connection;
- an unsuccessful write or open.

A loop over such outcomes is a function over a sequence of them. The classes (`DataManager`,
`Server`, `Arduino`, `Connection`, `VideoStream`, `Controller`, `Dam`) hold the fields the
source updates in place. Each of their methods is proved equal to the specification function
that the lemmas are about.

### Where the documentation and the code differ

The model follows the code. The two exceptions are the defects under "## Findings": each is
modelled as written, and the rest of the model uses its corrected form.

- **The Pi ramp overshoots odd gaps.** A stored value differing from the request by 1 flips
  between request+1 and request-1 forever (`PiDataManager.RampOscillatesOnUnitGap`). Exact
  convergence holds only for even gaps (`PiDataManager.RampConvergesOnEvenGap`).
- **An Arduino write only mirrors into the surface dictionary.** It never writes the Arduino's
  own partition (`PiDataManager.ArduinoWriteMirrors`).
- **`get(index, keys...)` on the Pi raises KeyError** for a requested transmission key not yet
  stored, rather than leaving it out (`PiDataManager.Get`).
- **Some surface messages end the Pi's server thread** instead of being ignored
  (`PiServer.SurfaceUnknownKeyCrashes`; `PiServer.SessionWellBehavedRunsOn` states when none
  does):
  - an object naming a key that no Arduino owns raises KeyError;
  - a JSON value that is not an object raises TypeError.

  On the surface side, a reply that is not an object crashes the connection
  (`SurfaceConnection.ReplyHandling`).
- **Message keys can bind to `set`'s own parameters.** `set(SURFACE, **obj)` and
  `set(id, **obj)` bind the object against `set(self, index, default=False, **kwargs)`
  (`PiDataManager.Bind`):
  - a "self" or "index" key raises TypeError before anything is written;
  - a truthy "default" key performs the fail-safe reset instead of writing the pairs
    (`PiServer.SurfaceKeywordBinding`, `PiServer.ArduinoKeywordBinding`).
- **Only resets, aborts and timeouts are caught on the Pi's surface link.** Any other socket
  error, such as BrokenPipeError on the reply, ends the server thread without
  `_on_surface_disconnected`. The client socket is not closed and the actuators keep their last
  values (`PiServer.SessionSocketErrorSkipsReset`, `PiServer.SocketErrorLeavesThrusterRunning`).
- **The video receiver catches only resets, aborts and UnpicklingError.** Any other socket
  error leaves the exchange with the socket neither closed nor dropped
  (`SurfaceVideoStream.RecvErrorKeepsSocket`, `SurfaceVideoStream.AckErrorKeepsSocket`). A
  buffer that is exactly the end marker unpickles no bytes, and the EOFError ends the thread
  (`SurfaceVideoStream.BareMarkerEndsThread`).
- **The safeguard fails when a root is undefined.** It raises ValueError when the root solver
  has no solution (a negative discriminant), and TypeError when a guarded value is not a number
  (`SurfaceDataManager.SafeguardFaults`).
- **`reconnect()` cannot reach the link's socket.** The module documentation
  (connection.py:27-29) offers `reconnect()` as the way to restart the link. But `_connect`
  runs in a separate process started by `connect()` (connection.py:88, 190), so the caller's
  `_socket` is still None and `reconnect()` raises AttributeError. The model lets `reconnect`
  act on the socket of `_connect`, as documented, and shows what would follow:
  - closed during an exchange, the link is torn down and rebuilt
    (`SurfaceConnection.ClosedSocketTearsDown`);
  - closed between connection attempts, every later `connect` fails
    (`SurfaceConnection.ClosedSocketNeverReconnects`).
- **An unknown `deviceID` ends the Arduino thread.** The `except KeyError` of
  server.py:376-378 says that a reply with an invalid identifier is meant to be dropped. But
  `self._id = data["deviceID"]` (server.py:368) accepts any value, and `set` with an index that
  is not the surface's only writes the surface dictionary (data_manager.py:196-200). The next
  cycle's `get(self._id)` (server.py:346) runs outside any `try` and raises KeyError, which
  `_listen` does not catch (server.py:412-419) (`PiServer.UnknownDeviceIdEndsLink`).
- **The dam position setter accepts 12**, although squares are 0..11. A later `mark_crack` then
  raises IndexError (`DamGrid.PositionEdges`).

## Model

| member | source | states |
|---|---|---|
| Common.SendVerdict | raspberry-pi-master/communication/server.py:272-276 | a `sendall` continues the loop iff it goes through, tears the link down iff reset, aborted or timed out, and otherwise raises OSError |
| PiDataManager.KeysLookupOwners | raspberry-pi-master/communication/data_manager.py:115-126 | the three Arduino transmission sets are pairwise disjoint; the reverse lookup covers exactly their union, maps every key to the Arduino whose set holds it, and never to SURFACE |
| PiDataManager.DefaultKeysOwned | raspberry-pi-master/communication/data_manager.py:67-80 | every one of the twelve DEFAULT keys has an owning Arduino partition other than SURFACE |
| PiDataManager.Get | raspberry-pi-master/communication/data_manager.py:128-145 | an unknown index is a KeyError; with no keys the result is exactly the stored keys of that partition that lie in its transmission set, with their stored values; with keys it fails (KeyError) iff some requested transmission key is not stored, and otherwise returns exactly the requested transmission keys |
| PiDataManager.WriteAll | raspberry-pi-master/communication/data_manager.py:173-200 | the kwargs loop of `set` keeps all four partitions; its meaning is stated by the lemmas below |
| PiDataManager.RampStep | raspberry-pi-master/communication/data_manager.py:186-194 | a ramp step changes the stored number by exactly -2, 0 or +2, toward the request, is 0 iff equal, shrinks a gap of at least 2 by 2, and overshoots a gap below 2 |
| PiDataManager.RampNonNumber | raspberry-pi-master/communication/data_manager.py:188 | ramping a non-number raises TypeError |
| PiDataManager.RampConvergesOnEvenGap | raspberry-pi-master/communication/data_manager.py:188-194 | from an even gap of 2k the value reaches the request after k writes and stays there |
| PiDataManager.RampSettled | raspberry-pi-master/communication/data_manager.py:188-194 | a value equal to the request is never changed by further writes |
| PiDataManager.RampOscillatesOnUnitGap | raspberry-pi-master/communication/data_manager.py:188-194 | from a gap of 1 the value alternates between request+1 and request-1 forever |
| PiDataManager.SurfaceWriteOne | raspberry-pi-master/communication/data_manager.py:180-194 | a surface write of a key not yet stored in its owner stores the value verbatim; of a stored number, it stores one ramp step |
| PiDataManager.SurfaceWriteValues | raspberry-pi-master/communication/data_manager.py:177-194 | a surface `set` of distinct actuator keys with numbers, on numeric partitions, leaves each key at its value if it was not yet stored, and one ramp step from its stored value toward it otherwise |
| PiDataManager.SurfaceWriteOneFrame | raspberry-pi-master/communication/data_manager.py:177-194 | one surface pair fails with KeyError iff its key has no owner, fails otherwise only with TypeError, and on success changes only that key of its owning partition |
| PiDataManager.OwnersOnlyChangedTrans | raspberry-pi-master/communication/data_manager.py:177-194 | writes that each change only their keys' owner entries compose into one that changes only the union |
| PiDataManager.SurfaceWriteFrame | raspberry-pi-master/communication/data_manager.py:177-194 | a surface `set` changes only the owning Arduino entries of the given keys: the surface dictionary and every other key are unchanged |
| PiDataManager.SurfaceWriteFaults | raspberry-pi-master/communication/data_manager.py:177-194 | a surface `set` raises only KeyError or TypeError, and always raises when some key has no owner |
| PiDataManager.SurfaceWriteNumeric | raspberry-pi-master/communication/data_manager.py:177-194 | numeric pairs with known keys never fault and keep the Arduino partitions numeric |
| PiDataManager.ArduinoWriteOne | raspberry-pi-master/communication/data_manager.py:196-200 | one Arduino pair is stored verbatim in the surface dictionary |
| PiDataManager.ArduinoWriteMirrors | raspberry-pi-master/communication/data_manager.py:196-200 | an Arduino `set` merges all pairs verbatim into the surface dictionary (last duplicate wins), never ramps, never touches any Arduino partition and never faults |
| PiDataManager.ResetKeysEffect | raspberry-pi-master/communication/data_manager.py:165-171 | the default loop sets each visited key to 1500 in its owner and leaves every other entry as it was |
| PiDataManager.ResetKeysMeaning | raspberry-pi-master/communication/data_manager.py:165-171 | the default loop keeps the partitions, leaves the surface dictionary alone and resets exactly the listed keys |
| PiDataManager.ResetDefaults | raspberry-pi-master/communication/data_manager.py:164-171 | a default `set` keeps the four partitions |
| PiDataManager.ResetDefaultsEffect | raspberry-pi-master/communication/data_manager.py:164-171 | a default `set` puts all twelve DEFAULT keys at 1500 in their owners, ignores index and kwargs, and changes nothing else |
| PiDataManager.ResetDefaultsIdle | raspberry-pi-master/communication/data_manager.py:164-171 | after a default `set` every DEFAULT key is stored at 1500 |
| PiDataManager.ResetOfResetIsSame | raspberry-pi-master/communication/data_manager.py:164-171 | resetting a reset store gives the same store |
| PiDataManager.ResetsTwice | raspberry-pi-master/communication/data_manager.py:164-171 | resetting the same keys twice is the same as resetting them once |
| PiDataManager.ResetDefaultsIdempotent | raspberry-pi-master/communication/data_manager.py:164-171 | the default `set` is idempotent |
| PiDataManager.DataManager.constructor | raspberry-pi-master/communication/data_manager.py:100-112 | the four partitions start empty |
| PiDataManager.DataManager.Set | raspberry-pi-master/communication/data_manager.py:147-200 | `set` with default performs the reset and cannot fail; without it, the kwargs loop and its fault |
| PiDataManager.DataManager.ResetToDefaults | raspberry-pi-master/communication/data_manager.py:164-171 | the in-place default loop ends in the reset store |
| PiDataManager.DataManager.WritePairs | raspberry-pi-master/communication/data_manager.py:173-200 | the in-place kwargs loop ends in the state and fault of the specification, stopping at the first fault |
| PiDataManager.Without | raspberry-pi-master/communication/data_manager.py:147 | the pairs bound to `**kwargs` are those of the object minus one key, in order: their keys are the object's keys minus that key, and nothing is dropped when the key is absent |
| PiDataManager.AsDictWithout | raspberry-pi-master/communication/data_manager.py:147 | the dictionary of `kwargs` is the object's dictionary with that one key removed |
| PiDataManager.Bind | raspberry-pi-master/communication/data_manager.py:147 | binding `**obj` to `set(self, index, default=False, **kwargs)` raises TypeError iff the object names "self" or "index"; otherwise `default` is true iff the object has a truthy "default", and `kwargs` holds every other pair |
| PiDataManager.SetCall | raspberry-pi-master/communication/data_manager.py:147-200 | `set(index, **obj)`: a failed binding leaves the store unchanged; otherwise the reset or the kwargs loop runs, and the partitions stay well formed |
| PiDataManager.SetCallWrites | raspberry-pi-master/communication/data_manager.py:147-200 | without "self", "index" or a truthy "default", `set(index, **obj)` writes the pairs other than "default", in order |
| PiServer.SurfaceExchange | raspberry-pi-master/communication/server.py:238-276 | one surface exchange keeps the partitions |
| PiServer.SurfaceReplyIsTransmissionView | raspberry-pi-master/communication/server.py:272-276 | the reply is exactly `get(SURFACE)` of the updated store |
| PiServer.SurfaceIgnoresBadPayload | raspberry-pi-master/communication/server.py:257-276 | undecodable, blank or invalid JSON leaves the store unchanged and the reply is still sent; the loop goes on iff the reply goes through, a reset, abort or timeout on it tears the link down, and any other socket error raises OSError |
| PiServer.SurfaceLossTearsDown | raspberry-pi-master/communication/server.py:246-254 | a zero-byte read, reset, abort or timeout ends the exchange loop with the store unchanged and no reply; any other socket error on `recv` ends the thread with OSError |
| PiServer.SurfaceObjectWrites | raspberry-pi-master/communication/server.py:263-276 | a valid object is applied as `set(SURFACE, **obj)`, keyword binding included; the thread crashes iff that call raises or the reply meets a socket error other than a reset, abort or timeout |
| PiServer.SurfaceKeywordBinding | raspberry-pi-master/communication/server.py:263-269 | a "self" or "index" key crashes the thread with TypeError, with the store unchanged and no reply; a truthy "default" resets every actuator, writes no pair, and is answered |
| PiServer.ActuatorKeysBindPlainly | raspberry-pi-master/communication/data_manager.py:147 | an object of actuator keys binds entirely to `kwargs`, with `default` false |
| PiServer.SurfaceUnknownKeyCrashes | raspberry-pi-master/communication/server.py:263-269 | an object with a key, other than "default", that no Arduino owns crashes the thread, unless a truthy "default" turns the call into a reset |
| PiServer.SurfaceWellBehavedNoCrash | raspberry-pi-master/communication/server.py:263-269 | numeric pairs with known keys never make the store raise, keep the Arduino partitions numeric and change only their own entries |
| PiServer.SessionFailSafe | raspberry-pi-master/communication/server.py:170-236 | whenever the session ends without a client, so by a teardown and not by an exception, every DEFAULT key is back at 1500 |
| PiServer.SessionWellBehavedRunsOn | raspberry-pi-master/communication/server.py:170-205 | with no socket error other than resets, aborts and timeouts, and only numeric actuator pairs in the messages, the session loop never crashes |
| PiServer.SessionSocketErrorSkipsReset | raspberry-pi-master/communication/server.py:196-205 | a socket error other than a reset, abort or timeout, on `recv` or on the reply, ends the thread with the client still connected and the store as the cycle left it, without the reset |
| PiServer.SocketErrorLeavesThrusterRunning | raspberry-pi-master/communication/server.py:196-236 | a message setting Thr_FP to 1600 whose reply fails with an uncaught socket error leaves Thr_FP at 1600 when the thread ends, so not every actuator is idle |
| PiServer.ResetKeepsNumeric | raspberry-pi-master/communication/server.py:221-236 | the fail-safe reset keeps the Arduino partitions numeric |
| PiServer.PortIds | raspberry-pi-master/communication/server.py:146-168 | the pairing succeeds iff there are at most three ports, and pairs the i-th port with the i-th id |
| PiServer.DefaultPortsPairing | raspberry-pi-master/communication/server.py:90-112 | the default ports /dev/ttyACM0..2 are paired with Ard_I, Ard_T and Ard_M |
| PiServer.ArduinoExchange | raspberry-pi-master/communication/server.py:338-378 | one Arduino exchange keeps the partitions |
| PiServer.ArduinoWritesCurrentState | raspberry-pi-master/communication/server.py:346-349 | for an id that has a transmission set, every cycle first writes `get(id)` of the current store, and that lookup never fails |
| PiServer.UnknownDeviceIdEndsLink | raspberry-pi-master/communication/server.py:346-378 | a `deviceID` naming no index is stored as the id without error, and the next cycle's `get(id)` ends the thread with KeyError |
| PiServer.ArduinoObjectMirrors | raspberry-pi-master/communication/server.py:365-371 | an object with a deviceID, no "self" or "index" and no truthy "default" sets the id from it and mirrors all its pairs except "default" into the surface dictionary |
| PiServer.ArduinoKeywordBinding | raspberry-pi-master/communication/server.py:365-371 | once the id is taken from deviceID, a "self" or "index" key crashes the thread with TypeError and writes nothing, and a truthy "default" resets every actuator instead of mirroring |
| PiServer.ArduinoIgnoresBadData | raspberry-pi-master/communication/server.py:352-378 | undecodable or blank lines, invalid JSON, an empty object and an object without deviceID change nothing, and the loop goes on |
| PiServer.LinkStep | raspberry-pi-master/communication/server.py:380-419 | one pass of the serial loop keeps the partitions |
| PiServer.LinkSerialFailureCloses | raspberry-pi-master/communication/server.py:416-419 | a failed write or read closes the port and leaves the store unchanged |
| PiServer.LinkRetriesWhileClosed | raspberry-pi-master/communication/server.py:398-409 | while `open` fails, the loop retries with the port closed and the store unchanged |
| PiServer.LinkQuietStaysOpen | raspberry-pi-master/communication/server.py:412-415 | blank reads keep the port open and change nothing |
| PiServer.Arduino.constructor | raspberry-pi-master/communication/server.py:296-336 | a new link holds the shared store, its port and id, with the port closed |
| PiServer.Arduino.HandleData | raspberry-pi-master/communication/server.py:338-378 | `_handle_data` updates the store and id as the exchange function says |
| PiServer.Arduino.Step | raspberry-pi-master/communication/server.py:380-419 | one pass of `_listen` updates store, id and port as the step function says |
| PiServer.Arduino.Listen | raspberry-pi-master/communication/server.py:380-419 | `_listen` over a sequence of serial outcomes ends as the run function says |
| PiServer.Server.constructor | raspberry-pi-master/communication/server.py:90-112 | a new server has a fresh, valid store and no client |
| PiServer.Server.InitLowLevel | raspberry-pi-master/communication/server.py:146-168 | one link per port, paired with the ids in order, sharing the server's store, ports closed; more than three ports fail |
| PiServer.Server.HandleData | raspberry-pi-master/communication/server.py:238-276 | `_handle_data` updates the store and replies as the exchange function says |
| PiServer.Server.OnSurfaceDisconnected | raspberry-pi-master/communication/server.py:221-236 | a disconnect drops the client and performs the default reset |
| PiServer.Server.ListenHighLevel | raspberry-pi-master/communication/server.py:170-205 | the accept/exchange/fail-safe loop ends as the session function says |
| SurfaceDataManager.Selected | surface-master/communication/data_manager.py:194-195 | the transmit selection holds only stored transmission keys with their values: all of them with no keys, exactly the requested ones otherwise |
| SurfaceDataManager.Closer | surface-master/communication/data_manager.py:222-225 | picks one of the two roots, the one closer to the value, the first on a tie |
| SurfaceDataManager.Currents | surface-master/communication/data_manager.py:201 | the per-key currents are computed for exactly the guarded keys present; a non-number is a TypeError |
| SurfaceDataManager.TotalCurrent | surface-master/communication/data_manager.py:204 | the loop sums the modelled currents of the guarded keys |
| SurfaceDataManager.ScaleAll | surface-master/communication/data_manager.py:210-225 | fails with ValueError iff some guarded value has no roots; otherwise replaces each non-idle value by the closer scaled root and keeps idle values |
| SurfaceDataManager.SafeguardSelected | surface-master/communication/data_manager.py:186-232 | the safeguard method computes the safeguard function |
| SurfaceDataManager.SafeguardSelection | surface-master/communication/data_manager.py:194-232 | the transmit result has exactly the keys of the selection |
| SurfaceDataManager.SafeguardUnderLimit | surface-master/communication/data_manager.py:201-229 | at or below the 99 A limit the transmit result equals the stored values |
| SurfaceDataManager.SafeguardKeepsIdleAndUnguarded | surface-master/communication/data_manager.py:163-219 | keys outside the guarded list and keys at the idle value 1500 are never altered |
| SurfaceDataManager.GuardCloserRoot | surface-master/communication/data_manager.py:210-229 | over the limit, each non-idle guarded value becomes the closer of its scaled roots |
| SurfaceDataManager.SafeguardFaults | surface-master/communication/data_manager.py:198-225 | the safeguard fails only on a non-number or a value without roots |
| SurfaceDataManager.DataManager.constructor | surface-master/communication/data_manager.py:83-102 | the store starts as the persisted cache |
| SurfaceDataManager.DataManager.Get | surface-master/communication/data_manager.py:104-127 | non-transmit `get` returns the whole store with no keys, and exactly the requested present keys otherwise |
| SurfaceDataManager.DataManager.Set | surface-master/communication/data_manager.py:129-142 | `set` overwrites each given key verbatim and keeps the rest |
| SurfaceDataManager.DataManager.Clear | surface-master/communication/data_manager.py:144-149 | `clear` empties the store |
| SurfaceDataManager.DataManager.GetTransmit | surface-master/communication/data_manager.py:120-123 | transmit `get` is the safeguard of the store, and leaves the store unchanged |
| SurfaceConnection.Connection.constructor | surface-master/communication/connection.py:75-98 | a new client has the shared store and no socket |
| SurfaceConnection.Connection.HandleData | surface-master/communication/connection.py:100-137 | `_handle_data` updates the store as the exchange function says |
| SurfaceConnection.Connection.Step | surface-master/communication/connection.py:139-182 | one pass of `_connect` updates store and socket as the pass function says |
| SurfaceConnection.Connection.Connect | surface-master/communication/connection.py:139-182 | `_connect` over a sequence of outcomes ends as the run function says |
| SurfaceConnection.Connection.Reconnect | surface-master/communication/connection.py:193-199 | `reconnect` closes an existing socket, and raises AttributeError when there is none |
| SurfaceConnection.SendsBeforeReceiving | surface-master/communication/connection.py:110-113 | every cycle sends the transmit view of the store before receiving |
| SurfaceConnection.LossTearsDown | surface-master/communication/connection.py:116-122 | a failed send, zero bytes, a reset, an abort or a socket error ends the exchange, and the socket is closed and reset to None |
| SurfaceConnection.ReplyHandling | surface-master/communication/connection.py:125-137 | undecodable, blank or invalid replies change nothing; an object is merged into the store unless a "self" key makes `set` raise TypeError; a non-object raises TypeError |
| SurfaceConnection.RefusedRetries | surface-master/communication/connection.py:180-182 | refused connects retry with the store unchanged and the socket kept |
| SurfaceConnection.TearDownThenFreshSocket | surface-master/communication/connection.py:152-175 | after a teardown the socket is None, and the next attempt creates a fresh one |
| SurfaceConnection.ClosedSocketNeverReconnects | surface-master/communication/connection.py:150-182 | if `reconnect` closed the socket of `_connect` between attempts, every later connect would fail, forever |
| SurfaceConnection.ClosedSocketTearsDown | surface-master/communication/connection.py:165-175 | a socket closed by `reconnect` during the exchange ends it, and the next attempt starts over with a fresh socket; a failing safeguard, computed before the send, escapes instead |
| SurfaceVideoStream.Receive | surface-master/communication/video_stream.py:111-142 | the frame changes only on a chunk completing a buffer ending with the marker; a continuing, non-empty buffer is the old buffer plus the chunk; a non-empty buffer is emptied only when a frame completes; EOFError is raised iff the buffer is exactly the marker |
| SurfaceVideoStream.Pass | surface-master/communication/video_stream.py:144-187 | a pass changes the frame only while the thread is alive, connected, and the chunk completes the marker |
| SurfaceVideoStream.ChunkAppended | surface-master/communication/video_stream.py:121-129 | a chunk that leaves a non-empty buffer without the marker is appended, and the frame is kept |
| SurfaceVideoStream.EmptyChunkUnnoticed | surface-master/communication/video_stream.py:121-142 | an empty chunk ends the link only when the buffer is empty, or when it completes a non-empty frame that does not unpickle or whose ACK is reset or aborted |
| SurfaceVideoStream.MarkerCompletesFrame | surface-master/communication/video_stream.py:129-138 | a buffer equal to a non-empty payload plus the marker yields the payload as the frame and an empty buffer |
| SurfaceVideoStream.TearDownKeepsBuffer | surface-master/communication/video_stream.py:140-142 | a lost link closes the socket but keeps the partial buffer |
| SurfaceVideoStream.RecvErrorKeepsSocket | surface-master/communication/video_stream.py:119-142 | a socket error on `recv` other than a reset or abort leaves the exchange loop with the socket still open and kept, and the buffer and frame unchanged |
| SurfaceVideoStream.AckErrorKeepsSocket | surface-master/communication/video_stream.py:129-142 | such an error on the ACK keeps the completed frame and the empty buffer, and also leaves the loop with the socket kept |
| SurfaceVideoStream.BareMarkerEndsThread | surface-master/communication/video_stream.py:129-132 | a buffer that is exactly the marker ends the thread with EOFError, keeping buffer and frame, and no later event changes anything |
| SurfaceVideoStream.DeadStreamIgnoresEvents | surface-master/communication/video_stream.py:144-187 | once the thread has ended, no event changes the receiver |
| SurfaceVideoStream.RoundTrip | raspberry-pi-master/communication/video_stream.py:145-148 | if the sender's non-empty payload plus marker arrives in chunks, every ACK goes through and no earlier chunk boundary ends with the marker, the frame received is exactly the payload |
| SurfaceVideoStream.PassConsistent | surface-master/communication/video_stream.py:144-187 | the receiver never keeps a closed socket, and exchanges only over an open one |
| SurfaceVideoStream.RefusedKeepsFrame | surface-master/communication/video_stream.py:144-187 | refused connects keep the buffer and the frame |
| SurfaceVideoStream.VideoStream.constructor | surface-master/communication/video_stream.py:69-99 | a new receiver has an empty buffer, no frame, no socket and the end marker |
| SurfaceVideoStream.VideoStream.Frame | surface-master/communication/video_stream.py:101-109 | `frame` is the last complete frame, None before the first |
| SurfaceVideoStream.VideoStream.HandleData | surface-master/communication/video_stream.py:111-142 | `_handle_data` updates buffer and frame as the framing function says |
| SurfaceVideoStream.VideoStream.Step | surface-master/communication/video_stream.py:144-187 | one pass of `_connect` updates the receiver as the pass function says |
| SurfaceVideoStream.VideoStream.Connect | surface-master/communication/video_stream.py:144-187 | `_connect` over a sequence of outcomes ends as the run function says |
| Controller.Trunc | surface-master/control/controller.py:179 | `int()` truncates toward zero: it stays within one of the real, on the side of zero |
| Controller.NormaliseEnds | surface-master/control/controller.py:167-179 | `normalise` maps the current minimum to the intended minimum and the current maximum to the intended maximum |
| Controller.NormaliseBounds | surface-master/control/controller.py:167-179 | `normalise` of a value within the current range lies within the intended range, in either orientation |
| Controller.IdleIsCentre | surface-master/control/controller.py:220-274 | the normalised stick centre and the released triggers are the idle value 1500; the button sensitivity is 400 and the arm and box speeds are 100 |
| Controller.ReadingRanges | surface-master/control/controller.py:377-480 | stick readings lie in 1100..1900, the left trigger in 1100..1500, the right trigger in 1500..1900 |
| Controller.TriggerEnds | surface-master/control/controller.py:444-480 | the left trigger maps 0..255 onto 1500..1100 and the right trigger onto 1500..1900 |
| Controller.Gate | surface-master/control/controller.py:377-384 | an axis setter stores the new value iff it is an extreme or differs by at least 100; otherwise it keeps the old one |
| Controller.AtRestAllIdle | surface-master/control/controller.py:674-990 | with sticks, triggers and hat idle and no button pressed, all twelve outputs are 1500 |
| Controller.ReleasedAtRest | surface-master/control/controller.py:517-556 | the released pad reads as at rest |
| Controller.SwayMirrors | surface-master/control/controller.py:674-739 | for sway alone, the fore-port thruster is 2*1500 - rx and the fore-starboard thruster is rx, mirrored about idle, with the aft pair matching |
| Controller.SurgeOpposesPairs | surface-master/control/controller.py:674-805 | for surge alone, the fore thrusters agree, the aft thrusters agree, and fore and aft mirror about idle |
| Controller.YawPairsDiagonals | surface-master/control/controller.py:674-805 | for yaw alone, diagonal thrusters agree and mirror about idle, the right trigger taking priority |
| Controller.VerticalPriority | surface-master/control/controller.py:806-909 | the vertical thrusters follow RB, then LB (1500 +/- 400), then pitch, then X, then B (1500 -/+ roll), independent of surge, sway and yaw |
| Controller.OutputsInRange | surface-master/control/controller.py:674-990 | readings within the PWM ranges give outputs in 1100..1900 |
| Controller.PadOutputsInRange | surface-master/control/controller.py:377-990 | any raw gamepad state in range gives outputs in 1100..1900 |
| Controller.DefaultPadAsWritten | surface-master/control/controller.py:536-540 | resetting the sticks through the gated setters leaves a small stick offset in place |
| Controller.ResetAsWrittenLeavesThrust | surface-master/control/controller.py:536-540 | after the reset as written, a left stick resting at 99 still drives the fore-port thruster at 1499 |
| Controller.DefaultPad | surface-master/control/controller.py:517-556 | the corrected reset gives the released pad |
| Controller.ResetIdlesAllOutputs | surface-master/control/controller.py:517-556 | after the corrected reset every output is 1500 |
| Controller.Changed | surface-master/control/controller.py:592-602 | a key is pushed iff it is new or its value changed, and then with the new value |
| Controller.AsStore | surface-master/control/controller.py:602 | the pushed integers become numbers under the same keys |
| Controller.PushIdempotent | surface-master/control/controller.py:592-602 | a second tick with the same outputs pushes nothing |
| Controller.PushWritesExactlyChanges | surface-master/control/controller.py:592-602 | an output key is written iff it is new or changed |
| Controller.Dispatched | surface-master/control/controller.py:558-569 | an event whose code has no setter changes nothing |
| Controller.DispatchSetters | surface-master/control/controller.py:277-515 | the hat-y setter stores the negated value, a hat of -1 drives the gripper to 1100, and the left-stick setter is gated by the sensitivity |
| Controller.Controller.constructor | surface-master/control/controller.py:236-315 | a new controller is released, in manual mode, with all outputs pushed once as 1500 |
| Controller.Controller.SetAxis | surface-master/control/controller.py:377-441 | an axis setter updates only its own field through the gate |
| Controller.Controller.OnEvent | surface-master/control/controller.py:558-569 | in manual mode an event runs its setter, otherwise nothing changes |
| Controller.Controller.SetDefaultValues | surface-master/control/controller.py:517-556 | with the corrected reset (first Findings row), the reset releases the pad, restores the roll sensitivity and makes every output 1500 |
| Controller.ImuKeys | surface-master/control/controller.py:344-361 | the readings a mode change fetches: none for manual mode, the yaw for autonomous mode, yaw, pitch and roll for balancing mode |
| Controller.Controller.SetDrivingMode | surface-master/control/controller.py:327-365 | a non-mode raises AttributeError and changes nothing; a mode is stored after the corrected reset, which makes every output 1500; the mode's IMU fetch then raises KeyError iff one of its readings is not stored, and manual mode never faults |
| Controller.Controller.TickUpdateData | surface-master/control/controller.py:571-602 | in manual mode, after a tick the last-saved map holds every current output, and the store received exactly the new or changed outputs |
| Controller.Controller.PushChanged | surface-master/control/controller.py:592-602 | the push loop records every output and writes exactly the changed ones |
| Controller.Controller.PushIfChanged | surface-master/control/controller.py:596-602 | one key is recorded and written iff it is new or changed |
| DamGrid.CrackLength | surface-master/vision/dam.py:221-231 | a crack length is clamped into [8, 20]: kept inside, raised to 8 below, lowered to 20 above |
| DamGrid.SquareIndex | surface-master/vision/dam.py:118-119 | list indexing accepts -12..11, a negative index counting from the end |
| DamGrid.MarkEffect | surface-master/vision/dam.py:102-119 | marking a square records the clamped length iff it had no crack, and no other square changes |
| DamGrid.FirstMarkWins | surface-master/vision/dam.py:118-119 | a second mark of the same square changes nothing |
| DamGrid.MarkedWithinLimits | surface-master/vision/dam.py:184-231 | every recorded crack length stays within [8, 20] |
| DamGrid.PositionEdges | surface-master/vision/dam.py:110-119 | marking with no position raises TypeError, position 12 raises IndexError, and -1 marks square 11 |
| DamGrid.Centre | surface-master/vision/dam.py:150-152 | the format spec `^5` pads to the width with the text in the middle and an odd space on the right, leaving longer text alone |
| DamGrid.Cells | surface-master/vision/dam.py:150-152 | one cell per square, in index order |
| DamGrid.EmptyCell | surface-master/vision/dam.py:150-152 | an empty square renders as a centred X |
| DamGrid.GridLayout | surface-master/vision/dam.py:144-155 | the grid is three 33-character rows separated by newlines, and cell i sits at its fixed column |
| DamGrid.RenderLayout | surface-master/vision/dam.py:144-155 | `__str__` renders the squares three rows of four, in index order, with X for empty squares |
| DamGrid.Dam.constructor | surface-master/vision/dam.py:88-100 | a new dam has twelve squares without cracks and no position |
| DamGrid.Dam.SetPosition | surface-master/vision/dam.py:130-142 | the position setter accepts exactly 0..12 and raises ValueError otherwise, leaving the position unchanged |
| DamGrid.Dam.MarkCrack | surface-master/vision/dam.py:102-119 | `mark_crack` marks the given square, or the current position when none is given |
| VisionTools.DetectShape | surface-master/vision/tools.py:211-253 | Triangle iff 3 vertices; Circle iff neither 3 nor 4; with 4, Square iff width/height lies in [0.85, 1.15], Rectangle otherwise, including height 0 |
| VisionTools.SquareOrientation | surface-master/vision/tools.py:230-249 | the tolerance is not symmetric: width 86, height 100 is a Square; width 100, height 86 is a Rectangle |
| VisionTools.CountShapes | surface-master/vision/tools.py:275-290 | the tally has the four shapes as keys, each counting the outlines of that shape |
| VisionTools.CountsSum | surface-master/vision/tools.py:275-290 | the four counts sum to the number of outlines |
| VisionTools.TrianglesAreThreeVertexOutlines | surface-master/vision/tools.py:226-227 | the triangle count is the number of three-vertex outlines |
| VisionTools.SplitFrame | surface-master/vision/tools.py:366-383 | nine segments |
| VisionTools.SplitPartition | surface-master/vision/tools.py:366-383 | every pixel lies in exactly one segment, the one of its row band and column band, row-major |
| VisionTools.SplitSizes | surface-master/vision/tools.py:366-383 | segments are a third of the height and width, with the last row and column taking the remainder |
| VisionTools.FloorMeanBounds | surface-master/vision/tools.py:453-454 | the floor average lies between the smallest and the largest value |
| VisionTools.MeanInside | surface-master/vision/tools.py:453-454 | the floor-averaged point of points in a segment lies in that segment |
| VisionTools.OffsetsAsWrittenAgreeIffDivisible | surface-master/vision/tools.py:457-464 | the offsets as written agree with the segment origins for the first two segments, and for the third iff the width (resp. height) is divisible by 3 |
| VisionTools.LastSegmentOnly | surface-master/vision/tools.py:450-531 | a line with centroids in its third segment only ends at that segment's offset centroid |
| VisionTools.CentroidAsWrittenLeavesFrame | surface-master/vision/tools.py:462-464 | on a 9x10 frame a point in segment 5 is placed at x 11, outside the frame, where the segment origin gives 9 |
| VisionTools.LineCentroidInBand | surface-master/vision/tools.py:450-531 | a line's centroid exists iff some segment contributed, and then lies in the band its segments cover |
| VisionTools.MiddleCentroidsInBands | surface-master/vision/tools.py:386-537 | the horizontal and vertical centroids exist iff their segments contributed, and lie in the middle row band and the middle column band |
| VisionTools.LineCentroidOf | surface-master/vision/tools.py:431-531 | the accumulation loop computes the line centroid |
| VisionTools.FindCentroids | surface-master/vision/tools.py:386-537 | `find_centroids` computes both corrected line centroids |

## Left out

- Sockets, serial ports, `accept`/`connect`/`recv`/`sendall`, timeouts and `sleep` delays are
  not modelled. Each step takes the outcome of its I/O as a parameter (`SurfaceCycle`,
  `SerialEvent`, `LinkEvent`, `StreamEvent`).
- Threads, `pathos` processes and the locking of the shared store are not modelled. The links
  are sequential functions over their own event sequences.
- JSON, UTF-8 and `dill` are not modelled. A payload is an abstract `Payload`: undecodable,
  blank, invalid JSON, a non-object value, or an object as a key/value sequence. Whether
  `loads` accepts a video frame is the parameter `unpicklable`.
- The safeguard's quadratic current model, `math.sqrt` and the floating-point ratio are the
  abstract parameters `amp` and `roots`. `roots` returning None stands for a negative
  discriminant. Arithmetic is on exact reals. That the scaled total equals the limit is not
  proved, since it depends on the root solver.
- The `FanoutCache` disk persistence is not modelled. The surface store is an in-memory map,
  and a new manager starts from its persisted contents.
- DamGrid.CrackLength: Python's `round(x, 1)` is not modelled, only the clamping.
- `__str__`'s formatting of a length to text is the parameter `show`.
- OpenCV, numpy and scipy are not modelled (contour extraction, `approxPolyDP`, `moments`,
  `minAreaRect`, drawing):
  - an outline is its vertex count, width and height;
  - the centroid points of each segment are given as integer points in the segment's own
    coordinates;
  - the drawn frames are not returned.
- `find_centroids` returns empty lists for a line with no centroid. The model returns None.
- `Controller._auto_drive` and `_auto_balance` are not modelled: they are unfinished and work
  on float IMU and vision input.
- The IMU fields set on a mode change and on reset (controller.py:347-361, 553-556) are not
  stored. A mode change does fetch the readings, with its KeyError
  (`Controller.Controller.SetDrivingMode`), but the `float` conversion of a stored reading is
  not modelled.
- Controller.Controller.TickUpdateData: requires manual mode. In the other modes the tick first
  runs `_auto_drive` or `_auto_balance` (controller.py:577-589), which are not modelled.
- The `inputs` gamepad driver, the `_read` and `_update_data` polling loops and the update delay
  are not modelled. An event is a code and a state passed to `OnEvent`.
- Controller.Normalise: the division is exact before truncation, so float rounding of the
  quotient is not modelled.
- The GUI, `canon.py`, both `main.py` files and the serial ping test are not part of this model.
- The Pi camera sender is not part of this model; only its payload-then-marker order is used
  (`SurfaceVideoStream.RoundTrip`).
- The frame getter's `imdecode` is not modelled: the frame is the raw payload bytes.
- SurfaceVideoStream.Receive: `loads` of a non-empty payload either succeeds or raises
  UnpicklingError (the parameter `unpicklable`). Other exceptions it may raise on malformed
  bytes are not modelled.
- Controller.Controller.SetDefaultValues: resets through the corrected `DefaultPad`, not through
  the gated setters of controller.py:536-540. The source's own reset, which can leave a
  stick offset, is modelled by `Controller.DefaultPadAsWritten` and the first Findings row.
- Controller.Controller.SetDrivingMode: its reset is the corrected one too, for the same reason.
- SurfaceConnection.ClosedSocketNeverReconnects: assumes that `reconnect` reaches the socket of
  `_connect`. In the program `_connect` runs in another process (connection.py:88, 190), so
  this lemma describes the documented intent, not a reachable run.
- SurfaceConnection.ClosedSocketTearsDown: assumes, as ClosedSocketNeverReconnects does, that
  `reconnect` reaches the socket of `_connect`; in the program it never does.
- SurfaceConnection.Connection.Reconnect: shares the socket with `_connect` under the same
  assumption. In the program the caller's socket is always None, so `reconnect()` always
  raises AttributeError.

## Findings

| source | as written | input that shows it | evidently intended | confidence | as-written member | corrected member |
|---|---|---|---|---|---|---|
| surface-master/control/controller.py:536-540 | the reset sets the sticks to 0 through the sensitivity-gated setters, which ignore moves under 100 | left stick resting at raw 99, then a reset: the stick stays at 99 and the fore-port thruster stays at 1499 | a reset puts every stick at its centre and every output at 1500 | not executed | Controller.ResetAsWrittenLeavesThrust | Controller.ResetIdlesAllOutputs |
| surface-master/vision/tools.py:462-464 | the third segment of the middle row is offset by twice its own width (the middle column's third segment, lines 505-507, by twice its own height) | a 9x10 frame with centroid (3, 0) in segment 5: placed at (11, 3), outside the 10-pixel-wide frame, instead of (9, 3) | each segment's centroid is offset by that segment's origin in the frame | not executed | VisionTools.CentroidAsWrittenLeavesFrame | VisionTools.MiddleCentroidsInBands |
