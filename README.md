# pan-light realtime client, modelled in Dafny

This project models the browser-side session engine of pan-light's online demo,
`demo/demo-online-front/src/realtime/realtime.js`. The engine keeps one session with
the server over a WebSocket. Over it, it runs three kinds of traffic:

- correlated calls (`call` and the `call.result` messages that answer them);
- server-pushed events (`event` messages fanned out to the listeners registered with `onRemote`);
- room events (`event` messages that carry a `room` name and also go to that room's own listeners).

Every frame is compressed and then XOR-ed with the repeating key `"pan-light"`.

The model keeps the source's shape:

- `Rpc`, `Room` and the static `Room.roomMap` are classes (`Realtime.Rpc`, `Realtime.Room`,
  `Realtime.RoomTable`). Their map and sequence fields are updated in place.
- `_encrypt` and `_decrypt` are methods with index loops over byte arrays (`Codec.Encrypt`,
  `Codec.Decrypt`).

Effects leave the engine only through recorded queues:

- `wsSend(data)` appends the logical message to `Rpc.outbox`.
- `setTimeout(() => cb(args…))` appends `Task(cb, args)` to `Rpc.timers`. `Rpc.RunNextTimer` runs the oldest task.
- A call of application code is appended to `Rpc.invoked`: both the synchronous `room.new` notification and each application callback that `Rpc.RunNextTimer` runs from the timer queue.

A promise is a natural-number handle. Settling it appends `Resolved`/`Rejected` to `Rpc.settled`.

Modules:

- `Values`: JavaScript truthiness, property reads, and `v + 1` on decoded JSON values.
- `Codec`: the key stream, the two cipher loops, and their round trip.
- `Registry`: listener maps and the `'$remote.'` namespace.
- `Correlator`: the call table as a map, with `Issue`, `Complete` and the consistency invariant.
- `Realtime`: the three classes, the handshake handlers and the inbound routing.

## Source behaviour a caller may not expect

- A `call.result` for an id not in `requestMap` throws a TypeError at `realtime.js:129` or `:131`
  (`this.requestMap[id]` is `undefined`), before anything changes. `Rpc.SettleCall` and
  `Rpc.OnWsMessage` return `false` and change nothing in that case.
- Answering the `rand.check` challenge calls `openDone()` (`realtime.js:32`), so the connection counts as
  open whether or not `session.new` has arrived. See `AfterRandCheck` and `HandshakeEitherOrder`.
- Room creation reads its listeners under the plain name `'room.new'` (`realtime.js:222`), which only `on`
  and `addEventListener` register. A listener registered with `onRemote('room.new', …)` lands under
  `'$remote.room.new'` and is never called when a room is created (`Registry.RemoteNameIsNotRoomNew`); only
  a server event named `room.new` reaches it (`realtime.js:115-119`).
- Room listeners do not accumulate. `Room.addEventListener` and `off` (`realtime.js:234`, `:239`) read the
  `Map` with `.get` but write plain properties. So `on` leaves only the newest callback for a name, and
  `off` empties the name whichever callback is passed (`Room.AddEventListener`, `Room.Off`,
  `AppliedLastWins`).
- Room callbacks are looked up under `'$remote.' + event` (`realtime.js:248`), but `Room.on` adds no
  prefix. A room listener fires only if it was registered under the prefixed name.

## Model

| member | source | states |
|---|---|---|
| `Values.Truthy` | demo/demo-online-front/src/realtime/realtime.js:128 | definition of JavaScript ToBoolean on the modelled values: `undefined`, `null`, `false`, `0`, `NaN` and `""` are falsy, everything else truthy, as `if (success)` tests it |
| `Values.Member` | demo/demo-online-front/src/realtime/realtime.js:26-27 | reading a property of `undefined`/`null` throws; an object yields the field or `undefined`; any other value yields `undefined` |
| `Values.PlusOne` | demo/demo-online-front/src/realtime/realtime.js:31 | `data + 1`: numbers increment, strings get `"1"` appended, objects concatenate, `undefined` gives `NaN` |
| `Codec.KeyByte` | demo/demo-online-front/src/realtime/realtime.js:182 | definition of the key byte at stream position `i`: the code of key character `i % 9`, cut to 8 bits |
| `Codec.XorKey` | demo/demo-online-front/src/realtime/realtime.js:181-183 | definition of the key stream applied to a byte sequence: same length, byte `i` XOR-ed with `KeyByte(i)` |
| `Codec.KeyIsAscii` | demo/demo-online-front/src/realtime/realtime.js:12 | every character of `"pan-light"` is ASCII, so the key byte equals the character code |
| `Codec.KeyStreamPeriodic` | demo/demo-online-front/src/realtime/realtime.js:182 | the key byte at position `i + 9` equals the one at `i` (no nonce) |
| `Codec.XorKeyInvolutive` | demo/demo-online-front/src/realtime/realtime.js:181-195 | applying the key stream twice returns the original bytes |
| `Codec.SharedPrefixSharedCipher` | demo/demo-online-front/src/realtime/realtime.js:179-183 | inputs sharing a `k`-byte prefix give ciphers sharing that prefix |
| `Codec.Encrypt` | demo/demo-online-front/src/realtime/realtime.js:173-186 | the frame is as long as the compressed text, and byte `i` is compressed byte `i` XOR the key byte `i mod 9` |
| `Codec.XorInPlace` | demo/demo-online-front/src/realtime/realtime.js:193-195 | every byte of the array is XOR-ed in place with the key byte of its position |
| `Codec.Decrypt` | demo/demo-online-front/src/realtime/realtime.js:188-205 | the result is the decompression of the received bytes with the key stream removed |
| `Codec.DecryptUndoesEncrypt` | demo/demo-online-front/src/realtime/realtime.js:177-197 | when the compressor pair is inverse, decrypting an encrypted frame returns the original text |
| `Registry.Listeners` | demo/demo-online-front/src/realtime/realtime.js:139 | definition of `reg[name] \|\| []`: the list under `name`, empty when the name is absent (the same lookup at lines 60, 70, 115, 222 and 248) |
| `Registry.Register` | demo/demo-online-front/src/realtime/realtime.js:138-141 | the named list gains `cb` at its end; every other name keeps its list; the key set gains the name |
| `Registry.RegisterAll` | demo/demo-online-front/src/realtime/realtime.js:138-141 | definition of repeated `addEventListener` under one name: each callback registered in turn, in list order |
| `Registry.RegisterAllAppends` | demo/demo-online-front/src/realtime/realtime.js:138-141 | repeated registration keeps earlier callbacks in order and appends the new ones; other names untouched |
| `Registry.RemoteName` | demo/demo-online-front/src/realtime/realtime.js:147-149 | the registry name is `'$remote.'` followed by the event name |
| `Registry.RemoteNameInjective` | demo/demo-online-front/src/realtime/realtime.js:115 | two distinct event names never share a remote registry slot |
| `Registry.RemoteNameIsNotRoomNew` | demo/demo-online-front/src/realtime/realtime.js:222 | no `onRemote` registration is found by the `'room.new'` lookup |
| `Correlator.Issue` | demo/demo-online-front/src/realtime/realtime.js:159 | the id maps to the new pending entry; other ids keep their entries; a colliding id is overwritten |
| `Correlator.Complete` | demo/demo-online-front/src/realtime/realtime.js:126-134 | fails exactly when the id is absent; otherwise removes exactly that key and resolves (truthy `success`) with `result` or rejects with `error` the entry's promise |
| `Correlator.IssuePreservesConsistent` | demo/demo-online-front/src/realtime/realtime.js:151-167 | a call with a freshly allocated promise keeps promises unique, allocated and unsettled |
| `Correlator.CompletePreservesConsistent` | demo/demo-online-front/src/realtime/realtime.js:126-134 | answering a call keeps the table consistent, so no promise settles twice |
| `Correlator.CompleteAfterIssue` | demo/demo-online-front/src/realtime/realtime.js:126-167 | a result for the id of a call settles exactly the promise that call returned and removes only that id |
| `Correlator.IssueOrphansCollidingEntry` | demo/demo-online-front/src/realtime/realtime.js:153-159 | a call whose id collides with a pending one leaves the older promise unreachable |
| `Correlator.CompletionsCommute` | demo/demo-online-front/src/realtime/realtime.js:126-134 | results for two outstanding ids in either order leave the same table and settle the same promises |
| `Realtime.RoutesToRoom` | demo/demo-online-front/src/realtime/realtime.js:121 | definition of `if (data.room)`: the message goes to a room exactly when its `room` is a non-empty string |
| `Realtime.RoomValue` | demo/demo-online-front/src/realtime/realtime.js:118 | definition of the `data.room` handed to global callbacks: the room name, or `undefined` when absent |
| `Realtime.OpeningFrame` | demo/demo-online-front/src/realtime/realtime.js:82-92 | definition of the first `onWsOpen` frame: `session.resume` with id and secret when `sessionId` is truthy, otherwise `session.new` |
| `Realtime.Scheduled` | demo/demo-online-front/src/realtime/realtime.js:115-120 | one task per callback, in list order, each with the given arguments |
| `Realtime.ScheduledAppend` | demo/demo-online-front/src/realtime/realtime.js:116-120 | scheduling one more callback appends exactly its task |
| `Realtime.FirstValue` | demo/demo-online-front/src/realtime/realtime.js:25-30 | definition of the `data` a handler receives from `cb(data.payload, data.room)` (line 118): the first argument's value, `undefined` when there is none; a room object as first argument is taken as an object without `id` or `secret` (it has only `name` and `eventListener`, lines 220-221) |
| `Realtime.Notified` | demo/demo-online-front/src/realtime/realtime.js:222-230 | every `room.new` listener is called once with the room, in order, whether or not it throws |
| `Realtime.AfterSessionNew` | demo/demo-online-front/src/realtime/realtime.js:25-28 | the session id and secret become the payload's `id`/`secret` as read by a property access, so a payload without one sets it to `undefined` and drops the earlier value; the handler throws on `undefined`/`null`; nothing else changes |
| `Realtime.AfterRandCheck` | demo/demo-online-front/src/realtime/realtime.js:30-33 | sends `{'rand.back': data + 1}` and marks the connection open; the session is untouched |
| `Realtime.HandshakeEitherOrder` | demo/demo-online-front/src/realtime/realtime.js:25-33 | session assignment and challenge give the same state in either order, and the connection ends up open |
| `Realtime.ResumeAfterAssignment` | demo/demo-online-front/src/realtime/realtime.js:82-87 | after a session with a truthy id is assigned, the opening frame resumes exactly that session |
| `Realtime.NewSessionWithoutId` | demo/demo-online-front/src/realtime/realtime.js:82-92 | without an assigned id the opening frame asks for a new session |
| `Realtime.SetAdd` | demo/demo-online-front/src/realtime/realtime.js:235 | `Set.add`: the result holds the old members and `cb` |
| `Realtime.SetDelete` | demo/demo-online-front/src/realtime/realtime.js:240 | `Set.delete`: the result holds the old members except `cb` |
| `Realtime.Effect` | demo/demo-online-front/src/realtime/realtime.js:233-241 | definition of what one room call leaves under its name: `on` leaves only its callback (a fresh `Set` plus `add`), `off` leaves nothing (a fresh `Set` plus `delete`) |
| `Realtime.Registrations` | demo/demo-online-front/src/realtime/realtime.js:222-230 | definition of the room calls the `room.new` listeners make, in order: the calls of each listener, listener by listener in list order |
| `Realtime.Applied` | demo/demo-online-front/src/realtime/realtime.js:233-241 | definition of a room's listener properties after a run of room calls: each call, in order, replaces its name's entry by its `Effect` |
| `Realtime.LastIndexUnder` | demo/demo-online-front/src/realtime/realtime.js:233-245 | a position whose call names `name` while no later call does, or -1 when no call names it |
| `Realtime.LastUnder` | demo/demo-online-front/src/realtime/realtime.js:233-245 | the last room call under a name is one of the calls and carries that name; no later call names it; `None` exactly when no call names it |
| `Realtime.AppliedConcat` | demo/demo-online-front/src/realtime/realtime.js:222-230 | making two runs of room calls one after the other equals making their concatenation |
| `Realtime.AppliedLastWins` | demo/demo-online-front/src/realtime/realtime.js:233-245 | after any run of `on`/`off` calls a name holds one callback if its last call was `on`, none if it was `off`, and its old listeners if no call names it |
| `Realtime.FirstMessageOfNewRoom` | demo/demo-online-front/src/realtime/realtime.js:213-230 | the first message of a new room is scheduled for exactly the callback of the last `room.on('$remote.'+event, h)` its `room.new` listeners made, or for nobody |
| `Realtime.Room.constructor` | demo/demo-online-front/src/realtime/realtime.js:219-221 | a new room has its name and no listener properties |
| `Realtime.Room.Announce` | demo/demo-online-front/src/realtime/realtime.js:222-230 | each `room.new` listener is invoked once with this room, in order, a throw not stopping the rest; the room's listeners afterwards are the effect of all the room calls the listeners made, in order |
| `Realtime.Room.Perform` | demo/demo-online-front/src/realtime/realtime.js:233-245 | a listener's `room.on`/`room.off` calls, made in order, leave `Applied` of the old properties: each call's name holds its `Effect`, the last call under a name winning (`AppliedLastWins`) |
| `Realtime.Room.AddEventListener` | demo/demo-online-front/src/realtime/realtime.js:233-236 | the name holds only the new callback afterwards; other names unchanged |
| `Realtime.Room.On` | demo/demo-online-front/src/realtime/realtime.js:243-245 | same effect as `AddEventListener` |
| `Realtime.Room.Off` | demo/demo-online-front/src/realtime/realtime.js:238-241 | the name holds no callback afterwards; other names unchanged |
| `Realtime.Room.HandleMsg` | demo/demo-online-front/src/realtime/realtime.js:247-254 | one task per callback under `'$remote.' + event`, in order, each with the payload |
| `Realtime.RoomTable.constructor` | demo/demo-online-front/src/realtime/realtime.js:211 | the room table starts empty |
| `Realtime.RoomTable.HandleRoomMsg` | demo/demo-online-front/src/realtime/realtime.js:213-217 | an existing room is reused without notification; a missing one is created fresh, announced to every `room.new` listener (whose room calls shape its listeners) and stored; only that key changes; the room then schedules its listeners for this same message |
| `Realtime.Rpc.constructor` | demo/demo-online-front/src/realtime/realtime.js:10-33 | empty tables and no session; the `session.new` and `rand.check` handlers are the only listeners, under their remote names |
| `Realtime.Rpc.AddEventListener` | demo/demo-online-front/src/realtime/realtime.js:138-141 | the registry becomes `Register(old, name, cb)`; nothing else changes |
| `Realtime.Rpc.On` | demo/demo-online-front/src/realtime/realtime.js:143-145 | same effect as `AddEventListener` |
| `Realtime.Rpc.OnRemote` | demo/demo-online-front/src/realtime/realtime.js:147-149 | registers under `'$remote.' + name` |
| `Realtime.Rpc.OnWsError` | demo/demo-online-front/src/realtime/realtime.js:58-66 | schedules each `'rt.error'` listener with `'realtime.error'`, in order |
| `Realtime.Rpc.OnWsClose` | demo/demo-online-front/src/realtime/realtime.js:68-79 | schedules each `'realtime.closed'` listener, then the reconnect; pending calls are untouched |
| `Realtime.Rpc.OnWsOpen` | demo/demo-online-front/src/realtime/realtime.js:81-96 | exactly two frames go out: `session.resume` with id and secret if the id is truthy, else `session.new`; then `{role: 'user'}` |
| `Realtime.Rpc.Call` | demo/demo-online-front/src/realtime/realtime.js:151-167 | sends `{type:'call', method:'user.'+m, param, id}` with `param` defaulting to `{}`; stores a pending entry under the same id; returns that entry's promise, which is new and unsettled; other entries unchanged |
| `Realtime.Rpc.GetRoom` | demo/demo-online-front/src/realtime/realtime.js:169-171 | returns the room stored under the name, which carries that name, or nothing |
| `Realtime.Rpc.DispatchEvent` | demo/demo-online-front/src/realtime/realtime.js:114-125 | schedules each `'$remote.'+event` callback once, in order, with `(payload, room)`; routes to the room table only for a truthy room, with the room's tasks after the global ones; a new room's listeners are those its `room.new` listeners attached |
| `Realtime.Rpc.SettleCall` | demo/demo-online-front/src/realtime/realtime.js:126-135 | fails, changing nothing, exactly when the id is unknown; otherwise settles that entry's promise and removes exactly that key |
| `Realtime.Rpc.OnWsMessage` | demo/demo-online-front/src/realtime/realtime.js:106-136 | `event` goes to listeners and rooms (a new room first announced, its listeners attached before this message is handled); `call.result` goes to the call table, failing on an unknown id; any other type changes nothing |
| `Realtime.Rpc.RunNextTimer` | demo/demo-online-front/src/realtime/realtime.js:25-33 | runs the oldest task: the `session.new` handler sets the session (or throws); the `rand.check` handler answers and opens; an application callback is logged |

## Left out

- The WebSocket itself: `connect`, the body of `reconnnect`, `binaryType`, and `ws.send`. These are transport. A `Reconnect` task has no modelled effect when it runs. Every frame is recorded in `outbox`, which matches a closed socket (it drops frames without throwing) and an open one.
- Realtime.Rpc.Call: always returns. In the source, `wsSend` (`realtime.js:103`) throws a TypeError while `this.ws` is still undefined, before the first `connect` assigns it (`realtime.js:41`), and `WebSocket.send` throws while the socket is connecting. Either way `call` throws after line 159 has stored the `requestMap` entry, and that entry never settles. This includes the keepalive `ping` of line 35. The model has no socket state to tell these cases apart.
- The `setInterval` keepalive that calls `ping` every 10 seconds, and all real timer delays. These are event-loop timing. `setTimeout` is modelled only as the ordered `timers` queue.
- `gzip.zip` and `gzip.unzip`. The compressor is not part of this model; it is a pair of function parameters, assumed inverse for the round trip.
- Codec.Encrypt: the source hands `gzip.zip` the JSON string (line 177); the model's `text` stands for the bytes `gzip.zip` makes from that string, so the string-to-bytes encoding is folded into the `zip` parameter. `Codec.DecryptUndoesEncrypt` is about bytes; it carries over to the source's strings only if that encoding is the UTF-8 that line 204 decodes, which the model does not check (an encoder that cut char codes to 8 bits would break the round trip for non-ASCII text).
- `JSON.stringify`, `JSON.parse` and `TextDecoder`. These are library calls. Messages are the datatypes `Inbound`/`Outbound`, and `Codec.Decrypt` returns the decompressed bytes before UTF-8 decoding.
- The `if (!this.encrypt)` branches. The constructor always sets `encrypt = true`.
- Correlation id generation from `Date` and `Math.random`. It is nondeterministic, so `Call` takes the id as an input.
- The promise plumbing of `init`/`openPromise` and what happens after a promise settles. Settling is recorded; continuations are not. `openDone` being unset before the first `connect` is not modelled; `ready` stands for "`openDone` has been called".
- Console output, including the `try/catch` logging in the `Room` constructor.
- Realtime.Rpc.RunNextTimer: what application callbacks do is not modelled. Each is logged, and the `failing` parameter says which ones throw.
- Realtime.Room.Announce: of what a `room.new` listener does, only its `room.on`/`room.off` calls on the new room are modelled (the `attach` parameter). A listener in `failing` is taken to make all of them before it throws. Its other effects, such as registering on the `Rpc` or touching other rooms, are not modelled.
- Realtime.RoomTable.HandleRoomMsg: a new room's listeners, which its first message is scheduled for, are exactly those the room calls in `attach` leave, with the limits stated for `Realtime.Room.Announce`.
- Realtime.Rpc.DispatchEvent: a new room's listeners, which its first message is scheduled for, are exactly those the room calls in `attach` leave, with the limits stated for `Realtime.Room.Announce`.
- Realtime.Rpc.OnWsMessage: a new room's listeners, which its first message is scheduled for, are exactly those the room calls in `attach` leave, with the limits stated for `Realtime.Room.Announce`.
- Array payloads and fractional numbers are outside `Value`; JSON numbers are taken as integers. Messages whose `event` is not a string, whose `room` is neither a string nor absent (`null`, a number, an object), or whose `call.result` `id` is not a string (line 127 would turn it into a property key) are outside `Inbound`.
- Property names inherited from `Object.prototype` or `Map.prototype`, such as `constructor`, `__proto__` or `get`. The source's plain-object and `Map` lookups would see them. The registries here are maps with no inherited keys.
- Realtime.Room.constructor: the `room.new` notification in the source constructor is the separate `Room.Announce`, which `RoomTable.HandleRoomMsg` calls right after construction.
