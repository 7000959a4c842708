/**
 * The client session engine of `realtime.js`: the `Rpc` object (handshake,
 * call table, inbound classification, global listeners) and the `Room`
 * objects kept in the process-wide room table.
 *
 * Effects on the outside world are recorded instead of performed:
 * - `wsSend(data)` appends the logical message to `Rpc.outbox`;
 * - `setTimeout(() => cb(args…))` appends `Task(cb, args)` to `Rpc.timers`,
 *   and `RunNextTimer` runs the oldest one;
 * - a call of application code is appended to `Rpc.invoked`: both the
 *   synchronous `room.new` notification and an application callback that
 *   `RunNextTimer` runs from the timer queue.
 * Which application callbacks throw is a parameter (`failing`), and so are
 * the `room.on`/`room.off` calls a `room.new` listener makes on the room it
 * is handed (`attach`); nothing else application callbacks do is modelled.
 */
module Realtime {

  import opened Values
  import opened Registry
  import opened Correlator

  /**
   * The two handlers `init` registers, the delayed `reconnnect()` of
   * `onWsClose`, and application callbacks.
   */
  datatype Callback = SessionNewHandler | RandCheckHandler | Reconnect | User(tag: nat)

  /** An argument a callback is called with: a decoded value or a room object. */
  datatype Arg = Val(v: Value) | RoomArg(room: Room)

  /** A callback scheduled with `setTimeout`, with its arguments. */
  datatype Task = Task(cb: Callback, args: seq<Arg>)

  /** A callback that ran, its arguments, and whether it threw. */
  datatype Invocation = Invocation(cb: Callback, args: seq<Arg>, threw: bool)

  /** A decoded inbound message, by its `type` field. */
  datatype Inbound =
    | EventMsg(event: string, payload: Value, room: Option<string>)
    | CallResultMsg(id: string, success: Value, result: Value, error: Value)
    | OtherMsg  // any other `type`

  /** The logical messages the client sends. */
  datatype Outbound =
    | SessionNewMsg                                          // {type: 'session.new'}
    | SessionResumeMsg(sessionId: Value, sessionSecret: Value) // {type: 'session.resume', sessionId, sessionSecret}
    | RoleUserMsg                                            // {role: 'user'}
    | RandBackMsg(answer: Value)                              // {'rand.back': answer}
    | CallMsg(name: string, param: Value, id: string)      // {type: 'call', method, param, id}

  const SessionNewEvent: string := "session.new"
  const RandCheckEvent: string := "rand.check"
  const RoomNewEvent: string := "room.new"
  const ErrorEvent: string := "rt.error"
  const ClosedEvent: string := "realtime.closed"
  const MethodPrefix: string := "user."

  /** `cbs.forEach(cb => setTimeout(() => cb(args…)))`: one task per callback, in list order. */
  function Scheduled(cbs: seq<Callback>, args: seq<Arg>): (r: seq<Task>)
    ensures |r| == |cbs|
    ensures forall i :: 0 <= i < |cbs| ==> r[i] == Task(cbs[i], args)
  {
    if cbs == [] then [] else [Task(cbs[0], args)] + Scheduled(cbs[1..], args)
  }

  /**
   * The `room.new` loop of the `Room` constructor: each listener is called
   * once with the new room, in list order; a throw is caught and the loop
   * goes on.
   */
  function Notified(cbs: seq<Callback>, room: Room, failing: set<Callback>): (r: seq<Invocation>)
    ensures |r| == |cbs|
    ensures forall i :: 0 <= i < |cbs| ==> r[i] == Invocation(cbs[i], [RoomArg(room)], cbs[i] in failing)
  {
    if cbs == [] then [] else [Invocation(cbs[0], [RoomArg(room)], cbs[0] in failing)] + Notified(cbs[1..], room, failing)
  }

  /** `if (data.room)`: the message is routed to a room only when its `room` is a non-empty string. */
  predicate RoutesToRoom(room: Option<string>)
  {
    room.Some? && room.value != ""
  }

  /** `data.room` as the callback sees it. */
  function RoomValue(room: Option<string>): Value
  {
    if room.Some? then Str(room.value) else Undefined
  }

  /** The first argument a task was scheduled with, as the handler reads it. A room object has no `id` or `secret`. */
  function FirstValue(args: seq<Arg>): Value
  {
    if args == [] then Undefined
    else match args[0]
      case Val(v) => v
      case RoomArg(_) => Obj(map[])
  }

  /** The first frame of `onWsOpen`: resume when `sessionId` is truthy, otherwise ask for a new session. */
  function OpeningFrame(sessionId: Value, sessionSecret: Value): Outbound
  {
    if Truthy(sessionId) then SessionResumeMsg(sessionId, sessionSecret) else SessionNewMsg
  }

  /** The part of the client state that the two handshake handlers touch. */
  datatype Link = Link(sessionId: Value, sessionSecret: Value, outbox: seq<Outbound>, ready: bool)

  /**
   * The `session.new` handler: `sessionId = data.id; sessionSecret = data.secret`.
   * `None` when `data` is `undefined` or `null`: reading `data.id` throws.
   */
  function AfterSessionNew(l: Link, data: Value): (r: Option<Link>)
    ensures r.None? <==> data == Undefined || data == Null
    ensures r.Some? ==> r.value.outbox == l.outbox && r.value.ready == l.ready
    ensures data.Obj? && "id" in data.fields ==> r.Some? && r.value.sessionId == data.fields["id"]
    ensures data.Obj? && "secret" in data.fields ==> r.Some? && r.value.sessionSecret == data.fields["secret"]
    ensures r.Some? && !data.Obj? ==> r.value.sessionId == Undefined && r.value.sessionSecret == Undefined
    ensures data.Obj? && "id" !in data.fields ==> r.Some? && r.value.sessionId == Undefined
    ensures data.Obj? && "secret" !in data.fields ==> r.Some? && r.value.sessionSecret == Undefined
    ensures r.Some? ==> r.value.sessionId == Member(data, "id").value && r.value.sessionSecret == Member(data, "secret").value
  {
    match Member(data, "id")
    case None => None
    case Some(id) => Some(l.(sessionId := id, sessionSecret := Member(data, "secret").value))
  }

  /** The `rand.check` handler: send `{'rand.back': data + 1}`, then `openDone()`. */
  function AfterRandCheck(l: Link, data: Value): (r: Link)
    ensures r.ready
    ensures r.outbox == l.outbox + [RandBackMsg(PlusOne(data))]
    ensures r.sessionId == l.sessionId && r.sessionSecret == l.sessionSecret
  {
    l.(outbox := l.outbox + [RandBackMsg(PlusOne(data))], ready := true)
  }

  /**
   * The two handshake events commute: session assignment and the liveness
   * challenge lead to the same state in either order.
   */
  lemma HandshakeEitherOrder(l: Link, assignment: Value, challenge: Value)
    requires assignment != Undefined && assignment != Null
    ensures AfterSessionNew(l, assignment).Some?
    ensures AfterSessionNew(AfterRandCheck(l, challenge), assignment)
         == Some(AfterRandCheck(AfterSessionNew(l, assignment).value, challenge))
    ensures AfterSessionNew(AfterRandCheck(l, challenge), assignment).value.ready
  {
  }

  /**
   * Once a session with a truthy id has been assigned, the next open of the
   * socket asks to resume exactly that session.
   */
  lemma ResumeAfterAssignment(l: Link, id: Value, secret: Value)
    requires Truthy(id)
    ensures var l' := AfterSessionNew(l, Obj(map["id" := id, "secret" := secret])).value;
            OpeningFrame(l'.sessionId, l'.sessionSecret) == SessionResumeMsg(id, secret)
  {
  }

  /** Before any assignment (or after one without an id) the client asks for a new session. */
  lemma NewSessionWithoutId(l: Link, assignment: Value)
    requires assignment.Obj? && "id" !in assignment.fields
    ensures var l' := AfterSessionNew(l, assignment).value;
            OpeningFrame(l'.sessionId, l'.sessionSecret) == SessionNewMsg
  {
  }

  /** JavaScript `Set` insertion: unchanged when present, appended otherwise. */
  function SetAdd(s: seq<Callback>, x: Callback): (r: seq<Callback>)
    ensures x in r
    ensures forall y :: y in r <==> y in s || y == x
  {
    if x in s then s else s + [x]
  }

  /** JavaScript `Set` deletion. */
  function SetDelete(s: seq<Callback>, x: Callback): (r: seq<Callback>)
    ensures forall y :: y in r <==> y in s && y != x
  {
    if s == [] then []
    else if s[0] == x then SetDelete(s[1..], x)
    else [s[0]] + SetDelete(s[1..], x)
  }

  /**
   * A call a `room.new` listener makes on the room it is handed:
   * `room.on(event, cb)` or `room.off(event, cb)`.
   */
  datatype RoomCall = OnCall(event: string, cb: Callback) | OffCall(event: string, cb: Callback)

  /** What a room call leaves under its name: `on` keeps only its callback, `off` nothing. */
  function Effect(c: RoomCall): seq<Callback>
  {
    if c.OnCall? then [c.cb] else []
  }

  /**
   * The room calls the listeners `cbs` make, in call order, when each
   * listener `cb` makes the calls `attach(cb)`.
   */
  function Registrations(cbs: seq<Callback>, attach: Callback -> seq<RoomCall>): seq<RoomCall>
  {
    if cbs == [] then [] else Registrations(cbs[..|cbs| - 1], attach) + attach(cbs[|cbs| - 1])
  }

  /** A room's listener properties after the calls `ops`, made in order. */
  function Applied(props: map<string, seq<Callback>>, ops: seq<RoomCall>): map<string, seq<Callback>>
  {
    if ops == [] then props
    else
      var c := ops[|ops| - 1];
      Applied(props, ops[..|ops| - 1])[c.event := Effect(c)]
  }

  /** The position of the last of the calls `ops` made under `name`; -1 when there is none. */
  function LastIndexUnder(ops: seq<RoomCall>, name: string): (k: int)
    ensures -1 <= k < |ops|
    ensures 0 <= k ==> ops[k].event == name
    ensures forall j :: k < j < |ops| ==> ops[j].event != name
  {
    if ops == [] then -1
    else if ops[|ops| - 1].event == name then |ops| - 1
    else LastIndexUnder(ops[..|ops| - 1], name)
  }

  /** The last of the calls `ops` made under `name`, if any. */
  function LastUnder(ops: seq<RoomCall>, name: string): (r: Option<RoomCall>)
    ensures r.Some? ==> r.value in ops && r.value.event == name
    ensures r.None? ==> forall c :: c in ops ==> c.event != name
    ensures r.Some? ==> exists k :: 0 <= k < |ops| && ops[k] == r.value && forall j :: k < j < |ops| ==> ops[j].event != name
  {
    var k := LastIndexUnder(ops, name);
    if k < 0 then None else Some(ops[k])
  }

  /** Making the calls `a` and then the calls `b` is making the calls `a + b`. */
  lemma {:induction false} AppliedConcat(props: map<string, seq<Callback>>, a: seq<RoomCall>, b: seq<RoomCall>)
    ensures Applied(Applied(props, a), b) == Applied(props, a + b)
    decreases |b|
  {
    if b != [] {
      AppliedConcat(props, a, b[..|b| - 1]);
      assert (a + b)[..|a + b| - 1] == a + b[..|b| - 1];
    } else {
      assert a + b == a;
    }
  }

  /**
   * Room listeners collapse: after a run of `on`/`off` calls a name holds
   * what the last call under it left (one callback after `on`, none after
   * `off`), and a name no call mentions keeps its listeners.
   */
  lemma {:induction false} AppliedLastWins(props: map<string, seq<Callback>>, ops: seq<RoomCall>, name: string)
    ensures Listeners(Applied(props, ops), name)
         == if LastUnder(ops, name).Some? then Effect(LastUnder(ops, name).value) else Listeners(props, name)
    decreases |ops|
  {
    if ops != [] {
      AppliedLastWins(props, ops[..|ops| - 1], name);
    }
  }

  /**
   * The first message of a freshly announced room reaches exactly the
   * callback that the last `room.on('$remote.' + event, h)` of its `room.new`
   * listeners attached, and nobody when the last such call was an `off` or
   * there was none.
   */
  lemma FirstMessageOfNewRoom(roomNew: seq<Callback>, attach: Callback -> seq<RoomCall>, event: string, payload: Value)
    ensures Scheduled(Listeners(Applied(map[], Registrations(roomNew, attach)), RemoteName(event)), [Val(payload)])
         == (match LastUnder(Registrations(roomNew, attach), RemoteName(event))
             case Some(OnCall(_, h)) => [Task(h, [Val(payload)])]
             case _ => [])
  {
    AppliedLastWins(map[], Registrations(roomNew, attach), RemoteName(event));
  }

  class Room {
    const name: string

    /**
     * The `Map` the constructor stores in `this.eventListener`. Nothing ever
     * calls `.set` on it, so `.get(name)` always misses.
     */
    const entries: map<string, seq<Callback>> := map[]

    /**
     * The plain properties assigned on that `Map` object by
     * `this.eventListener[name] = …`, each a `Set` in insertion order. These
     * are what `handleMsg` reads.
     */
    var props: map<string, seq<Callback>>

    constructor (name: string)
      ensures this.name == name && props == map[]
    {
      this.name := name;
      props := map[];
    }

    /**
     * The notification loop of the constructor: every `room.new` listener is
     * called with this room, in order, even after one of them throws. During
     * its call a listener `cb` makes the room calls `attach(cb)`.
     */
    method Announce(listeners: seq<Callback>, failing: set<Callback>, attach: Callback -> seq<RoomCall>)
      returns (calls: seq<Invocation>)
      modifies this
      ensures |calls| == |listeners|
      ensures forall i :: 0 <= i < |listeners| ==> calls[i] == Invocation(listeners[i], [RoomArg(this)], listeners[i] in failing)
      ensures calls == Notified(listeners, this, failing)
      ensures props == Applied(old(props), Registrations(listeners, attach))
    {
      calls := [];
      var i := 0;
      while i < |listeners|
        invariant 0 <= i <= |listeners|
        invariant |calls| == i
        invariant forall k :: 0 <= k < i ==> calls[k] == Invocation(listeners[k], [RoomArg(this)], listeners[k] in failing)
        invariant props == Applied(old(props), Registrations(listeners[..i], attach))
      {
        var cb := listeners[i];
        Perform(attach(cb));
        AppliedConcat(old(props), Registrations(listeners[..i], attach), attach(cb));
        assert listeners[..i + 1][..i] == listeners[..i];
        calls := calls + [Invocation(cb, [RoomArg(this)], cb in failing)];
        i := i + 1;
      }
      assert listeners[..i] == listeners;
    }

    /** A listener making the room calls `ops` on this room, one after another. */
    method Perform(ops: seq<RoomCall>)
      modifies this
      ensures props == Applied(old(props), ops)
    {
      var j := 0;
      while j < |ops|
        invariant 0 <= j <= |ops|
        invariant props == Applied(old(props), ops[..j])
      {
        assert ops[..j + 1][..j] == ops[..j];
        match ops[j] {
          case OnCall(e, h) => On(e, h);
          case OffCall(e, h) => Off(e, h);
        }
        j := j + 1;
      }
      assert ops[..j] == ops;
    }

    /**
     * `eventListener[event] = eventListener.get(event) || new Set()`, then
     * `.add(cb)`. Because the `get` always misses, the name ends up holding
     * only `cb`: every earlier callback for it is dropped.
     */
    method AddEventListener(event: string, cb: Callback)
      modifies this
      ensures props == old(props)[event := [cb]]
    {
      var listeners := Listeners(entries, event);
      assert listeners == [];
      listeners := SetAdd(listeners, cb);
      assert listeners == [cb];
      props := props[event := listeners];
    }

    /** `on`: the same as `AddEventListener`. */
    method On(event: string, cb: Callback)
      modifies this
      ensures props == old(props)[event := [cb]]
    {
      AddEventListener(event, cb);
    }

    /**
     * `off`: the same fresh-`Set` assignment, then `.delete(cb)`. The name
     * ends up with no callbacks at all, whichever `cb` is passed.
     */
    method Off(event: string, cb: Callback)
      modifies this
      ensures props == old(props)[event := []]
    {
      var listeners := Listeners(entries, event);
      listeners := SetDelete(listeners, cb);
      props := props[event := listeners];
    }

    /** `handleMsg`: schedule every callback under `'$remote.' + event` with the payload. */
    method HandleMsg(event: string, payload: Value) returns (tasks: seq<Task>)
      ensures |tasks| == |Listeners(props, RemoteName(event))|
      ensures forall i :: 0 <= i < |tasks| ==> tasks[i] == Task(Listeners(props, RemoteName(event))[i], [Val(payload)])
      ensures tasks == Scheduled(Listeners(props, RemoteName(event)), [Val(payload)])
    {
      var cbs := Listeners(props, RemoteName(event));
      tasks := [];
      var i := 0;
      while i < |cbs|
        invariant 0 <= i <= |cbs|
        invariant |tasks| == i
        invariant forall k :: 0 <= k < i ==> tasks[k] == Task(cbs[k], [Val(payload)])
      {
        tasks := tasks + [Task(cbs[i], [Val(payload)])];
        i := i + 1;
      }
    }
  }

  /** The static `Room.roomMap`: room name to room, shared by every client. */
  class RoomTable {
    var rooms: map<string, Room>

    /** Every room is stored under its own name. */
    ghost predicate Valid()
      reads this
    {
      forall n :: n in rooms ==> rooms[n].name == n
    }

    constructor ()
      ensures rooms == map[] && Valid()
    {
      rooms := map[];
    }

    /**
     * `Room.handleRoomMsg`: reuse the room stored under `room`, or create it
     * (announcing it to the `room.new` listeners) when there is none; store
     * it; then let it schedule its own listeners for the event.
     */
    method HandleRoomMsg(room: string, event: string, payload: Value, roomNew: seq<Callback>, failing: set<Callback>,
                         attach: Callback -> seq<RoomCall>)
      returns (r: Room, calls: seq<Invocation>, tasks: seq<Task>)
      requires Valid()
      modifies this
      ensures Valid()
      ensures rooms == old(rooms)[room := r] && r.name == room
      ensures room in old(rooms) ==> r == old(rooms)[room] && calls == []
      ensures room !in old(rooms) ==>
                && fresh(r) && r.props == Applied(map[], Registrations(roomNew, attach))
                && calls == Notified(roomNew, r, failing)
      ensures tasks == Scheduled(Listeners(r.props, RemoteName(event)), [Val(payload)])
    {
      if room in rooms {
        r := rooms[room];
        calls := [];
      } else {
        r := new Room(room);
        calls := r.Announce(roomNew, failing, attach);
      }
      rooms := rooms[room := r];
      tasks := r.HandleMsg(event, payload);
    }
  }

  class Rpc {
    /** The room table this client routes room messages into. */
    const rooms: RoomTable

    var sessionId: Value
    var sessionSecret: Value
    /** Whether `openDone` has resolved the connection promise. */
    var ready: bool
    var eventListener: map<string, seq<Callback>>
    var requestMap: map<string, Pending>
    /** Promise handles handed out so far. */
    var nextPromise: nat
    /** Promises settled by `call.result` messages, in arrival order. */
    var settled: seq<Settlement>
    var outbox: seq<Outbound>
    var timers: seq<Task>
    var invoked: seq<Invocation>

    ghost predicate Valid()
      reads this, rooms
    {
      Consistent(requestMap, settled, nextPromise) && rooms.Valid()
    }

    /** The handshake-relevant part of the state. */
    function LinkState(): Link
      reads this
    {
      Link(sessionId, sessionSecret, outbox, ready)
    }

    /** `new Rpc(…)` and `init`: empty tables, then the two handshake handlers. */
    constructor (rooms: RoomTable)
      requires rooms.Valid()
      ensures Valid() && this.rooms == rooms
      ensures sessionId == Undefined && sessionSecret == Undefined && !ready
      ensures eventListener == map[RemoteName(SessionNewEvent) := [SessionNewHandler],
                                   RemoteName(RandCheckEvent) := [RandCheckHandler]]
      ensures requestMap == map[] && nextPromise == 0 && settled == []
      ensures outbox == [] && timers == [] && invoked == []
    {
      this.rooms := rooms;
      sessionId, sessionSecret, ready := Undefined, Undefined, false;
      eventListener := map[];
      requestMap, nextPromise, settled := map[], 0, [];
      outbox, timers, invoked := [], [], [];
      new;
      assert eventListener == map[];
      OnRemote(SessionNewEvent, SessionNewHandler);
      assert Listeners<Callback>(map[], RemoteName(SessionNewEvent)) == [];
      assert eventListener == Register(map[], RemoteName(SessionNewEvent), SessionNewHandler);
      assert [] + [SessionNewHandler] == [SessionNewHandler];
      assert eventListener == map[RemoteName(SessionNewEvent) := [SessionNewHandler]];
      ghost var before := eventListener;
      OnRemote(RandCheckEvent, RandCheckHandler);
      assert RemoteName(SessionNewEvent) != RemoteName(RandCheckEvent) by {
        assert |RemoteName(SessionNewEvent)| != |RemoteName(RandCheckEvent)|;
      }
      assert Listeners(before, RemoteName(RandCheckEvent)) == [];
      assert [] + [RandCheckHandler] == [RandCheckHandler];
    }

    /** `addEventListener`: append `cb` to the list under `name`. */
    method AddEventListener(name: string, cb: Callback)
      requires Valid()
      modifies this`eventListener
      ensures Valid()
      ensures eventListener == Register(old(eventListener), name, cb)
    {
      var cbs := Listeners(eventListener, name);
      eventListener := eventListener[name := cbs + [cb]];
    }

    /** `on`: the same as `addEventListener`. */
    method On(name: string, cb: Callback)
      requires Valid()
      modifies this`eventListener
      ensures Valid()
      ensures eventListener == Register(old(eventListener), name, cb)
    {
      AddEventListener(name, cb);
    }

    /** `onRemote`: register under `'$remote.' + name`. */
    method OnRemote(name: string, cb: Callback)
      requires Valid()
      modifies this`eventListener
      ensures Valid()
      ensures eventListener == Register(old(eventListener), RemoteName(name), cb)
    {
      On(RemotePrefix + name, cb);
    }

    /** `onWsError`: schedule every `'rt.error'` listener with `'realtime.error'`. */
    method OnWsError()
      requires Valid()
      modifies this`timers
      ensures Valid()
      ensures timers == old(timers) + Scheduled(Listeners(eventListener, ErrorEvent), [Val(Str("realtime.error"))])
    {
      var cbs := Listeners(eventListener, ErrorEvent);
      var args := [Val(Str("realtime.error"))];
      var i := 0;
      while i < |cbs|
        invariant 0 <= i <= |cbs|
        invariant timers == old(timers) + Scheduled(cbs[..i], args)
      {
        assert cbs[..i + 1] == cbs[..i] + [cbs[i]];
        ScheduledAppend(cbs[..i], cbs[i], args);
        timers := timers + [Task(cbs[i], args)];
        i := i + 1;
      }
      assert cbs[..i] == cbs;
    }

    /**
     * `onWsClose`: schedule every `'realtime.closed'` listener with
     * `'realtime.closed'`, then the reconnect. Pending calls stay as they are.
     */
    method OnWsClose()
      requires Valid()
      modifies this`timers
      ensures Valid()
      ensures timers == old(timers) + Scheduled(Listeners(eventListener, ClosedEvent), [Val(Str("realtime.closed"))])
                                    + [Task(Reconnect, [])]
    {
      var cbs := Listeners(eventListener, ClosedEvent);
      var args := [Val(Str("realtime.closed"))];
      var i := 0;
      while i < |cbs|
        invariant 0 <= i <= |cbs|
        invariant timers == old(timers) + Scheduled(cbs[..i], args)
      {
        assert cbs[..i + 1] == cbs[..i] + [cbs[i]];
        ScheduledAppend(cbs[..i], cbs[i], args);
        timers := timers + [Task(cbs[i], args)];
        i := i + 1;
      }
      assert cbs[..i] == cbs;
      timers := timers + [Task(Reconnect, [])];
    }

    /** `onWsOpen`: the session request, then the role declaration. */
    method OnWsOpen()
      requires Valid()
      modifies this`outbox
      ensures Valid()
      ensures outbox == old(outbox) + [OpeningFrame(sessionId, sessionSecret), RoleUserMsg]
    {
      if Truthy(sessionId) {
        outbox := outbox + [SessionResumeMsg(sessionId, sessionSecret)];
      } else {
        outbox := outbox + [SessionNewMsg];
      }
      outbox := outbox + [RoleUserMsg];
    }

    /**
     * `call(method, param = {})` with the generated id `id`: store a pending
     * entry holding a new promise under `id`, send the call frame, and return
     * the promise.
     */
    method Call(m: string, param: Value, id: string) returns (promise: nat)
      requires Valid()
      modifies this`requestMap, this`nextPromise, this`outbox
      ensures Valid()
      ensures promise == old(nextPromise) && nextPromise == promise + 1
      ensures requestMap == Issue(old(requestMap), id, promise)
      ensures outbox == old(outbox) + [CallMsg(MethodPrefix + m, if param == Undefined then Obj(map[]) else param, id)]
      ensures forall k :: k in old(requestMap) ==> old(requestMap)[k].promise != promise
      ensures forall i :: 0 <= i < |settled| ==> settled[i].promise != promise
    {
      var p := if param == Undefined then Obj(map[]) else param;
      var name := MethodPrefix + m;
      IssuePreservesConsistent(requestMap, settled, nextPromise, id);
      promise := nextPromise;
      nextPromise := nextPromise + 1;
      requestMap := requestMap[id := Pending(promise)];
      outbox := outbox + [CallMsg(name, p, id)];
    }

    /** `getRoom`: the room stored under `name`, if any. */
    method GetRoom(name: string) returns (r: Option<Room>)
      requires Valid()
      ensures r.Some? <==> name in rooms.rooms
      ensures r.Some? ==> r.value == rooms.rooms[name] && r.value.name == name
    {
      if name in rooms.rooms {
        r := Some(rooms.rooms[name]);
      } else {
        r := None;
      }
    }

    /**
     * The `event` branch of `onWsMessage`: schedule every global callback
     * under `'$remote.' + event` with `(payload, room)`, then, when `room` is
     * truthy, hand the message to the room table.
     */
    method DispatchEvent(event: string, payload: Value, room: Option<string>, failing: set<Callback>,
                         attach: Callback -> seq<RoomCall>)
      requires Valid()
      modifies this`timers, this`invoked, rooms
      ensures Valid()
      ensures var global := Scheduled(Listeners(eventListener, RemoteName(event)), [Val(payload), Val(RoomValue(room))]);
              if !RoutesToRoom(room) then
                timers == old(timers) + global && invoked == old(invoked) && rooms.rooms == old(rooms.rooms)
              else
                var rn := room.value;
                && rn in rooms.rooms
                && rooms.rooms == old(rooms.rooms)[rn := rooms.rooms[rn]]
                && (rn in old(rooms.rooms) ==> rooms.rooms[rn] == old(rooms.rooms)[rn] && invoked == old(invoked))
                && (rn !in old(rooms.rooms) ==>
                      && fresh(rooms.rooms[rn])
                      && rooms.rooms[rn].props == Applied(map[], Registrations(Listeners(eventListener, RoomNewEvent), attach))
                      && invoked == old(invoked) + Notified(Listeners(eventListener, RoomNewEvent), rooms.rooms[rn], failing))
                && timers == old(timers) + global
                             + Scheduled(Listeners(rooms.rooms[rn].props, RemoteName(event)), [Val(payload)])
    {
      var cbs := Listeners(eventListener, RemoteName(event));
      var args := [Val(payload), Val(RoomValue(room))];
      var i := 0;
      while i < |cbs|
        modifies this`timers
        invariant 0 <= i <= |cbs|
        invariant timers == old(timers) + Scheduled(cbs[..i], args)
      {
        assert cbs[..i + 1] == cbs[..i] + [cbs[i]];
        ScheduledAppend(cbs[..i], cbs[i], args);
        timers := timers + [Task(cbs[i], args)];
        i := i + 1;
      }
      assert cbs[..i] == cbs;
      if RoutesToRoom(room) {
        var r, calls, tasks := rooms.HandleRoomMsg(room.value, event, payload, Listeners(eventListener, RoomNewEvent), failing, attach);
        invoked := invoked + calls;
        timers := timers + tasks;
      }
    }

    /**
     * The `call.result` branch of `onWsMessage`: resolve or reject the entry
     * for `id` and delete it. Returns false, changing nothing, when `id` has
     * no entry (the source throws a TypeError there).
     */
    method SettleCall(id: string, success: Value, result: Value, error: Value) returns (ok: bool)
      requires Valid()
      modifies this`requestMap, this`settled
      ensures Valid()
      ensures ok <==> id in old(requestMap)
      ensures !ok ==> requestMap == old(requestMap) && settled == old(settled)
      ensures ok ==> && |settled| == |old(settled)| + 1
                     && settled[..|old(settled)|] == old(settled)
                     && Complete(old(requestMap), id, Truthy(success), result, error)
                          == Some((requestMap, settled[|old(settled)|]))
    {
      ok := id in requestMap;
      if ok {
        CompletePreservesConsistent(requestMap, settled, nextPromise, id, Truthy(success), result, error);
        var done := requestMap[id];
        if Truthy(success) {
          settled := settled + [Resolved(done.promise, result)];
        } else {
          settled := settled + [Rejected(done.promise, error)];
        }
        requestMap := requestMap - {id};
      }
    }

    /**
     * `onWsMessage` on a decoded message: events go to the listeners and
     * rooms, call results to the call table, anything else is ignored.
     * Returns false exactly when the message is a result for an unknown id,
     * in which case nothing changes.
     */
    method OnWsMessage(msg: Inbound, failing: set<Callback>, attach: Callback -> seq<RoomCall>) returns (ok: bool)
      requires Valid()
      modifies this`requestMap, this`settled, this`timers, this`invoked, rooms
      ensures Valid()
      ensures ok <==> !(msg.CallResultMsg? && msg.id !in old(requestMap))
      ensures !msg.CallResultMsg? ==> requestMap == old(requestMap) && settled == old(settled)
      ensures !msg.EventMsg? ==> timers == old(timers) && invoked == old(invoked) && rooms.rooms == old(rooms.rooms)
      ensures msg.CallResultMsg? && !ok ==> requestMap == old(requestMap) && settled == old(settled)
      ensures msg.CallResultMsg? && ok ==>
                && |settled| == |old(settled)| + 1
                && settled[..|old(settled)|] == old(settled)
                && Complete(old(requestMap), msg.id, Truthy(msg.success), msg.result, msg.error)
                     == Some((requestMap, settled[|old(settled)|]))
      ensures msg.EventMsg? && !RoutesToRoom(msg.room) ==>
                timers == old(timers) + Scheduled(Listeners(eventListener, RemoteName(msg.event)),
                                                  [Val(msg.payload), Val(RoomValue(msg.room))])
                && invoked == old(invoked) && rooms.rooms == old(rooms.rooms)
      ensures msg.EventMsg? && RoutesToRoom(msg.room) ==>
                var rn := msg.room.value;
                && rn in rooms.rooms
                && rooms.rooms == old(rooms.rooms)[rn := rooms.rooms[rn]]
                && (rn in old(rooms.rooms) ==> rooms.rooms[rn] == old(rooms.rooms)[rn] && invoked == old(invoked))
                && (rn !in old(rooms.rooms) ==>
                      && fresh(rooms.rooms[rn])
                      && rooms.rooms[rn].props == Applied(map[], Registrations(Listeners(eventListener, RoomNewEvent), attach))
                      && invoked == old(invoked) + Notified(Listeners(eventListener, RoomNewEvent), rooms.rooms[rn], failing))
                && timers == old(timers)
                             + Scheduled(Listeners(eventListener, RemoteName(msg.event)), [Val(msg.payload), Val(Str(rn))])
                             + Scheduled(Listeners(rooms.rooms[rn].props, RemoteName(msg.event)), [Val(msg.payload)])
    {
      match msg
      case EventMsg(event, payload, room) =>
        DispatchEvent(event, payload, room, failing, attach);
        ok := true;
      case CallResultMsg(id, success, result, error) =>
        ok := SettleCall(id, success, result, error);
      case OtherMsg =>
        ok := true;
    }

    /**
     * The event loop running the oldest scheduled task: the two handshake
     * handlers change the session state, an application callback is logged.
     * `threw` says whether the task threw (`data.id` on `undefined`/`null`,
     * or an application callback in `failing`).
     */
    method RunNextTimer(failing: set<Callback>) returns (ran: bool, threw: bool)
      requires Valid()
      modifies this`timers, this`sessionId, this`sessionSecret, this`outbox, this`ready, this`invoked
      ensures Valid()
      ensures ran <==> old(timers) != []
      ensures !ran ==> timers == old(timers) && LinkState() == old(LinkState()) && invoked == old(invoked) && !threw
      ensures ran ==> timers == old(timers)[1..]
      ensures ran ==>
                var t := old(timers)[0];
                var data := FirstValue(t.args);
                match t.cb
                case SessionNewHandler =>
                  && invoked == old(invoked)
                  && threw == AfterSessionNew(old(LinkState()), data).None?
                  && LinkState() == (if threw then old(LinkState()) else AfterSessionNew(old(LinkState()), data).value)
                case RandCheckHandler =>
                  invoked == old(invoked) && !threw && LinkState() == AfterRandCheck(old(LinkState()), data)
                case Reconnect =>
                  invoked == old(invoked) && !threw && LinkState() == old(LinkState())
                case User(_) =>
                  && LinkState() == old(LinkState())
                  && threw == (t.cb in failing)
                  && invoked == old(invoked) + [Invocation(t.cb, t.args, threw)]
    {
      if timers == [] {
        ran, threw := false, false;
        return;
      }
      ran := true;
      var t := timers[0];
      timers := timers[1..];
      var data := FirstValue(t.args);
      match t.cb
      case SessionNewHandler =>
        var id := Member(data, "id");
        if id.None? {
          threw := true;
        } else {
          threw := false;
          sessionId := id.value;
          sessionSecret := Member(data, "secret").value;
        }
      case RandCheckHandler =>
        threw := false;
        outbox := outbox + [RandBackMsg(PlusOne(data))];
        ready := true;
      case Reconnect =>
        threw := false;
      case User(_) =>
        threw := t.cb in failing;
        invoked := invoked + [Invocation(t.cb, t.args, threw)];
    }
  }

  /** Scheduling one more callback appends exactly its task: the step of every fan-out loop. */
  lemma ScheduledAppend(cbs: seq<Callback>, cb: Callback, args: seq<Arg>)
    ensures Scheduled(cbs + [cb], args) == Scheduled(cbs, args) + [Task(cb, args)]
  {
  }
}
