/**
 * Listener registries: a map from an event name to the callbacks registered
 * under it, in registration order (`Rpc.eventListener`), and the
 * `'$remote.'` namespace that `onRemote` and the inbound dispatch use.
 */
module Registry {

  /** `reg[name] || []`: the callbacks under `name`, none when the name is absent. */
  function Listeners<C>(reg: map<string, seq<C>>, name: string): seq<C>
  {
    if name in reg then reg[name] else []
  }

  /**
   * `addEventListener`: put an empty list under `name` when there is none,
   * then push `cb` onto it.
   */
  function Register<C>(reg: map<string, seq<C>>, name: string, cb: C): (r: map<string, seq<C>>)
    ensures Listeners(r, name) == Listeners(reg, name) + [cb]
    ensures forall n :: n != name ==> Listeners(r, n) == Listeners(reg, n)
    ensures r.Keys == reg.Keys + {name}
  {
    reg[name := Listeners(reg, name) + [cb]]
  }

  /** Registering the callbacks `cbs` one after another under the same name. */
  function RegisterAll<C>(reg: map<string, seq<C>>, name: string, cbs: seq<C>): map<string, seq<C>>
    decreases |cbs|
  {
    if cbs == [] then reg else RegisterAll(Register(reg, name, cbs[0]), name, cbs[1..])
  }

  /**
   * Repeated registration keeps every earlier callback, in order, and appends
   * the new ones after them; other names are untouched.
   */
  lemma {:induction false} RegisterAllAppends<C>(reg: map<string, seq<C>>, name: string, cbs: seq<C>)
    ensures Listeners(RegisterAll(reg, name, cbs), name) == Listeners(reg, name) + cbs
    ensures forall n :: n != name ==> Listeners(RegisterAll(reg, name, cbs), n) == Listeners(reg, n)
    decreases |cbs|
  {
    if cbs != [] {
      var next := Register(reg, name, cbs[0]);
      RegisterAllAppends(next, name, cbs[1..]);
      assert [cbs[0]] + cbs[1..] == cbs;
      assert Listeners(reg, name) + [cbs[0]] + cbs[1..] == Listeners(reg, name) + cbs;
    }
  }

  /** The prefix under which server-pushed events are registered. */
  const RemotePrefix: string := "$remote."

  /** `'$remote.' + name`. */
  function RemoteName(name: string): (r: string)
    ensures |r| == |RemotePrefix| + |name|
    ensures r[..|RemotePrefix|] == RemotePrefix && r[|RemotePrefix|..] == name
  {
    RemotePrefix + name
  }

  /** Distinct remote event names never share a registry slot. */
  lemma RemoteNameInjective(a: string, b: string)
    requires RemoteName(a) == RemoteName(b)
    ensures a == b
  {
  }

  /**
   * No `onRemote` registration lands under the plain name `'room.new'`, which
   * is where room creation looks for its listeners.
   */
  lemma RemoteNameIsNotRoomNew(name: string)
    ensures RemoteName(name) != "room.new"
  {
    assert RemoteName(name)[0] == '$';
    assert "room.new"[0] == 'r';
  }
}
