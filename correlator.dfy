/**
 * The call correlation table `Rpc.requestMap`: correlation id to the
 * resolve/reject pair of the promise that `call` returned. A promise is
 * modelled by a natural-number handle; settling it is recorded as a
 * `Settlement`.
 */
module Correlator {

  import opened Values

  /** The `done` record stored under an id: the handle of its promise. */
  datatype Pending = Pending(promise: nat)

  /** `done.resolve(result)` or `done.reject(error)` having run on one promise. */
  datatype Settlement = Resolved(promise: nat, value: Value) | Rejected(promise: nat, reason: Value)

  /** `this.requestMap[id] = done`: a colliding id overwrites the older entry. */
  function Issue(table: map<string, Pending>, id: string, promise: nat): (r: map<string, Pending>)
    ensures id in r && r[id] == Pending(promise)
    ensures forall k :: k != id ==> (k in r <==> k in table)
    ensures forall k :: k != id && k in table ==> r[k] == table[k]
  {
    table[id := Pending(promise)]
  }

  /**
   * The `call.result` branch: resolve (when `success` is truthy) or reject the
   * entry for `id`, then delete exactly that key. `None` when `id` is not in
   * the table: `this.requestMap[id].resolve` then throws a TypeError before
   * anything is changed.
   */
  function Complete(table: map<string, Pending>, id: string, success: bool, result: Value, error: Value)
    : (r: Option<(map<string, Pending>, Settlement)>)
    ensures r.None? <==> id !in table
    ensures r.Some? ==> r.value.0.Keys == table.Keys - {id}
    ensures r.Some? ==> forall k :: k in r.value.0 ==> r.value.0[k] == table[k]
    ensures r.Some? ==> r.value.1.promise == table[id].promise
    ensures r.Some? ==> (r.value.1.Resolved? <==> success)
    ensures r.Some? && success ==> r.value.1.value == result
    ensures r.Some? && !success ==> r.value.1.reason == error
  {
    if id !in table then None
    else
      var p := table[id].promise;
      Some((table - {id}, if success then Resolved(p, result) else Rejected(p, error)))
  }

  /**
   * The table is consistent with the promises handed out so far (`next`
   * handles allocated) and the settlements recorded: every handle is
   * allocated, no promise is pending under two ids, no pending promise has
   * settled, and no promise has settled twice.
   */
  ghost predicate Consistent(table: map<string, Pending>, settled: seq<Settlement>, next: nat)
  {
    && (forall id :: id in table ==> table[id].promise < next)
    && (forall i :: 0 <= i < |settled| ==> settled[i].promise < next)
    && (forall a, b :: a in table && b in table && a != b ==> table[a].promise != table[b].promise)
    && (forall id, i :: id in table && 0 <= i < |settled| ==> table[id].promise != settled[i].promise)
    && (forall i, j :: 0 <= i < j < |settled| ==> settled[i].promise != settled[j].promise)
  }

  /** Issuing a call with a freshly allocated handle keeps the table consistent. */
  lemma IssuePreservesConsistent(table: map<string, Pending>, settled: seq<Settlement>, next: nat, id: string)
    requires Consistent(table, settled, next)
    ensures Consistent(Issue(table, id, next), settled, next + 1)
  {
  }

  /** Settling an entry keeps the table consistent: each promise settles at most once. */
  lemma CompletePreservesConsistent(table: map<string, Pending>, settled: seq<Settlement>, next: nat,
                                    id: string, success: bool, result: Value, error: Value)
    requires Consistent(table, settled, next)
    requires Complete(table, id, success, result, error).Some?
    ensures var (t, s) := Complete(table, id, success, result, error).value;
            Consistent(t, settled + [s], next)
  {
  }

  /**
   * A result for the id of a call settles exactly the promise that call
   * returned, and removes that id and nothing else.
   */
  lemma CompleteAfterIssue(table: map<string, Pending>, id: string, p: nat, success: bool, result: Value, error: Value)
    ensures Complete(Issue(table, id, p), id, success, result, error)
         == Some((table - {id}, if success then Resolved(p, result) else Rejected(p, error)))
  {
    assert Issue(table, id, p) - {id} == table - {id};
  }

  /**
   * Issuing a call whose id collides with a pending one orphans the older
   * promise: it is no longer reachable from the table, so no result can
   * settle it.
   */
  lemma IssueOrphansCollidingEntry(table: map<string, Pending>, settled: seq<Settlement>, next: nat, id: string)
    requires Consistent(table, settled, next)
    requires id in table
    ensures forall k :: k in Issue(table, id, next) ==> Issue(table, id, next)[k].promise != table[id].promise
  {
  }

  /**
   * Results for two different outstanding ids may arrive in either order:
   * both orders leave the same table and settle the same two promises, each
   * as it was answered.
   */
  lemma CompletionsCommute(table: map<string, Pending>, a: string, b: string,
                           sa: bool, ra: Value, ea: Value, sb: bool, rb: Value, eb: Value)
    requires a in table && b in table && a != b
    ensures Complete(table, a, sa, ra, ea).Some?
    ensures Complete(Complete(table, a, sa, ra, ea).value.0, b, sb, rb, eb)
         == Some((table - {a, b}, Complete(table, b, sb, rb, eb).value.1))
    ensures Complete(table, b, sb, rb, eb).Some?
    ensures Complete(Complete(table, b, sb, rb, eb).value.0, a, sa, ra, ea)
         == Some((table - {a, b}, Complete(table, a, sa, ra, ea).value.1))
  {
    var t := table - {a};
    var t' := table - {b};
    assert b in t && t[b] == table[b];
    assert a in t' && t'[a] == table[a];
    assert t - {b} == table - {a, b};
    assert t' - {a} == table - {a, b};
  }
}
