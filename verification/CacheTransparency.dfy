/**
 For calls that do not overlap, the cache is invisible: replies, rows and notifications are
 those of the same code without a cache, whatever entries are missing, expired or fail to be
 written, unless a call leaves a stale entry behind. When a call does is characterised exactly.
 */
module CacheTransparency {
  import opened Options
  import opened Faults
  import opened Orders
  import opened OrderUseCase

  /** A call, or a cache entry that Redis evicts (expiry needs no event of its own). */
  datatype Call =
    | CallCreate(order: Order, env: Env)
    | CallGet(id: string, env: Env)
    | CallCancel(id: string, env: Env)
    | CallMarkPaid(id: string, env: Env)
    | Evict(id: string)

  function Exec(w: World, ttl: int, call: Call): (Reply, World)
    requires ValidTable(w.db.rows)
  {
    match call
    case CallCreate(o, env) => Create(w, o.(status := Pending), env)
    case CallGet(id, env) => Get(w, ttl, id, env)
    case CallCancel(id, env) => Cancel(w, id, env)
    case CallMarkPaid(id, env) => MarkPaid(w, id, env)
    case Evict(id) => (Reply(None, None), if w.cache.None? then w else w.(cache := Some(w.cache.value - {id})))
  }

  ghost predicate CoherentAt(w: World, id: string)
    requires w.cache.Some? && id in w.cache.value
  {
    id in w.db.rows && w.cache.value[id].order == w.db.rows[id]
  }

  /** Every cached order is the row's present content. */
  ghost predicate Coherent(w: World) {
    w.cache.Some? ==> forall id :: id in w.cache.value ==> CoherentAt(w, id)
  }

  predicate LosesInvalidation(env: Env) {
    env.update == AppliedWithError || (env.update == NoFault && env.del == NotApplied)
  }

  /** The call writes a new status into a cached order's row, and its invalidation is lost or
      skipped because the write was reported as failed. */
  ghost predicate LeavesStale(w: World, call: Call) {
    w.cache.Some? &&
    match call
    case CallCancel(id, env) =>
      && id in w.cache.value && id in w.db.rows && !env.readFails && CanBeCancelled(w.db.rows[id])
      && LosesInvalidation(env)
    case CallMarkPaid(id, env) =>
      && id in w.cache.value && id in w.db.rows && w.db.rows[id].status != Paid
      && LosesInvalidation(env)
    case _ => false
  }

  lemma UpdateKeepsValid(rows: Table, id: string, status: Status, fault: Fault)
    requires ValidTable(rows)
    ensures ValidTable(Updated(rows, id, status, fault))
  {
  }

  lemma InsertKeepsValid(rows: Table, o: Order, fault: Fault)
    requires ValidTable(rows)
    ensures ValidTable(Inserted(rows, o, fault))
  {
  }

  function Outcome(env: Env): Status {
    if env.gateway == Authorized then Paid else Failed
  }

  /** Paying touches the order's row and cache entry only, and caches nothing but the row it wrote. */
  lemma PayTouchesItsOrder(w: World, o: Order, env: Env)
    ensures var w' := Pay(w, o, env).1;
            && w'.db.rows == Updated(w.db.rows, o.id, Outcome(env), env.update)
            && w'.cache.Some? == w.cache.Some?
            && (w.cache.Some? ==>
                  && w'.cache.value - {o.id} == w.cache.value - {o.id}
                  && (o.id in w'.cache.value ==>
                        || (o.id in w.cache.value && w'.cache.value[o.id] == w.cache.value[o.id])
                        || (o.id in w.db.rows && env.update == NoFault && w'.cache.value[o.id].order == o.(status := Outcome(env)))))
  {
  }

  lemma PayKeepsCoherent(w: World, o: Order, env: Env)
    requires ValidTable(w.db.rows) && Coherent(w)
    requires o.id in w.db.rows && w.db.rows[o.id] == o && (w.cache.Some? ==> o.id !in w.cache.value)
    ensures ValidTable(Pay(w, o, env).1.db.rows) && Coherent(Pay(w, o, env).1)
  {
    var w' := Pay(w, o, env).1;
    PayTouchesItsOrder(w, o, env);
    UpdateKeepsValid(w.db.rows, o.id, Outcome(env), env.update);
    if w.cache.Some? {
      forall id | id in w'.cache.value
        ensures CoherentAt(w', id)
      {
        if id != o.id {
          assert id in w'.cache.value - {o.id};
          assert CoherentAt(w, id) && w'.cache.value[id] == (w'.cache.value - {o.id})[id];
        }
      }
    }
  }

  lemma PlaceKeepsCoherent(w: World, o: Order, env: Env)
    requires ValidTable(w.db.rows) && Coherent(w)
    ensures ValidTable(Place(w, o, env).1.db.rows) && Coherent(Place(w, o, env).1)
  {
    var w' := w.(db := w.db.(rows := Inserted(w.db.rows, o, env.insert)));
    InsertKeepsValid(w.db.rows, o, env.insert);
    assert w.cache.Some? && o.id in w.cache.value ==> CoherentAt(w, o.id);
    assert Coherent(w') by {
      if w.cache.Some? {
        forall id | id in w'.cache.value
          ensures CoherentAt(w', id)
        {
          assert CoherentAt(w, id);
        }
      }
    }
    if CanInsert(w.db.rows, o) && env.insert == NoFault {
      PayKeepsCoherent(w', o, env);
    }
  }

  lemma ExecValid(w: World, ttl: int, call: Call)
    requires ValidTable(w.db.rows)
    ensures ValidTable(Exec(w, ttl, call).1.db.rows)
  {
    match call
    case CallCreate(o, env) =>
      var p := o.(status := Pending);
      var w' := w.(db := w.db.(rows := Inserted(w.db.rows, p, env.insert)));
      InsertKeepsValid(w.db.rows, p, env.insert);
      PayTouchesItsOrder(w', p, env);
      UpdateKeepsValid(w'.db.rows, p.id, Outcome(env), env.update);
    case CallCancel(id, env) => UpdateKeepsValid(w.db.rows, id, Cancelled, env.update);
    case CallMarkPaid(id, env) => UpdateKeepsValid(w.db.rows, id, Paid, env.update);
    case _ =>
  }

  /** What a status write followed by an invalidation does to coherence. */
  lemma WriteThenInvalidate(w: World, id: string, status: Status, env: Env, w': World)
    requires w.cache.Some? && Coherent(w) && id in w.db.rows && w.db.rows[id].status != status
    requires w'.db.rows == Updated(w.db.rows, id, status, env.update)
    requires w'.cache == Some(if env.update == NoFault then Dropped(w.cache.value, id, env.del) else w.cache.value)
    ensures Coherent(w') <==> !(id in w.cache.value && LosesInvalidation(env))
  {
    assert id in w.cache.value ==> CoherentAt(w, id);
    if id in w.cache.value && LosesInvalidation(env) {
      assert !CoherentAt(w', id);
    } else {
      forall i | i in w'.cache.value
        ensures CoherentAt(w', i)
      {
        assert CoherentAt(w, i);
      }
    }
  }

  lemma CancelCoherentIff(w: World, id: string, env: Env)
    requires ValidTable(w.db.rows) && Coherent(w)
    ensures Coherent(Cancel(w, id, env).1) <==> !LeavesStale(w, CallCancel(id, env))
  {
    if w.cache.Some? && !env.readFails && id in w.db.rows && CanBeCancelled(w.db.rows[id]) {
      WriteThenInvalidate(w, id, Cancelled, env, Cancel(w, id, env).1);
    }
  }

  lemma MarkPaidCoherentIff(w: World, id: string, env: Env)
    requires ValidTable(w.db.rows) && Coherent(w)
    ensures Coherent(MarkPaid(w, id, env).1) <==> !LeavesStale(w, CallMarkPaid(id, env))
  {
    var w' := MarkPaid(w, id, env).1;
    if w.cache.Some? && id in w.db.rows {
      if w.db.rows[id].status != Paid {
        WriteThenInvalidate(w, id, Paid, env, w');
      } else {
        forall i | i in w'.cache.value
          ensures CoherentAt(w', i)
        {
          assert CoherentAt(w, i);
        }
      }
    }
  }

  lemma GetKeepsCoherent(w: World, ttl: int, id: string, env: Env)
    requires ValidTable(w.db.rows) && Coherent(w)
    ensures Coherent(Get(w, ttl, id, env).1)
  {
    var w' := Get(w, ttl, id, env).1;
    if w.cache.Some? {
      forall i | i in w'.cache.value
        ensures CoherentAt(w', i)
      {
        assert i in w.cache.value ==> CoherentAt(w, i);
      }
    }
  }

  lemma EvictKeepsCoherent(w: World, ttl: int, id: string)
    requires ValidTable(w.db.rows) && Coherent(w)
    ensures Coherent(Exec(w, ttl, Evict(id)).1)
  {
    var w' := Exec(w, ttl, Evict(id)).1;
    if w.cache.Some? {
      forall i | i in w'.cache.value
        ensures CoherentAt(w', i)
      {
        assert CoherentAt(w, i);
      }
    }
  }

  /** A call keeps the cache coherent exactly when it does not leave a stale entry. */
  lemma CoherentIff(w: World, ttl: int, call: Call)
    requires ValidTable(w.db.rows) && Coherent(w)
    ensures ValidTable(Exec(w, ttl, call).1.db.rows)
    ensures Coherent(Exec(w, ttl, call).1) <==> !LeavesStale(w, call)
  {
    ExecValid(w, ttl, call);
    match call
    case CallCreate(o, env) => PlaceKeepsCoherent(w, o.(status := Pending), env);
    case CallGet(id, env) => GetKeepsCoherent(w, ttl, id, env);
    case CallCancel(id, env) => CancelCoherentIff(w, id, env);
    case CallMarkPaid(id, env) => MarkPaidCoherentIff(w, id, env);
    case Evict(id) => EvictKeepsCoherent(w, ttl, id);
  }

  /** The same world without a cache. */
  function Bare(w: World): World {
    w.(cache := None)
  }

  /** Equal replies; a read may also be answered from the cache, with the row's present
      content, where the uncached code would have run into a failing database read. */
  predicate SameReply(w: World, call: Call, r: Reply, bare: Reply) {
    r == bare ||
    (call.CallGet? && call.env.readFails && bare == Reply(None, Some(StoreFailed))
     && call.id in w.db.rows && r == Reply(Some(w.db.rows[call.id]), None))
  }

  /** On a coherent cache one call replies and writes as the uncached code does. */
  lemma CallTransparent(w: World, ttl: int, call: Call)
    requires ValidTable(w.db.rows) && Coherent(w)
    ensures var (r, w') := Exec(w, ttl, call);
            var (r0, w0) := Exec(Bare(w), ttl, call);
            SameReply(w, call, r, r0) && w'.db == w0.db && w0.cache.None? && Bare(w') == w0
  {
    if call.CallGet? && Hit(w, ttl, call.id, call.env).Some? {
      assert CoherentAt(w, call.id);
    }
  }

  // ---------- sequences of calls ----------

  function After(w: World, ttl: int, calls: seq<Call>): (r: World)
    requires ValidTable(w.db.rows)
    ensures ValidTable(r.db.rows)
  {
    if calls == [] then w
    else
      var before := After(w, ttl, calls[..|calls| - 1]);
      ExecValid(before, ttl, calls[|calls| - 1]);
      Exec(before, ttl, calls[|calls| - 1]).1
  }

  function ReplyAt(w: World, ttl: int, calls: seq<Call>, i: nat): Reply
    requires ValidTable(w.db.rows) && i < |calls|
  {
    Exec(After(w, ttl, calls[..i]), ttl, calls[i]).0
  }

  ghost predicate NeverLeavesStale(w: World, ttl: int, calls: seq<Call>)
    requires ValidTable(w.db.rows)
  {
    forall i :: 0 <= i < |calls| ==> !LeavesStale(After(w, ttl, calls[..i]), calls[i])
  }

  lemma {:induction false} TransparentUpTo(w: World, ttl: int, calls: seq<Call>, n: nat)
    requires ValidTable(w.db.rows) && Coherent(w) && NeverLeavesStale(w, ttl, calls) && n <= |calls|
    ensures Coherent(After(w, ttl, calls[..n]))
    ensures Bare(After(w, ttl, calls[..n])) == After(Bare(w), ttl, calls[..n])
  {
    if n == 0 {
    } else {
      TransparentUpTo(w, ttl, calls, n - 1);
      assert calls[..n][..n - 1] == calls[..n - 1];
      var before := After(w, ttl, calls[..n - 1]);
      CoherentIff(before, ttl, calls[n - 1]);
      CallTransparent(before, ttl, calls[n - 1]);
    }
  }

  /** Cache transparency: reply by reply and row by row, for every sequence of calls. */
  lemma CacheIsTransparent(w: World, ttl: int, calls: seq<Call>)
    requires ValidTable(w.db.rows) && Coherent(w) && NeverLeavesStale(w, ttl, calls)
    ensures After(w, ttl, calls).db == After(Bare(w), ttl, calls).db
    ensures forall i :: 0 <= i < |calls| ==>
              SameReply(After(w, ttl, calls[..i]), calls[i], ReplyAt(w, ttl, calls, i), ReplyAt(Bare(w), ttl, calls, i))
  {
    TransparentUpTo(w, ttl, calls, |calls|);
    assert calls[..|calls|] == calls;
    forall i | 0 <= i < |calls|
      ensures SameReply(After(w, ttl, calls[..i]), calls[i], ReplyAt(w, ttl, calls, i), ReplyAt(Bare(w), ttl, calls, i))
    {
      TransparentUpTo(w, ttl, calls, i);
      CallTransparent(After(w, ttl, calls[..i]), ttl, calls[i]);
    }
  }

  /** No Delete fails without effect and no update is applied behind a reported error. */
  predicate Clean(call: Call) {
    call.CallCancel? || call.CallMarkPaid? ==> call.env.del != NotApplied && call.env.update != AppliedWithError
  }

  /** The hypothesis in terms of the surroundings alone. */
  lemma CleanCallsAreTransparent(w: World, ttl: int, calls: seq<Call>)
    requires ValidTable(w.db.rows) && Coherent(w) && forall call :: call in calls ==> Clean(call)
    ensures NeverLeavesStale(w, ttl, calls)
    ensures After(w, ttl, calls).db == After(Bare(w), ttl, calls).db
  {
    forall i | 0 <= i < |calls|
      ensures !LeavesStale(After(w, ttl, calls[..i]), calls[i])
    {
      assert calls[i] in calls;
    }
    CacheIsTransparent(w, ttl, calls);
  }

  /** And where a stale entry is left, the next read of a live entry shows it. */
  lemma StaleEntryIsRead(w: World, ttl: int, call: Call, env: Env)
    requires ValidTable(w.db.rows) && Coherent(w) && LeavesStale(w, call)
    requires !env.getFails && Live(ttl, w.cache.value[call.id], env.now)
    ensures var w' := Exec(w, ttl, call).1;
            var (r, _) := Exec(w', ttl, CallGet(call.id, env));
            r.order.Some? && call.id in w'.db.rows && r.order.value.status != w'.db.rows[call.id].status
  {
    assert CoherentAt(w, call.id);
  }
}
