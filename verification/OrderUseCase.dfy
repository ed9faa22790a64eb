/**
 The order use cases over the table, the payment gateway and the cache, and what the cache
 changes about them: for calls that do not overlap, nothing, as long as no stale entry is
 left behind; the exact condition for that is given per call.
 */
module OrderUseCase {
  import opened Options
  import opened Faults
  import opened Orders
  import EventBus

  /** The gateway's reply: an error, "Authorized", or any other status. */
  datatype Gateway = Unreachable | Authorized | OtherStatus

  /** How the surroundings of one call behave. */
  datatype Env = Env(
    now: nat, lookupFails: bool, insert: Fault, gateway: Gateway, update: Fault, notify: bool,
    readFails: bool, getFails: bool, warm: Fault, del: Fault)

  /** What a use case returns: an order, an error, or both. */
  datatype Reply = Reply(order: Option<Order>, err: Option<Error>)

  datatype DB = DB(rows: Table, notified: seq<string>)

  /** `cache` is `None` when the use case was built without one. */
  datatype World = World(db: DB, cache: Option<CacheMap>)

  // ---------- what each call does, as a function ----------

  function Update(db: DB, id: string, status: Status, env: Env): DB {
    DB(Updated(db.rows, id, status, env.update), db.notified + Notified(db.rows, id, status, env.update, env.notify))
  }

  function Warm(w: World, o: Order, env: Env): World {
    if w.cache.None? then w else w.(cache := Some(Warmed(w.cache.value, o, env.now, env.warm)))
  }

  function Invalidate(w: World, id: string, env: Env): World {
    if w.cache.None? then w else w.(cache := Some(Dropped(w.cache.value, id, env.del)))
  }

  function Pay(w: World, o: Order, env: Env): (Reply, World) {
    match env.gateway
    case Unreachable =>
      var w' := w.(db := Update(w.db, o.id, Failed, env));
      (Reply(Some(o.(status := Failed)), Some(PaymentServiceUnavailable)), Invalidate(w', o.id, env))
    case Authorized =>
      var w' := w.(db := Update(w.db, o.id, Paid, env));
      var err := UpdateError(w.db.rows, o.id, env.update);
      if err.Some? then (Reply(None, err), w')
      else (Reply(Some(o.(status := Paid)), None), Warm(w', o.(status := Paid), env))
    case OtherStatus =>
      var w' := w.(db := Update(w.db, o.id, Failed, env));
      var err := UpdateError(w.db.rows, o.id, env.update);
      if err.Some? then (Reply(None, err), w')
      else (Reply(Some(o.(status := Failed)), Some(PaymentDeclined)), Invalidate(w', o.id, env))
  }

  function Place(w: World, o: Order, env: Env): (Reply, World) {
    var w' := w.(db := w.db.(rows := Inserted(w.db.rows, o, env.insert)));
    if !CanInsert(w.db.rows, o) || env.insert != NoFault then (Reply(None, Some(StoreFailed)), w')
    else Pay(w', o, env)
  }

  /** `o` is the order the call would create: pending, with a drawn id. */
  function Create(w: World, o: Order, env: Env): (Reply, World)
    requires ValidTable(w.db.rows)
  {
    if o.amount <= 0 then (Reply(None, Some(InvalidAmount)), w)
    else if o.key.Some? && o.key.value != "" then
      if env.lookupFails then (Reply(None, Some(StoreFailed)), w)
      else
        var existing := WithKey(w.db.rows, o.key.value);
        if existing.Some? then (Reply(existing, None), w) else Place(w, o, env)
    else Place(w, o, env)
  }

  // ---------- what a caller, a subscriber and a later reader learn ----------

  /** What DEL does to the cache unless it is lost. */
  ghost predicate Forgets(cache: Option<CacheMap>, id: string, del: Fault, cache': Option<CacheMap>) {
    && cache'.Some? == cache.Some?
    && (cache.Some? ==> cache'.value == if del == NotApplied then cache.value else map k | k in cache.value && k != id :: cache.value[k])
  }

  /** What SET does to the cache unless it is lost. */
  ghost predicate Remembers(cache: Option<CacheMap>, o: Order, now: nat, warm: Fault, cache': Option<CacheMap>) {
    && cache'.Some? == cache.Some?
    && (cache.Some? ==> cache'.value == if warm == NotApplied then cache.value else cache.value[o.id := Entry(o, now)])
  }

  /** What a caller learns once the row has been inserted. */
  lemma PayOutcomes(w: World, o: Order, env: Env)
    requires o.id in w.db.rows && w.db.rows[o.id] == o && o.status == Pending
    ensures var (r, w') := Pay(w, o, env);
            && w'.db.rows.Keys == w.db.rows.Keys
            && (forall id :: id in w.db.rows && id != o.id ==> w'.db.rows[id] == w.db.rows[id])
            && (r.err.None? <==> env.gateway == Authorized && env.update == NoFault)
            && (r.err.None? ==> r.order == Some(o.(status := Paid)) && w'.db.rows[o.id] == o.(status := Paid))
            && (r.err == Some(PaymentDeclined) <==> env.gateway == OtherStatus && env.update == NoFault)
            && (r.err == Some(PaymentDeclined) ==> r.order == Some(o.(status := Failed)) && w'.db.rows[o.id] == o.(status := Failed))
            && (r.err == Some(PaymentServiceUnavailable) <==> env.gateway == Unreachable)
            && (r.err == Some(PaymentServiceUnavailable) ==>
                  r.order == Some(o.(status := Failed)) && w'.db.rows[o.id].status == if env.update == NotApplied then Pending else Failed)
            && (r.order.None? ==> r.err == Some(StoreFailed))
            && w'.db.rows[o.id].(status := Pending) == o
  {
  }

  lemma ForgetsIsDropped(w: World, id: string, env: Env)
    ensures Forgets(w.cache, id, env.del, Invalidate(w, id, env).cache)
  {
  }

  lemma PayloadIsText(id: string)
    ensures EventBus.Payload(id, StatusText(Paid)) == id + ":Paid"
    ensures EventBus.Payload(id, StatusText(Failed)) == id + ":Failed"
    ensures EventBus.Payload(id, StatusText(Cancelled)) == id + ":Cancelled"
  {
    assert id + ":" + "Paid" == id + ":Paid";
    assert id + ":" + "Failed" == id + ":Failed";
    assert id + ":" + "Cancelled" == id + ":Cancelled";
  }

  /** After the insert the new status is announced exactly when its update succeeds and the NOTIFY
      gets through; the cache is warmed with a paid order and forgets a failed one. */
  lemma PayAnnounces(w: World, o: Order, env: Env)
    requires o.id in w.db.rows
    ensures var (r, w') := Pay(w, o, env);
            && w'.db.notified == w.db.notified + (
                  if env.update != NoFault || !env.notify then [] else if env.gateway == Authorized then [o.id + ":Paid"] else [o.id + ":Failed"])
            && (if env.gateway == Authorized && env.update == NoFault then Remembers(w.cache, o.(status := Paid), env.now, env.warm, w'.cache)
                else if env.gateway == Unreachable || env.update == NoFault then Forgets(w.cache, o.id, env.del, w'.cache)
                else w'.cache == w.cache)
  {
    PayloadIsText(o.id);
    ForgetsIsDropped(w, o.id, env);
  }

  /** What a caller learns from CreateOrder. An order without an error is the stored row, and a
      new one is paid and was authorised. A declined order is stored as Failed. When the payment
      service is unavailable the reply says Failed whether or not the row could be updated.
      An error without an order may leave a Pending or a settled row behind. */
  lemma CreateOutcomes(w: World, o: Order, env: Env)
    requires ValidTable(w.db.rows) && o.status == Pending
    ensures var (r, w') := Create(w, o, env);
            var row := if o.id in w'.db.rows then Some(w'.db.rows[o.id]) else None;
            var isNew := o.id !in w.db.rows && row.Some?;
            && (r.err.None? <==> r.order.Some? && r.order.value.id in w'.db.rows && w'.db.rows[r.order.value.id] == r.order.value
                                 && (isNew ==> r.order.value == o.(status := Paid) && env.gateway == Authorized)
                                 && (!isNew ==> w' == w && r.order.value.key == o.key))
            && (r.err == Some(PaymentDeclined) ==> isNew && env.gateway == OtherStatus && r.order == row == Some(o.(status := Failed)))
            && (r.err == Some(PaymentServiceUnavailable) ==>
                  && isNew && env.gateway == Unreachable && r.order == Some(o.(status := Failed))
                  && (r.order == row <==> env.update != NotApplied))
            && (r.order.None? <==> r.err == Some(InvalidAmount) || r.err == Some(StoreFailed))
            && (r.err == Some(InvalidAmount) <==> o.amount <= 0) && (r.err == Some(InvalidAmount) ==> w' == w)
            && w'.db.rows.Keys == w.db.rows.Keys + (if isNew then {o.id} else {})
            && (forall id :: id in w.db.rows ==> w'.db.rows[id] == w.db.rows[id])
  {
    if o.amount > 0 && o.key.Some? && o.key.value != "" && (env.lookupFails || WithKey(w.db.rows, o.key.value).Some?) {
    } else if o.amount > 0 && CanInsert(w.db.rows, o) && env.insert == NoFault {
      PayOutcomes(w.(db := w.db.(rows := w.db.rows[o.id := o])), o, env);
    }
  }

  /** A retry with the key of a stored order returns that order and does nothing else. */
  lemma RetryReturnsTheOrder(w: World, o: Order, id: string, env: Env)
    requires ValidTable(w.db.rows) && id in w.db.rows
    requires o.amount > 0 && o.key.Some? && o.key.value != "" && w.db.rows[id].key == o.key
    ensures Create(w, o, env) == (if env.lookupFails then Reply(None, Some(StoreFailed)) else Reply(Some(w.db.rows[id]), None), w)
  {
  }

  /** A row is inserted exactly when the amount is positive, the lookup of a non-empty key works, the id and
      the key are new, and the INSERT is applied; it differs from the order at most in its status. */
  lemma InsertsIff(w: World, o: Order, env: Env)
    requires ValidTable(w.db.rows) && o.id !in w.db.rows
    ensures var rows' := Create(w, o, env).1.db.rows;
            o.id in rows' ==> exists status :: rows'[o.id] == o.(status := status) && (env.insert != NoFault ==> status == o.status)
    ensures var (_, w') := Create(w, o, env);
            o.id in w'.db.rows <==>
              && o.amount > 0 && env.insert != NotApplied
              && (o.key.Some? && o.key.value != "" ==> !env.lookupFails)
              && (o.key.Some? ==> forall id :: id in w.db.rows ==> w.db.rows[id].key != o.key)
  {
  }

  /** What CreateOrder announces and caches: nothing unless it inserted a row without an error. Then the
      order's new status is announced exactly when the payment settled, its update succeeded and
      the NOTIFY got through, and the cache holds the paid order or forgets the failed one. */
  lemma CreateAnnounces(w: World, o: Order, env: Env)
    requires ValidTable(w.db.rows)
    ensures var (r, w') := Create(w, o, env);
            if o.id in w.db.rows || o.id !in w'.db.rows || env.insert != NoFault then w'.db.notified == w.db.notified && w'.cache == w.cache
            else
              && w'.db.notified == w.db.notified + (
                    if env.update != NoFault || !env.notify then [] else if env.gateway == Authorized then [o.id + ":Paid"] else [o.id + ":Failed"])
              && (if env.gateway == Authorized && env.update == NoFault then Remembers(w.cache, o.(status := Paid), env.now, env.warm, w'.cache)
                  else if env.gateway == Unreachable || env.update == NoFault then Forgets(w.cache, o.id, env.del, w'.cache)
                  else w'.cache == w.cache)
  {
    if o.amount > 0 && CanInsert(w.db.rows, o) && env.insert == NoFault {
      PayAnnounces(w.(db := w.db.(rows := w.db.rows[o.id := o])), o, env);
    }
  }

  function Hit(w: World, ttl: int, id: string, env: Env): Option<Order> {
    if w.cache.None? then None else Cached(w.cache.value, ttl, id, env.now, env.getFails)
  }

  function Get(w: World, ttl: int, id: string, env: Env): (Reply, World) {
    var hit := Hit(w, ttl, id, env);
    if hit.Some? then (Reply(hit, None), w)
    else if env.readFails then (Reply(None, Some(StoreFailed)), w)
    else if id !in w.db.rows then (Reply(None, Some(OrderNotFound)), w)
    else (Reply(Some(w.db.rows[id]), None), Warm(w, w.db.rows[id], env))
  }

  function Cancel(w: World, id: string, env: Env): (Reply, World) {
    if env.readFails then (Reply(None, Some(StoreFailed)), w)
    else if id !in w.db.rows then (Reply(None, Some(OrderNotFound)), w)
    else if !CanBeCancelled(w.db.rows[id]) then (Reply(None, Some(CancelNotAllowed)), w)
    else
      var w' := w.(db := Update(w.db, id, Cancelled, env));
      var err := UpdateError(w.db.rows, id, env.update);
      if err.Some? then (Reply(None, err), w')
      else (Reply(Some(w.db.rows[id].(status := Cancelled)), None), Invalidate(w', id, env))
  }

  function MarkPaid(w: World, id: string, env: Env): (Reply, World) {
    var w' := w.(db := Update(w.db, id, Paid, env));
    var err := UpdateError(w.db.rows, id, env.update);
    if err.Some? then (Reply(None, err), w') else (Reply(None, None), Invalidate(w', id, env))
  }

  /** GetOrder changes no row and announces nothing. An error is shown only on a miss; an order shown is the
      live cached one, or else the row, which is then cached. */
  lemma GetOutcomes(w: World, ttl: int, id: string, env: Env)
    ensures var (r, w') := Get(w, ttl, id, env);
            var hit := w.cache.Some? && !env.getFails && id in w.cache.value && (ttl <= 0 || env.now < w.cache.value[id].setAt + ttl);
            && w'.db == w.db && r.order.Some? == r.err.None?
            && (hit ==> r.order == Some(w.cache.value[id].order) && w' == w)
            && (r.err == Some(StoreFailed) <==> !hit && env.readFails)
            && (r.err == Some(OrderNotFound) <==> !hit && !env.readFails && id !in w.db.rows)
            && (!hit && r.err.Some? ==> w' == w && (r.err == Some(StoreFailed) || r.err == Some(OrderNotFound)))
            && (!hit && r.err.None? ==> r.order == Some(w.db.rows[id]) && Remembers(w.cache, w.db.rows[id], env.now, env.warm, w'.cache))
  {
  }

  /** CancelOrder returns the cancelled order exactly when a Pending row is read and its update succeeds, which is
      then announced and leaves the cache without the order; each error says which step failed, and only a failed
      update can have changed the row. */
  lemma CancelOutcomes(w: World, id: string, env: Env)
    ensures var (r, w') := Cancel(w, id, env);
            var pending := !env.readFails && id in w.db.rows && w.db.rows[id].status == Pending;
            && (r.err.None? <==> pending && env.update == NoFault)
            && (r.err.None? ==>
                  && r.order == Some(w.db.rows[id].(status := Cancelled)) && w'.db.rows == w.db.rows[id := r.order.value]
                  && w'.db.notified == w.db.notified + (if env.notify then [id + ":Cancelled"] else [])
                  && Forgets(w.cache, id, env.del, w'.cache))
            && (r.err == Some(OrderNotFound) <==> !env.readFails && id !in w.db.rows)
            && (r.err == Some(CancelNotAllowed) <==> !env.readFails && id in w.db.rows && w.db.rows[id].status != Pending)
            && (r.err == Some(StoreFailed) <==> env.readFails || (pending && env.update != NoFault))
            && (r.err.Some? ==>
                  && r.order.None? && w'.db.notified == w.db.notified && w'.cache == w.cache
                  && w'.db.rows == if pending && env.update != NotApplied then w.db.rows[id := w.db.rows[id].(status := Cancelled)] else w.db.rows)
  {
    PayloadIsText(id);
    ForgetsIsDropped(w.(db := Update(w.db, id, Cancelled, env)), id, env);
  }

  /** MarkOrderPaid never looks at the status: it makes any existing row Paid unless the update is lost, and
      announces and invalidates on success only. */
  lemma MarkPaidOutcomes(w: World, id: string, env: Env)
    ensures var (r, w') := MarkPaid(w, id, env);
            && r.order.None?
            && (r.err == Some(StoreFailed) <==> env.update != NoFault)
            && (r.err == Some(OrderNotFound) <==> env.update == NoFault && id !in w.db.rows)
            && (r.err.None? <==> env.update == NoFault && id in w.db.rows)
            && w'.db.rows == (if id in w.db.rows && env.update != NotApplied then w.db.rows[id := w.db.rows[id].(status := Paid)] else w.db.rows)
            && w'.db.notified == w.db.notified + (if r.err.None? && env.notify then [id + ":Paid"] else [])
            && (if r.err.None? then Forgets(w.cache, id, env.del, w'.cache) else w'.cache == w.cache)
  {
    PayloadIsText(id);
    ForgetsIsDropped(w.(db := Update(w.db, id, Paid, env)), id, env);
  }

  // ---------- the use case object ----------

  class UseCase {
    const repo: PostgresOrderRepository
    const cache: RedisOrderCache?

    constructor (repo: PostgresOrderRepository, cache: RedisOrderCache?)
      ensures this.repo == repo && this.cache == cache
    {
      this.repo, this.cache := repo, cache;
    }

    ghost function Abs(): World
      reads repo, cache
    {
      World(DB(repo.rows, repo.notified), if cache == null then None else Some(cache.entries))
    }

    function TTL(): int {
      if cache == null then 0 else cache.ttl
    }

    method InvalidateCache(id: string, env: Env)
      modifies cache
      ensures Abs() == Invalidate(old(Abs()), id, env)
    {
      if cache == null {
        return;
      }
      cache.Delete(id, env.del);
    }

    method WarmCache(o: Order, env: Env)
      modifies cache
      ensures Abs() == Warm(old(Abs()), o, env)
    {
      if cache != null {
        cache.Set(o, env.now, env.warm);
      }
    }

    method CreateOrder(id: string, customerID: string, itemName: string, amount: int, key: Option<string>, env: Env)
        returns (r: Reply)
      requires ValidTable(repo.rows)
      modifies repo, cache
      ensures ValidTable(repo.rows)
      ensures (r, Abs()) == Create(old(Abs()), Order(id, customerID, itemName, amount, Pending, key), env)
    {
      if amount <= 0 {
        return Reply(None, Some(InvalidAmount));
      }
      if key.Some? && key.value != "" {
        var existing, err := repo.GetByIdempotencyKey(key.value, env.lookupFails);
        if err.Some? {
          return Reply(None, err);
        }
        if existing.Some? {
          return Reply(existing, None);
        }
      }
      var order := Order(id, customerID, itemName, amount, Pending, key);
      var err := repo.Create(order, env.insert);
      if err.Some? {
        return Reply(None, err);
      }
      match env.gateway {
        case Unreachable =>
          var _ := repo.UpdateStatus(order.id, Failed, env.update, env.notify);
          order := order.(status := Failed);
          InvalidateCache(order.id, env);
          return Reply(Some(order), Some(PaymentServiceUnavailable));
        case Authorized =>
          err := repo.UpdateStatus(order.id, Paid, env.update, env.notify);
          if err.Some? {
            return Reply(None, err);
          }
          order := order.(status := Paid);
        case OtherStatus =>
          err := repo.UpdateStatus(order.id, Failed, env.update, env.notify);
          if err.Some? {
            return Reply(None, err);
          }
          order := order.(status := Failed);
          InvalidateCache(order.id, env);
          return Reply(Some(order), Some(PaymentDeclined));
      }
      WarmCache(order, env);
      return Reply(Some(order), None);
    }

    method GetOrder(id: string, env: Env) returns (r: Reply)
      modifies cache
      ensures (r, Abs()) == Get(old(Abs()), TTL(), id, env)
    {
      if cache != null {
        var cached := cache.Get(id, env.now, env.getFails);
        if cached.Some? {
          return Reply(cached, None);
        }
      }
      var order, err := repo.GetByID(id, env.readFails);
      if err.Some? {
        return Reply(None, err);
      }
      if order.None? {
        return Reply(None, Some(OrderNotFound));
      }
      assert id in repo.rows;
      WarmCache(order.value, env);
      return Reply(order, None);
    }

    method CancelOrder(id: string, env: Env) returns (r: Reply)
      requires ValidTable(repo.rows)
      modifies repo, cache
      ensures ValidTable(repo.rows)
      ensures (r, Abs()) == Cancel(old(Abs()), id, env)
    {
      var order, err := repo.GetByID(id, env.readFails);
      if err.Some? {
        return Reply(None, err);
      }
      if order.None? {
        return Reply(None, Some(OrderNotFound));
      }
      if !CanBeCancelled(order.value) {
        return Reply(None, Some(CancelNotAllowed));
      }
      err := repo.UpdateStatus(id, Cancelled, env.update, env.notify);
      if err.Some? {
        return Reply(None, err);
      }
      var cancelled := order.value.(status := Cancelled);
      InvalidateCache(id, env);
      return Reply(Some(cancelled), None);
    }

    method MarkOrderPaid(id: string, env: Env) returns (r: Reply)
      requires ValidTable(repo.rows)
      modifies repo, cache
      ensures ValidTable(repo.rows)
      ensures (r, Abs()) == MarkPaid(old(Abs()), id, env)
    {
      var err := repo.UpdateStatus(id, Paid, env.update, env.notify);
      if err.Some? {
        return Reply(None, err);
      }
      InvalidateCache(id, env);
      return Reply(None, None);
    }
  }
}
