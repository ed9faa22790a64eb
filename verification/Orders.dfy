/**
 Orders, their table in Postgres and their cache in Redis, each with the outcomes its
 commands can have.
 */
module Orders {
  import opened Options
  import opened Faults
  import EventBus

  datatype Status = Pending | Paid | Failed | Cancelled

  datatype Order = Order(id: string, customerID: string, itemName: string, amount: int, status: Status, key: Option<string>)

  datatype Error =
    | InvalidAmount | StoreFailed | OrderNotFound | PaymentServiceUnavailable | PaymentDeclined | CancelNotAllowed

  type Table = map<string, Order>

  function StatusText(s: Status): string {
    match s case Pending => "Pending" case Paid => "Paid" case Failed => "Failed" case Cancelled => "Cancelled"
  }

  predicate CanBeCancelled(o: Order) {
    o.status == Pending
  }

  // ---------- the orders table ----------

  /** INSERT succeeds when the id and a non-null idempotency key are new and the amount is positive. */
  predicate CanInsert(rows: Table, o: Order) {
    && o.id !in rows && o.amount > 0
    && (o.key.Some? ==> forall id :: id in rows ==> rows[id].key != o.key)
  }

  function Inserted(rows: Table, o: Order, fault: Fault): Table {
    if CanInsert(rows, o) && fault != NotApplied then rows[o.id := o] else rows
  }

  /** UPDATE ... SET status WHERE id: unconditional in the old status. */
  function Updated(rows: Table, id: string, status: Status, fault: Fault): Table {
    if id in rows && fault != NotApplied then rows[id := rows[id].(status := status)] else rows
  }

  function UpdateError(rows: Table, id: string, fault: Fault): Option<Error> {
    if fault != NoFault then Some(StoreFailed) else if id !in rows then Some(OrderNotFound) else None
  }

  /** NOTIFY follows a successful UPDATE when a bus is attached and the statement gets through. */
  function Notified(rows: Table, id: string, status: Status, fault: Fault, notify: bool): seq<string> {
    if UpdateError(rows, id, fault).None? && notify then [EventBus.Payload(id, StatusText(status))] else []
  }

  /** A notification tells the id and the new status of the row apart, exactly when the id has no colon. */
  lemma NotificationIsReadBack(rows: Table, id: string, status: Status, other: Status, fault: Fault)
    requires id in rows
    ensures StatusText(status) == StatusText(other) <==> status == other
    ensures StatusText(Pending) == "Pending" && StatusText(Paid) == "Paid" && StatusText(Failed) == "Failed" && StatusText(Cancelled) == "Cancelled"
    ensures Notified(rows, id, status, fault, true) != [] <==> fault == NoFault
    ensures fault == NoFault ==>
              var sent := Notified(rows, id, status, fault, true);
              |sent| == 1 && (EventBus.Parse(sent[0]) == Some(EventBus.Event(id, StatusText(Updated(rows, id, status, fault)[id].status))) <==> ':' !in id)
  {
    EventBus.PayloadRoundTripIff(id, StatusText(status));
    assert StatusText(Pending)[1] == 'e' && StatusText(Paid)[1] == 'a' && StatusText(Failed)[0] == 'F' && StatusText(Cancelled)[0] == 'C';
  }

  /** The unique constraints of the migration. */
  ghost predicate ValidTable(rows: Table) {
    && (forall id :: id in rows ==> rows[id].id == id && rows[id].amount > 0)
    && (forall i, j :: i in rows && j in rows && i != j && rows[i].key.Some? ==> rows[i].key != rows[j].key)
  }

  /** What the row constraints of the migration mean: an INSERT is possible exactly when the table stays valid with the new row. */
  lemma CanInsertIff(rows: Table, o: Order)
    requires ValidTable(rows)
    ensures CanInsert(rows, o) <==> o.id !in rows && ValidTable(rows[o.id := o])
  {
    var rows' := rows[o.id := o];
    if o.id !in rows && ValidTable(rows') {
      assert rows'[o.id] == o;
      forall id | id in rows && o.key.Some?
        ensures rows[id].key != o.key
      {
        assert id in rows' && rows'[id] == rows[id];
      }
    }
  }

  function WithKey(rows: Table, key: string): (r: Option<Order>)
    requires ValidTable(rows)
    ensures r.Some? ==> r.value.id in rows && rows[r.value.id] == r.value && r.value.key == Some(key)
    ensures r.None? ==> forall id :: id in rows ==> rows[id].key != Some(key)
  {
    if exists id :: id in rows && rows[id].key == Some(key) then
      assert forall i, j :: i in rows && rows[i].key == Some(key) && j in rows && rows[j].key == Some(key) ==> i == j;
      var id :| id in rows && rows[id].key == Some(key);
      Some(rows[id])
    else None
  }

  class PostgresOrderRepository {
    var rows: Table
    var notified: seq<string>

    constructor ()
      ensures rows == map[] && notified == [] && ValidTable(rows)
    {
      rows, notified := map[], [];
    }

    method Create(o: Order, fault: Fault) returns (err: Option<Error>)
      requires ValidTable(rows)
      modifies this`rows
      ensures ValidTable(rows) && rows == Inserted(old(rows), o, fault)
      ensures err.None? <==> CanInsert(old(rows), o) && fault == NoFault
      ensures err.Some? ==> err.value == StoreFailed
    {
      var possible := CanInsert(rows, o);
      if possible && fault != NotApplied {
        rows := rows[o.id := o];
      }
      return if possible && fault == NoFault then None else Some(StoreFailed);
    }

    method GetByID(id: string, fails: bool) returns (o: Option<Order>, err: Option<Error>)
      ensures err == if fails then Some(StoreFailed) else None
      ensures o == if !fails && id in rows then Some(rows[id]) else None
    {
      if fails {
        return None, Some(StoreFailed);
      }
      return if id in rows then Some(rows[id]) else None, None;
    }

    method GetByIdempotencyKey(key: string, fails: bool) returns (o: Option<Order>, err: Option<Error>)
      requires ValidTable(rows)
      ensures err == if fails then Some(StoreFailed) else None
      ensures o == if fails then None else WithKey(rows, key)
    {
      if fails {
        return None, Some(StoreFailed);
      }
      return WithKey(rows, key), None;
    }

    method UpdateStatus(id: string, status: Status, fault: Fault, notify: bool) returns (err: Option<Error>)
      requires ValidTable(rows)
      modifies this
      ensures ValidTable(rows) && rows == Updated(old(rows), id, status, fault)
      ensures err == UpdateError(old(rows), id, fault)
      ensures notified == old(notified) + Notified(old(rows), id, status, fault, notify)
    {
      var found := id in rows;
      if found && fault != NotApplied {
        rows := rows[id := rows[id].(status := status)];
      }
      if fault != NoFault {
        return Some(StoreFailed);
      }
      if !found {
        return Some(OrderNotFound);
      }
      if notify {
        notified := notified + [EventBus.Payload(id, StatusText(status))];
      }
      return None;
    }
  }

  // ---------- the cache ----------

  datatype Entry = Entry(order: Order, setAt: nat)

  type CacheMap = map<string, Entry>

  /** A non-positive TTL stores without an expiry. */
  predicate Live(ttl: int, e: Entry, now: nat) {
    ttl <= 0 || now < e.setAt + ttl
  }

  function Cached(cache: CacheMap, ttl: int, id: string, now: nat, fails: bool): Option<Order> {
    if !fails && id in cache && Live(ttl, cache[id], now) then Some(cache[id].order) else None
  }

  function Warmed(cache: CacheMap, o: Order, now: nat, fault: Fault): CacheMap {
    if fault == NotApplied then cache else cache[o.id := Entry(o, now)]
  }

  function Dropped(cache: CacheMap, id: string, fault: Fault): CacheMap {
    if fault == NotApplied then cache else cache - {id}
  }

  class RedisOrderCache {
    var entries: CacheMap
    const ttl: int

    constructor (ttl: int)
      ensures entries == map[] && this.ttl == ttl
    {
      entries, this.ttl := map[], ttl;
    }

    /** A miss, an expired entry and an error all read as a miss. */
    method Get(id: string, now: nat, fails: bool) returns (o: Option<Order>)
      ensures o == Cached(entries, ttl, id, now, fails)
    {
      if fails {
        return None;
      }
      if id in entries && Live(ttl, entries[id], now) {
        return Some(entries[id].order);
      }
      return None;
    }

    method Set(o: Order, now: nat, fault: Fault)
      modifies this
      ensures entries == Warmed(old(entries), o, now, fault)
    {
      if fault != NotApplied {
        entries := entries[o.id := Entry(o, now)];
      }
    }

    method Delete(id: string, fault: Fault)
      modifies this
      ensures entries == Dropped(old(entries), id, fault)
    {
      if fault != NotApplied {
        entries := entries - {id};
      }
    }
  }
}
