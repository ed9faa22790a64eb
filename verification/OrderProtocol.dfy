/**
 The order use cases as interleaved processes: each database, cache and gateway command is
 one step, and any number of CreateOrder, GetOrder, CancelOrder and MarkPaid calls overlap.
 Rows carry the history of their status; columns other than the status never change after
 the insert, so a cached order is determined by the status it shows.
 */
module OrderProtocol {
  import opened Options
  import opened Faults
  import opened Orders
  import Payments

  /** A status write and its time. */
  datatype Write = Write(at: nat, status: Status)

  /** A row: its amount, its idempotency key and every status it had, the last being current. */
  datatype Row = Row(amount: int, key: Option<string>, log: seq<Write>)

  /** A status read from a row: which write it was, and when it was read. */
  datatype Snapshot = Snapshot(status: Status, version: nat, readAt: nat)

  /** A cache entry. Auxiliary: `late` when the row had been written again between the read
      of the snapshot and its Set. */
  datatype Slot = Slot(snap: Snapshot, setAt: nat, late: bool)

  datatype Payment = Payment(orderID: string, amount: int, status: Payments.Status)

  datatype Reply = Authorized | Declined | Failure

  datatype Op = Create(amount: int, key: Option<string>) | Get(id: string) | Cancel(id: string) | MarkPaid(id: string)

  /** Where a call is: before which command. */
  datatype Proc =
    | Idle
    | Lookup(amount: int, name: string)
    | Insert(amount: int, key: Option<string>)
    | Call(id: string)
    | Await(id: string)
    | FailAfterError(id: string)
    | PayRow(id: string)
    | FailDeclined(id: string)
    | Invalidate(id: string, creates: bool)
    | SetPaid(id: string, snap: Snapshot)
    | ReadCache(id: string)
    | ReadRow(id: string)
    | Fill(id: string, snap: Snapshot)
    | ReadToCancel(id: string)
    | CancelRow(id: string)
    | MarkRow(id: string)

  /** An order a CreateOrder call returned, and a status a GetOrder call returned. */
  datatype Returned = Returned(key: Option<string>, id: string)
  datatype Seen = Seen(id: string, snap: Snapshot, at: nat)

  /** Auxiliary: `dirty` holds the ids whose present cache entry has outlived an invalidation that
      was lost. */
  datatype State = State(
    now: nat,
    rows: map<string, Row>,
    cache: map<string, Slot>,
    procs: seq<Proc>,
    rpcs: map<string, int>,
    replies: map<string, Reply>,
    payments: seq<Payment>,
    called: seq<string>,
    returned: seq<Returned>,
    seen: seq<Seen>,
    dirty: set<string>)

  datatype Step =
    | Tick(to: nat)
    | Evict(id: string)
    | DirectPayment(orderID: string, amount: int)
    | Serve(id: string, insert: Fault)
    | Start(p: nat, op: Op)
    | LookupKey(p: nat, fails: bool)
    | InsertRow(p: nat, id: string, fault: Fault)
    | CallGateway(p: nat)
    | Receive(p: nat)
    | Timeout(p: nat)
    | Update(p: nat, fault: Fault)
    | Delete(p: nat, fault: Fault)
    | Set(p: nat, fault: Fault)
    | CacheGet(p: nat, fails: bool)
    | Read(p: nat, fails: bool)
    | Crash(p: nat)

  function Current(r: Row): Status
    requires r.log != []
  {
    r.log[|r.log| - 1].status
  }

  function SnapshotOf(r: Row, now: nat): Snapshot
    requires r.log != []
  {
    Snapshot(Current(r), |r.log|, now)
  }

  predicate KeyTaken(rows: map<string, Row>, key: Option<string>) {
    key.Some? && exists id :: id in rows && rows[id].key == key
  }

  predicate Updating(p: Proc) {
    p.FailAfterError? || p.PayRow? || p.FailDeclined? || p.CancelRow? || p.MarkRow?
  }

  /** The status a call is about to write with UpdateStatus. */
  function StatusToWrite(p: Proc): Status
    requires Updating(p)
  {
    match p
    case PayRow(_) => Paid
    case MarkRow(_) => Paid
    case CancelRow(_) => Cancelled
    case _ => Failed
  }

  /** Between a status write and the cache command that follows it. */
  predicate InBetween(p: Proc) {
    p.Invalidate? || p.SetPaid?
  }

  /** In the middle of a CreateOrder for a row that exists. */
  predicate Creating(p: Proc) {
    p.Call? || p.Await? || p.FailAfterError? || p.PayRow? || p.FailDeclined?
  }

  predicate Mine(s: State, p: nat) {
    p < |s.procs|
  }

  // ---------- the step relation ----------

  predicate Enabled(s: State, a: Step) {
    match a
    case Tick(to) => s.now <= to
    case Evict(id) => id in s.cache
    case DirectPayment(_, amount) => amount > 0
    case Serve(id, _) => id in s.rpcs
    case Start(p, op) => Mine(s, p) && s.procs[p].Idle?
    case LookupKey(p, _) => Mine(s, p) && s.procs[p].Lookup?
    case InsertRow(p, _, _) => Mine(s, p) && s.procs[p].Insert?
    case CallGateway(p) => Mine(s, p) && s.procs[p].Call? && s.procs[p].id in s.rows
    case Receive(p) => Mine(s, p) && s.procs[p].Await? && s.procs[p].id in s.replies
    case Timeout(p) => Mine(s, p) && (s.procs[p].Await? || s.procs[p].Call?)
    case Update(p, _) => Mine(s, p) && Updating(s.procs[p])
    case Delete(p, _) => Mine(s, p) && s.procs[p].Invalidate? && (s.procs[p].creates ==> s.procs[p].id in s.rows)
    case Set(p, _) => Mine(s, p) && (s.procs[p].SetPaid? || s.procs[p].Fill?) && s.procs[p].id in s.rows
    case CacheGet(p, _) => Mine(s, p) && s.procs[p].ReadCache?
    case Read(p, _) => Mine(s, p) && (s.procs[p].ReadRow? || s.procs[p].ReadToCancel?)
                       && (s.procs[p].id in s.rows ==> s.rows[s.procs[p].id].log != [])
    case Crash(p) => Mine(s, p)
  }

  function Goto(s: State, p: nat, to: Proc): State
    requires Mine(s, p)
  {
    s.(procs := s.procs[p := to])
  }

  function Began(op: Op): Proc {
    match op
    case Create(amount, key) =>
      if amount <= 0 then Idle
      else if key.Some? && key.value != "" then Lookup(amount, key.value)
      else Insert(amount, key)
    case Get(id) => ReadCache(id)
    case Cancel(id) => ReadToCancel(id)
    case MarkPaid(id) => MarkRow(id)
  }

  /** The lookup returns the existing order, or goes on to the insert. */
  ghost function AfterLookup(s: State, p: nat, fails: bool): State
    requires Mine(s, p) && s.procs[p].Lookup?
  {
    var key := Some(s.procs[p].name);
    if fails then Goto(s, p, Idle)
    else if KeyTaken(s.rows, key) then
      var id :| id in s.rows && s.rows[id].key == key;
      Goto(s, p, Idle).(returned := s.returned + [Returned(key, id)])
    else Goto(s, p, Insert(s.procs[p].amount, key))
  }

  /** INSERT, subject to both unique constraints; on any error the call ends. */
  function AfterInsert(s: State, p: nat, id: string, fault: Fault): State
    requires Mine(s, p) && s.procs[p].Insert?
  {
    var amount, key := s.procs[p].amount, s.procs[p].key;
    if id in s.rows || KeyTaken(s.rows, key) || fault == NotApplied then Goto(s, p, Idle)
    else
      Goto(s, p, if fault == NoFault then Call(id) else Idle)
      .(rows := s.rows[id := Row(amount, key, [Write(s.now, Pending)])])
  }

  /** The payment service: decide, insert, reply. Its insert may fail, or be applied all the same. */
  function AfterServe(s: State, id: string, insert: Fault): State
    requires id in s.rpcs
  {
    var verdict := Payments.Verdict(s.rpcs[id]);
    s.(rpcs := s.rpcs - {id},
       payments := if insert == NotApplied then s.payments else s.payments + [Payment(id, s.rpcs[id], verdict)],
       replies := s.replies[id := if insert != NoFault then Failure
                                  else if verdict == Payments.Authorized then Authorized else Declined])
  }

  function AfterReply(id: string, r: Reply): Proc {
    match r
    case Authorized => PayRow(id)
    case Declined => FailDeclined(id)
    case Failure => FailAfterError(id)
  }

  /** UPDATE: appended to the row's history unless it is not applied. */
  function Written(s: State, id: string, status: Status, fault: Fault): map<string, Row> {
    if id in s.rows && fault != NotApplied
    then s.rows[id := s.rows[id].(log := s.rows[id].log + [Write(s.now, status)])]
    else s.rows
  }

  /** Where a call goes after UpdateStatus: on an error it ends without touching the cache, but
      for the path after a failed gateway call, which ignores the error. */
  function AfterUpdate(s: State, p: nat, rows: map<string, Row>, fault: Fault): Proc
    requires Mine(s, p) && Updating(s.procs[p])
  {
    var id := s.procs[p].id;
    var ok := fault == NoFault && id in s.rows;
    match s.procs[p]
    case FailAfterError(_) => Invalidate(id, true)
    case FailDeclined(_) => if ok then Invalidate(id, true) else Idle
    case PayRow(_) => if ok && id in rows && rows[id].log != [] then SetPaid(id, SnapshotOf(rows[id], s.now)) else Idle
    case _ => if ok then Invalidate(id, false) else Idle
  }

  /** The cached snapshot has been superseded by a later status write. */
  predicate Behind(rows: map<string, Row>, cache: map<string, Slot>, id: string) {
    id in cache && id in rows && cache[id].snap.version < |rows[id].log|
  }

  /** An entry that is behind its row when an invalidation is lost becomes dirty. */
  function DirtyIf(s: State, rows: map<string, Row>, id: string, lost: bool): set<string> {
    if lost && Behind(rows, s.cache, id) then s.dirty + {id} else s.dirty
  }

  function RetID(s: State, id: string): Returned
    requires id in s.rows
  {
    Returned(s.rows[id].key, id)
  }

  function AfterSet(s: State, p: nat, fault: Fault): State
    requires Mine(s, p) && (s.procs[p].SetPaid? || s.procs[p].Fill?) && s.procs[p].id in s.rows
  {
    var id, snap := s.procs[p].id, s.procs[p].snap;
    var s' := Goto(s, p, Idle).(
      cache := if fault == NotApplied then s.cache
               else s.cache[id := Slot(snap, s.now, snap.version < |s.rows[id].log|)],
      dirty := if fault == NotApplied then DirtyIf(s, s.rows, id, s.procs[p].SetPaid?) else s.dirty - {id});
    if s.procs[p].Fill? then s'.(seen := s.seen + [Seen(id, snap, s.now)])
    else s'.(returned := s.returned + [RetID(s, id)])
  }

  predicate LiveEntry(ttl: int, e: Slot, now: nat) {
    ttl <= 0 || now < e.setAt + ttl
  }

  function AfterCacheGet(s: State, ttl: int, p: nat, fails: bool): State
    requires Mine(s, p) && s.procs[p].ReadCache?
  {
    var id := s.procs[p].id;
    if !fails && id in s.cache && LiveEntry(ttl, s.cache[id], s.now)
    then Goto(s, p, Idle).(seen := s.seen + [Seen(id, s.cache[id].snap, s.now)])
    else Goto(s, p, ReadRow(id))
  }

  function AfterRead(s: State, p: nat, fails: bool): Proc
    requires Mine(s, p) && (s.procs[p].ReadRow? || s.procs[p].ReadToCancel?)
    requires s.procs[p].id in s.rows ==> s.rows[s.procs[p].id].log != []
  {
    var id := s.procs[p].id;
    if fails || id !in s.rows then Idle
    else if s.procs[p].ReadRow? then Fill(id, SnapshotOf(s.rows[id], s.now))
    else if Current(s.rows[id]) == Pending then CancelRow(id)
    else Idle
  }

  ghost function Apply(ttl: int, s: State, a: Step): State
    requires Enabled(s, a)
  {
    match a
    case Tick(to) => s.(now := to)
    case Evict(id) => s.(cache := s.cache - {id}, dirty := s.dirty - {id})
    case DirectPayment(id, amount) => s.(payments := s.payments + [Payment(id, amount, Payments.Verdict(amount))])
    case Serve(id, insert) => AfterServe(s, id, insert)
    case Start(p, op) => Goto(s, p, Began(op))
    case LookupKey(p, fails) => AfterLookup(s, p, fails)
    case InsertRow(p, id, fault) => AfterInsert(s, p, id, fault)
    case CallGateway(p) =>
      var id := s.procs[p].id;
      Goto(s, p, Await(id)).(rpcs := s.rpcs[id := s.rows[id].amount], called := s.called + [id])
    case Receive(p) => Goto(s, p, AfterReply(s.procs[p].id, s.replies[s.procs[p].id]))
    case Timeout(p) => Goto(s, p, FailAfterError(s.procs[p].id))
    case Update(p, fault) =>
      var id := s.procs[p].id;
      var rows := Written(s, id, StatusToWrite(s.procs[p]), fault);
      Goto(s, p, AfterUpdate(s, p, rows, fault))
      .(rows := rows, dirty := DirtyIf(s, rows, id, fault == AppliedWithError && !s.procs[p].FailAfterError?))
    case Delete(p, fault) =>
      var id := s.procs[p].id;
      Goto(s, p, Idle)
      .(cache := if fault == NotApplied then s.cache else s.cache - {id},
        dirty := if fault == NotApplied then DirtyIf(s, s.rows, id, true) else s.dirty - {id},
        returned := if s.procs[p].creates then s.returned + [RetID(s, id)] else s.returned)
    case Set(p, fault) => AfterSet(s, p, fault)
    case CacheGet(p, fails) => AfterCacheGet(s, ttl, p, fails)
    case Read(p, fails) => Goto(s, p, AfterRead(s, p, fails))
    case Crash(p) =>
      Goto(s, p, Idle).(dirty := if InBetween(s.procs[p]) then DirtyIf(s, s.rows, s.procs[p].id, true) else s.dirty)
  }

  predicate Init(s: State) {
    && s.rows == map[] && s.cache == map[] && s.rpcs == map[] && s.replies == map[]
    && s.payments == [] && s.called == [] && s.returned == [] && s.seen == [] && s.dirty == {}
    && forall p :: 0 <= p < |s.procs| ==> s.procs[p].Idle?
  }

  ghost predicate Follows(ttl: int, s: State, a: Step, s': State) {
    Enabled(s, a) && s' == Apply(ttl, s, a)
  }

  // ---------- runs ----------

  ghost predicate StepAt(ttl: int, states: seq<State>, steps: seq<Step>, i: nat)
    requires |states| == |steps| + 1 && i < |steps|
  {
    Follows(ttl, states[i], steps[i], states[i + 1])
  }

  ghost predicate IsPath(ttl: int, states: seq<State>, steps: seq<Step>) {
    |states| == |steps| + 1 && forall i: nat :: i < |steps| ==> StepAt(ttl, states, steps, i)
  }

  ghost predicate Behavior(ttl: int, states: seq<State>, steps: seq<Step>) {
    IsPath(ttl, states, steps) && Init(states[0])
  }

  /** The steps, each enabled in turn, lead from `s` to `s'`. */
  ghost predicate Reaches(ttl: int, s: State, steps: seq<Step>, s': State) {
    exists states: seq<State> :: IsPath(ttl, states, steps) && states[0] == s && states[|steps|] == s'
  }

  lemma ReachesCons(ttl: int, s: State, a: Step, s1: State, rest: seq<Step>, s': State)
    requires Follows(ttl, s, a, s1) && Reaches(ttl, s1, rest, s')
    ensures Reaches(ttl, s, [a] + rest, s')
  {
    var states :| IsPath(ttl, states, rest) && states[0] == s1 && states[|rest|] == s';
    var longer := [s] + states;
    forall i: nat | i < |[a] + rest|
      ensures StepAt(ttl, longer, [a] + rest, i)
    {
      if i > 0 {
        assert StepAt(ttl, states, rest, i - 1);
      }
    }
    assert IsPath(ttl, longer, [a] + rest) && longer[|[a] + rest|] == s';
  }

  lemma ReachesNone(ttl: int, s: State)
    ensures Reaches(ttl, s, [], s)
  {
    assert IsPath(ttl, [s], []);
  }

  lemma ReachesOne(ttl: int, s: State, a: Step, s': State)
    requires Follows(ttl, s, a, s')
    ensures Reaches(ttl, s, [a], s')
  {
    ReachesNone(ttl, s');
    ReachesCons(ttl, s, a, s', [], s');
    assert [a] + [] == [a];
  }

  lemma ReachesThen(ttl: int, s: State, a: seq<Step>, s1: State, b: seq<Step>, s': State)
    requires Reaches(ttl, s, a, s1) && Reaches(ttl, s1, b, s')
    ensures Reaches(ttl, s, a + b, s')
  {
    var one :| IsPath(ttl, one, a) && one[0] == s && one[|a|] == s1;
    var two :| IsPath(ttl, two, b) && two[0] == s1 && two[|b|] == s';
    var both := one[..|a|] + two;
    forall i: nat | i < |a + b|
      ensures StepAt(ttl, both, a + b, i)
    {
      if i < |a| {
        assert StepAt(ttl, one, a, i);
      } else {
        assert StepAt(ttl, two, b, i - |a|);
      }
    }
    assert IsPath(ttl, both, a + b) && both[0] == s && both[|a + b|] == s';
  }
}
