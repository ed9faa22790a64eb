/**
 The code of each order use case, running alone, is a run of the step relation in module
 OrderProtocol: the theorems over all interleavings speak about that code.
 */
module OrderRefinement {
  import opened Options
  import opened Faults
  import Orders
  import U = OrderUseCase
  import opened OrderProtocol
  import Payments

  // ---------- the same world, seen twice ----------

  ghost predicate SameRow(o: Orders.Order, r: Row, id: string) {
    o.id == id && o.amount == r.amount && o.key == r.key && r.log != [] && o.status == Current(r)
  }

  ghost predicate SameRows(rows: Orders.Table, s: State) {
    rows.Keys == s.rows.Keys && forall id :: id in rows ==> SameRow(rows[id], s.rows[id], id)
  }

  ghost predicate SameCache(cache: Orders.CacheMap, s: State) {
    cache.Keys == s.cache.Keys &&
    forall id :: id in cache ==> cache[id].order.status == s.cache[id].snap.status && cache[id].setAt == s.cache[id].setAt
  }

  ghost predicate Same(w: U.World, s: State) {
    w.cache.Some? && SameRows(w.db.rows, s) && SameCache(w.cache.value, s)
  }

  /** The state `s` with process `p` moved to `to`. */
  function With(s: State, p: nat, to: Proc): State
    requires p < |s.procs|
  {
    s.(procs := s.procs[p := to])
  }

  /** Process `p` has ended its call, and the world is the one the code left. */
  ghost predicate Ends(w: U.World, s: State, s': State, p: nat)
    requires p < |s.procs|
  {
    s'.procs == s.procs[p := Idle] && s'.now == s.now && Same(w, s')
  }

  predicate Free(s: State, p: nat) {
    p < |s.procs| && s.procs[p].Idle?
  }

  /** Starting a call in front of steps that end it. */
  lemma StartThen(ttl: int, s: State, p: nat, op: Op, rest: seq<Step>, s': State)
    requires Free(s, p) && Reaches(ttl, With(s, p, Began(op)), rest, s')
    ensures Reaches(ttl, s, [Start(p, op)] + rest, s')
  {
    ReachesCons(ttl, s, Start(p, op), With(s, p, Began(op)), rest, s');
  }

  lemma MovedIsSame(w: U.World, s: State, p: nat, to: Proc)
    requires Same(w, s) && p < |s.procs|
    ensures Same(w, With(s, p, to))
  {
  }

  lemma EndsFromMoved(w: U.World, s: State, p: nat, to: Proc, s': State)
    requires p < |s.procs| && Ends(w, With(s, p, to), s', p)
    ensures Ends(w, s, s', p)
  {
    assert s.procs[p := to][p := Idle] == s.procs[p := Idle];
  }

  // ---------- MarkPaid and CancelOrder ----------

  /** UpdateStatus and, when it succeeded, the invalidation. */
  function WriteSteps(rows: Orders.Table, id: string, p: nat, env: U.Env): seq<Step> {
    if Orders.UpdateError(rows, id, env.update).None? then [Update(p, env.update)] + [Delete(p, env.del)]
    else [Update(p, env.update)]
  }

  /** The world after them. */
  function WriteWorld(w: U.World, id: string, status: Orders.Status, env: U.Env): U.World {
    var written := w.(db := U.Update(w.db, id, status, env));
    if Orders.UpdateError(w.db.rows, id, env.update).None? then U.Invalidate(written, id, env) else written
  }

  lemma UpdateIsSame(ttl: int, w: U.World, s: State, p: nat, env: U.Env) returns (s': State)
    requires Same(w, s) && p < |s.procs| && Updating(s.procs[p])
    ensures Follows(ttl, s, Update(p, env.update), s')
    ensures var id, status := s.procs[p].id, StatusToWrite(s.procs[p]);
            && Same(w.(db := U.Update(w.db, id, status, env)), s')
            && s'.rows == Written(s, id, status, env.update) && s'.now == s.now
            && s'.procs == s.procs[p := AfterUpdate(s, p, s'.rows, env.update)]
            && s'.returned == s.returned && s'.seen == s.seen && s'.replies == s.replies && s'.payments == s.payments
  {
    s' := Apply(ttl, s, Update(p, env.update));
  }

  lemma DeleteIsSame(ttl: int, w: U.World, s: State, p: nat, env: U.Env) returns (s': State)
    requires Same(w, s) && p < |s.procs| && s.procs[p].Invalidate? && (s.procs[p].creates ==> s.procs[p].id in s.rows)
    ensures Follows(ttl, s, Delete(p, env.del), s')
    ensures Ends(U.Invalidate(w, s.procs[p].id, env), s, s', p) && s'.seen == s.seen && s'.rows == s.rows
    ensures s'.returned == s.returned + if s.procs[p].creates then [RetID(s, s.procs[p].id)] else []
  {
    s' := Apply(ttl, s, Delete(p, env.del));
  }

  lemma WriteRuns(ttl: int, w: U.World, s: State, p: nat, env: U.Env) returns (s': State)
    requires Same(w, s) && p < |s.procs| && (s.procs[p].CancelRow? || s.procs[p].MarkRow?)
    ensures Reaches(ttl, s, WriteSteps(w.db.rows, s.procs[p].id, p, env), s')
    ensures Ends(WriteWorld(w, s.procs[p].id, StatusToWrite(s.procs[p]), env), s, s', p)
  {
    var id, status := s.procs[p].id, StatusToWrite(s.procs[p]);
    var s1 := UpdateIsSame(ttl, w, s, p, env);
    if Orders.UpdateError(w.db.rows, id, env.update).None? {
      s' := DeleteIsSame(ttl, w.(db := U.Update(w.db, id, status, env)), s1, p, env);
      ReachesOne(ttl, s1, Delete(p, env.del), s');
      ReachesCons(ttl, s, Update(p, env.update), s1, [Delete(p, env.del)], s');
    } else {
      s' := s1;
      ReachesOne(ttl, s, Update(p, env.update), s');
    }
  }

  lemma MarkPaidWrites(w: U.World, id: string, env: U.Env)
    ensures U.MarkPaid(w, id, env).1 == WriteWorld(w, id, Orders.Paid, env)
  {
  }

  predicate Cancels(w: U.World, id: string, env: U.Env) {
    !env.readFails && id in w.db.rows && Orders.CanBeCancelled(w.db.rows[id])
  }

  lemma CancelWrites(w: U.World, id: string, env: U.Env)
    ensures U.Cancel(w, id, env).1 == if Cancels(w, id, env) then WriteWorld(w, id, Orders.Cancelled, env) else w
  {
  }

  function MarkPaidSteps(w: U.World, id: string, p: nat, env: U.Env): seq<Step> {
    [Start(p, MarkPaid(id))] + WriteSteps(w.db.rows, id, p, env)
  }

  lemma MarkPaidIsARun(ttl: int, w: U.World, s: State, p: nat, id: string, env: U.Env) returns (s': State)
    requires Same(w, s) && Free(s, p) && env.now == s.now
    ensures Reaches(ttl, s, MarkPaidSteps(w, id, p, env), s') && Ends(U.MarkPaid(w, id, env).1, s, s', p)
  {
    MovedIsSame(w, s, p, MarkRow(id));
    s' := WriteRuns(ttl, w, With(s, p, MarkRow(id)), p, env);
    EndsFromMoved(WriteWorld(w, id, Orders.Paid, env), s, p, MarkRow(id), s');
    MarkPaidWrites(w, id, env);
    StartThen(ttl, s, p, MarkPaid(id), WriteSteps(w.db.rows, id, p, env), s');
  }

  function CancelSteps(w: U.World, id: string, p: nat, env: U.Env): seq<Step> {
    [Start(p, Cancel(id))] + ([Read(p, env.readFails)] + if Cancels(w, id, env) then WriteSteps(w.db.rows, id, p, env) else [])
  }

  lemma CancelReads(ttl: int, w: U.World, s: State, p: nat, id: string, env: U.Env)
    requires Same(w, s) && p < |s.procs| && s.procs[p] == ReadToCancel(id)
    ensures Follows(ttl, s, Read(p, env.readFails), With(s, p, if Cancels(w, id, env) then CancelRow(id) else Idle))
  {
  }

  lemma CancelRowRuns(ttl: int, w: U.World, s: State, p: nat, id: string, env: U.Env) returns (s': State)
    requires Same(w, s) && p < |s.procs|
    ensures Reaches(ttl, With(s, p, CancelRow(id)), WriteSteps(w.db.rows, id, p, env), s')
    ensures Ends(WriteWorld(w, id, Orders.Cancelled, env), s, s', p)
  {
    MovedIsSame(w, s, p, CancelRow(id));
    s' := WriteRuns(ttl, w, With(s, p, CancelRow(id)), p, env);
    EndsFromMoved(WriteWorld(w, id, Orders.Cancelled, env), s, p, CancelRow(id), s');
  }

  lemma CancelAfterRead(ttl: int, w: U.World, s: State, p: nat, id: string, env: U.Env) returns (s': State)
    requires Same(w, s) && p < |s.procs| && s.procs[p] == ReadToCancel(id)
    ensures Reaches(ttl, s, [Read(p, env.readFails)] + (if Cancels(w, id, env) then WriteSteps(w.db.rows, id, p, env) else []), s')
    ensures Ends(if Cancels(w, id, env) then WriteWorld(w, id, Orders.Cancelled, env) else w, s, s', p)
  {
    CancelReads(ttl, w, s, p, id, env);
    if Cancels(w, id, env) {
      s' := CancelRowRuns(ttl, w, s, p, id, env);
      ReachesCons(ttl, s, Read(p, env.readFails), With(s, p, CancelRow(id)), WriteSteps(w.db.rows, id, p, env), s');
    } else {
      s' := With(s, p, Idle);
      ReachesNone(ttl, s');
      ReachesCons(ttl, s, Read(p, env.readFails), s', [], s');
    }
  }

  lemma CancelIsARun(ttl: int, w: U.World, s: State, p: nat, id: string, env: U.Env) returns (s': State)
    requires Same(w, s) && Free(s, p) && env.now == s.now
    ensures Reaches(ttl, s, CancelSteps(w, id, p, env), s') && Ends(U.Cancel(w, id, env).1, s, s', p)
  {
    var rest := [Read(p, env.readFails)] + if Cancels(w, id, env) then WriteSteps(w.db.rows, id, p, env) else [];
    var w' := if Cancels(w, id, env) then WriteWorld(w, id, Orders.Cancelled, env) else w;
    MovedIsSame(w, s, p, ReadToCancel(id));
    s' := CancelAfterRead(ttl, w, With(s, p, ReadToCancel(id)), p, id, env);
    EndsFromMoved(w', s, p, ReadToCancel(id), s');
    StartThen(ttl, s, p, Cancel(id), rest, s');
    CancelWrites(w, id, env);
  }

  // ---------- GetOrder ----------

  /** The status shown is the one of the returned order. */
  ghost predicate Shows(s: State, s': State, id: string, r: U.Reply) {
    if r.order.Some?
    then |s'.seen| == |s.seen| + 1 && s'.seen[|s.seen|].id == id && s'.seen[|s.seen|].snap.status == r.order.value.status
    else s'.seen == s.seen
  }

  function FillSteps(w: U.World, id: string, p: nat, env: U.Env): seq<Step> {
    [Read(p, env.readFails)] + if !env.readFails && id in w.db.rows then [Set(p, env.warm)] else []
  }

  function GetSteps(w: U.World, ttl: int, id: string, p: nat, env: U.Env): seq<Step> {
    [Start(p, Get(id))] +
    ([CacheGet(p, env.getFails)] + if U.Hit(w, ttl, id, env).Some? then [] else FillSteps(w, id, p, env))
  }

  lemma SetIsSame(ttl: int, w: U.World, s: State, p: nat, o: Orders.Order, env: U.Env) returns (s': State)
    requires Same(w, s) && p < |s.procs| && (s.procs[p].Fill? || s.procs[p].SetPaid?) && env.now == s.now
    requires o.id == s.procs[p].id && o.id in s.rows && o.status == s.procs[p].snap.status
    ensures Follows(ttl, s, Set(p, env.warm), s')
    ensures Ends(U.Warm(w, o, env), s, s', p) && s'.rows == s.rows
    ensures s'.seen == s.seen + if s.procs[p].Fill? then [Seen(o.id, s.procs[p].snap, s.now)] else []
    ensures s'.returned == s.returned + if s.procs[p].SetPaid? then [RetID(s, o.id)] else []
  {
    s' := Apply(ttl, s, Set(p, env.warm));
  }

  lemma ReadIsSame(ttl: int, w: U.World, s: State, p: nat, id: string, env: U.Env)
    requires Same(w, s) && p < |s.procs| && s.procs[p] == ReadRow(id)
    ensures !env.readFails && id in w.db.rows ==> id in s.rows && SameRow(w.db.rows[id], s.rows[id], id)
    ensures Follows(ttl, s, Read(p, env.readFails),
                    With(s, p, if !env.readFails && id in w.db.rows then Fill(id, SnapshotOf(s.rows[id], s.now)) else Idle))
  {
    assert id in w.db.rows ==> SameRow(w.db.rows[id], s.rows[id], id);
  }

  function FillReply(w: U.World, id: string, env: U.Env): (U.Reply, U.World) {
    if env.readFails then (U.Reply(None, Some(Orders.StoreFailed)), w)
    else if id !in w.db.rows then (U.Reply(None, Some(Orders.OrderNotFound)), w)
    else (U.Reply(Some(w.db.rows[id]), None), U.Warm(w, w.db.rows[id], env))
  }

  lemma FillRuns(ttl: int, w: U.World, s: State, p: nat, id: string, env: U.Env) returns (s': State)
    requires Same(w, s) && p < |s.procs| && s.procs[p] == ReadRow(id) && env.now == s.now
    ensures Reaches(ttl, s, FillSteps(w, id, p, env), s')
    ensures Ends(FillReply(w, id, env).1, s, s', p) && Shows(s, s', id, FillReply(w, id, env).0)
  {
    ReadIsSame(ttl, w, s, p, id, env);
    if !env.readFails && id in w.db.rows {
      var s1 := With(s, p, Fill(id, SnapshotOf(s.rows[id], s.now)));
      s' := SetIsSame(ttl, w, s1, p, w.db.rows[id], env);
      ReachesOne(ttl, s1, Set(p, env.warm), s');
      ReachesCons(ttl, s, Read(p, env.readFails), s1, [Set(p, env.warm)], s');
    } else {
      s' := With(s, p, Idle);
      ReachesNone(ttl, s');
      ReachesCons(ttl, s, Read(p, env.readFails), s', [], s');
    }
  }

  lemma CacheGetIsSame(ttl: int, w: U.World, s: State, p: nat, id: string, env: U.Env) returns (s': State)
    requires Same(w, s) && p < |s.procs| && s.procs[p] == ReadCache(id) && env.now == s.now
    ensures Follows(ttl, s, CacheGet(p, env.getFails), s')
    ensures if U.Hit(w, ttl, id, env).Some?
            then Ends(w, s, s', p) && Shows(s, s', id, U.Reply(U.Hit(w, ttl, id, env), None))
            else s' == With(s, p, ReadRow(id))
  {
    s' := Apply(ttl, s, CacheGet(p, env.getFails));
  }

  lemma GetIsARun(ttl: int, w: U.World, s: State, p: nat, id: string, env: U.Env) returns (s': State)
    requires Same(w, s) && Free(s, p) && env.now == s.now
    ensures Reaches(ttl, s, GetSteps(w, ttl, id, p, env), s')
    ensures Ends(U.Get(w, ttl, id, env).1, s, s', p) && Shows(s, s', id, U.Get(w, ttl, id, env).0)
  {
    var s1 := With(s, p, ReadCache(id));
    var s2 := CacheGetIsSame(ttl, w, s1, p, id, env);
    var rest := if U.Hit(w, ttl, id, env).Some? then [] else FillSteps(w, id, p, env);
    if U.Hit(w, ttl, id, env).Some? {
      s' := s2;
      ReachesNone(ttl, s2);
    } else {
      s' := FillRuns(ttl, w, s2, p, id, env);
    }
    ReachesCons(ttl, s1, CacheGet(p, env.getFails), s2, rest, s');
    StartThen(ttl, s, p, Get(id), [CacheGet(p, env.getFails)] + rest, s');
  }

  // ---------- CreateOrder ----------

  /** A returned order is logged with its id and key. */
  ghost predicate Returns(s: State, s': State, r: U.Reply) {
    s'.returned == s.returned +
                   if r.order.Some? then [Returned(r.order.value.key, r.order.value.id)] else []
  }

  /** The gateway answers as the payment service decides: authorised up to the limit. */
  predicate AsDecided(env: U.Env, amount: int) {
    && (env.gateway == U.Authorized ==> Payments.Verdict(amount) == Payments.Authorized)
    && (env.gateway == U.OtherStatus ==> Payments.Verdict(amount) == Payments.Declined)
  }

  /** How a payment call can end in an error: it is never sent, nobody serves it in time, its answer comes
      too late (the payment may have been recorded, and authorised, all the same), or the payment service
      answers with an error because its own insert failed or seemed to. */
  datatype Failure = NeverSent | Unserved | AnswerLost(insert: Fault) | Refused(insert: Fault)

  predicate Possible(how: Failure) {
    how.Refused? ==> how.insert != NoFault
  }

  function FailureSteps(id: string, p: nat, how: Failure): seq<Step> {
    match how
    case NeverSent => [Timeout(p)]
    case Unserved => [CallGateway(p)] + [Timeout(p)]
    case AnswerLost(insert) => [CallGateway(p)] + ([Serve(id, insert)] + [Timeout(p)])
    case Refused(insert) => [CallGateway(p)] + ([Serve(id, insert)] + [Receive(p)])
  }

  function GatewaySteps(id: string, p: nat, env: U.Env, how: Failure): seq<Step> {
    if env.gateway == U.Unreachable then FailureSteps(id, p, how)
    else [CallGateway(p)] + ([Serve(id, NoFault)] + [Receive(p)])
  }

  function AfterGateway(id: string, env: U.Env): Proc {
    match env.gateway
    case Unreachable => FailAfterError(id)
    case Authorized => PayRow(id)
    case OtherStatus => FailDeclined(id)
  }

  /** Process `p` has moved on, and rows, cache, clock and returned orders are as before. */
  ghost predicate OnlyMoved(s: State, s': State, p: nat, to: Proc)
    requires p < |s.procs|
  {
    s'.procs == s.procs[p := to] && s'.rows == s.rows && s'.cache == s.cache && s'.returned == s.returned && s'.now == s.now
  }

  lemma Called(ttl: int, s: State, p: nat, id: string) returns (s': State)
    requires p < |s.procs| && s.procs[p] == Call(id) && id in s.rows
    ensures Follows(ttl, s, CallGateway(p), s') && OnlyMoved(s, s', p, Await(id))
    ensures id in s'.rpcs && s'.rpcs[id] == s.rows[id].amount
  {
    s' := Apply(ttl, s, CallGateway(p));
  }

  lemma Served(ttl: int, s: State, p: nat, id: string, insert: Fault) returns (s': State)
    requires p < |s.procs| && s.procs[p] == Await(id) && id in s.rpcs
    ensures Follows(ttl, s, Serve(id, insert), s') && OnlyMoved(s, s', p, Await(id)) && id in s'.replies
    ensures s'.replies[id] == if insert != NoFault then Failure
                              else if Payments.Verdict(s.rpcs[id]) == Payments.Authorized then Authorized else Declined
  {
    s' := Apply(ttl, s, Serve(id, insert));
    assert s.procs[p := Await(id)] == s.procs;
  }

  /** Leaving the wait for the gateway, with or without its answer. */
  lemma StopsWaiting(ttl: int, s: State, p: nat, id: string, a: Step) returns (s': State)
    requires p < |s.procs| && s.procs[p] == Await(id) && (a == Timeout(p) || (a == Receive(p) && id in s.replies))
    ensures Reaches(ttl, s, [a], s')
    ensures OnlyMoved(s, s', p, if a.Timeout? then FailAfterError(id) else AfterReply(id, s.replies[id]))
  {
    s' := Apply(ttl, s, a);
    ReachesOne(ttl, s, a, s');
  }

  /** The call is sent, served, and given up or answered. */
  lemma ServedRuns(ttl: int, s: State, p: nat, id: string, insert: Fault, a: Step) returns (s': State)
    requires p < |s.procs| && s.procs[p] == Call(id) && id in s.rows && (a == Timeout(p) || a == Receive(p))
    ensures Reaches(ttl, s, [CallGateway(p)] + ([Serve(id, insert)] + [a]), s')
    ensures OnlyMoved(s, s', p,
                      if a.Timeout? || insert != NoFault then FailAfterError(id)
                      else if Payments.Verdict(s.rows[id].amount) == Payments.Authorized then PayRow(id) else FailDeclined(id))
  {
    var s1 := Called(ttl, s, p, id);
    var s2 := Served(ttl, s1, p, id, insert);
    s' := StopsWaiting(ttl, s2, p, id, a);
    ReachesCons(ttl, s1, Serve(id, insert), s2, [a], s');
    ReachesCons(ttl, s, CallGateway(p), s1, [Serve(id, insert)] + [a], s');
  }

  lemma FailureRuns(ttl: int, s: State, p: nat, id: string, how: Failure) returns (s': State)
    requires p < |s.procs| && s.procs[p] == Call(id) && id in s.rows && Possible(how)
    ensures Reaches(ttl, s, FailureSteps(id, p, how), s') && OnlyMoved(s, s', p, FailAfterError(id))
  {
    match how {
      case NeverSent =>
        s' := With(s, p, FailAfterError(id));
        ReachesOne(ttl, s, Timeout(p), s');
      case Unserved =>
        var s1 := Called(ttl, s, p, id);
        s' := StopsWaiting(ttl, s1, p, id, Timeout(p));
        ReachesCons(ttl, s, CallGateway(p), s1, [Timeout(p)], s');
      case AnswerLost(insert) => s' := ServedRuns(ttl, s, p, id, insert, Timeout(p));
      case Refused(insert) => s' := ServedRuns(ttl, s, p, id, insert, Receive(p));
    }
  }

  lemma GatewayRuns(ttl: int, w: U.World, s: State, p: nat, o: Orders.Order, env: U.Env, how: Failure) returns (s': State)
    requires Same(w, s) && p < |s.procs| && s.procs[p] == Call(o.id) && o.id in s.rows && s.rows[o.id].amount == o.amount
    requires AsDecided(env, o.amount) && Possible(how)
    ensures Reaches(ttl, s, GatewaySteps(o.id, p, env, how), s') && OnlyMoved(s, s', p, AfterGateway(o.id, env))
  {
    if env.gateway == U.Unreachable {
      s' := FailureRuns(ttl, s, p, o.id, how);
    } else {
      s' := ServedRuns(ttl, s, p, o.id, NoFault, Receive(p));
    }
  }

  predicate UpdateStops(rows: Orders.Table, id: string, env: U.Env) {
    env.gateway != U.Unreachable && Orders.UpdateError(rows, id, env.update).Some?
  }

  /** The status write after the gateway's reply, and the cache command that follows it. */
  function SettleSteps(rows: Orders.Table, id: string, p: nat, env: U.Env): seq<Step> {
    if UpdateStops(rows, id, env) then [Update(p, env.update)]
    else [Update(p, env.update)] + [if env.gateway == U.Authorized then Set(p, env.warm) else Delete(p, env.del)]
  }

  lemma SetAfterPaid(ttl: int, w: U.World, written: U.World, s: State, s1: State, p: nat, o: Orders.Order, env: U.Env) returns (s': State)
    requires Same(written, s1) && p < |s.procs| && s.procs[p] == PayRow(o.id) && env.now == s.now == s1.now
    requires o.id in s.rows && s.rows[o.id].key == o.key && env.update == NoFault
    requires s1.rows == Written(s, o.id, Orders.Paid, NoFault) && s1.procs == s.procs[p := AfterUpdate(s, p, s1.rows, NoFault)]
    requires s1.returned == s.returned
    ensures Follows(ttl, s1, Set(p, env.warm), s')
    ensures Ends(U.Warm(written, o.(status := Orders.Paid), env), s, s', p)
    ensures s'.returned == s.returned + [Returned(o.key, o.id)]
  {
    assert s1.procs[p].SetPaid? && s1.procs[p].snap.status == Orders.Paid;
    s' := SetIsSame(ttl, written, s1, p, o.(status := Orders.Paid), env);
    assert s1.procs[p := Idle] == s.procs[p := Idle];
  }

  /** A failed gateway call or a decline: write Failed, then invalidate. */
  lemma FailedRuns(ttl: int, w: U.World, s: State, p: nat, o: Orders.Order, env: U.Env) returns (s': State)
    requires Same(w, s) && p < |s.procs| && s.procs[p] == AfterGateway(o.id, env) && env.gateway != U.Authorized
    requires o.id in w.db.rows && w.db.rows[o.id] == o && !UpdateStops(w.db.rows, o.id, env)
    ensures Reaches(ttl, s, [Update(p, env.update)] + [Delete(p, env.del)], s')
    ensures Ends(U.Pay(w, o, env).1, s, s', p) && Returns(s, s', U.Pay(w, o, env).0)
  {
    var s1 := UpdateIsSame(ttl, w, s, p, env);
    var written := w.(db := U.Update(w.db, o.id, Orders.Failed, env));
    assert SameRow(w.db.rows[o.id], s.rows[o.id], o.id);
    s' := DeleteIsSame(ttl, written, s1, p, env);
    assert s1.procs[p := Idle] == s.procs[p := Idle];
    ReachesOne(ttl, s1, Delete(p, env.del), s');
    ReachesCons(ttl, s, Update(p, env.update), s1, [Delete(p, env.del)], s');
  }

  /** An authorised payment: write Paid, then warm the cache. */
  lemma PaidRuns(ttl: int, w: U.World, s: State, p: nat, o: Orders.Order, env: U.Env) returns (s': State)
    requires Same(w, s) && p < |s.procs| && s.procs[p] == PayRow(o.id) && env.gateway == U.Authorized && env.now == s.now
    requires o.id in w.db.rows && w.db.rows[o.id] == o && !UpdateStops(w.db.rows, o.id, env)
    ensures Reaches(ttl, s, [Update(p, env.update)] + [Set(p, env.warm)], s')
    ensures Ends(U.Pay(w, o, env).1, s, s', p) && Returns(s, s', U.Pay(w, o, env).0)
  {
    var s1 := UpdateIsSame(ttl, w, s, p, env);
    assert SameRow(w.db.rows[o.id], s.rows[o.id], o.id);
    s' := SetAfterPaid(ttl, w, w.(db := U.Update(w.db, o.id, Orders.Paid, env)), s, s1, p, o, env);
    ReachesOne(ttl, s1, Set(p, env.warm), s');
    ReachesCons(ttl, s, Update(p, env.update), s1, [Set(p, env.warm)], s');
  }

  /** A reply whose status write is reported as failed: the call ends there. */
  lemma StopRuns(ttl: int, w: U.World, s: State, p: nat, o: Orders.Order, env: U.Env) returns (s': State)
    requires Same(w, s) && p < |s.procs| && s.procs[p] == AfterGateway(o.id, env) && UpdateStops(w.db.rows, o.id, env)
    requires o.id in w.db.rows
    ensures Reaches(ttl, s, [Update(p, env.update)], s')
    ensures Ends(U.Pay(w, o, env).1, s, s', p) && Returns(s, s', U.Pay(w, o, env).0)
  {
    s' := UpdateIsSame(ttl, w, s, p, env);
    ReachesOne(ttl, s, Update(p, env.update), s');
  }

  /** After the reply: write the status, then invalidate or warm the cache. */
  lemma SettleRuns(ttl: int, w: U.World, s: State, p: nat, o: Orders.Order, env: U.Env) returns (s': State)
    requires Same(w, s) && p < |s.procs| && s.procs[p] == AfterGateway(o.id, env) && env.now == s.now
    requires o.id in w.db.rows && w.db.rows[o.id] == o
    ensures Reaches(ttl, s, SettleSteps(w.db.rows, o.id, p, env), s')
    ensures Ends(U.Pay(w, o, env).1, s, s', p) && Returns(s, s', U.Pay(w, o, env).0)
  {
    if UpdateStops(w.db.rows, o.id, env) {
      s' := StopRuns(ttl, w, s, p, o, env);
    } else if env.gateway == U.Authorized {
      s' := PaidRuns(ttl, w, s, p, o, env);
    } else {
      s' := FailedRuns(ttl, w, s, p, o, env);
    }
  }

  /** From the payment call to the end of CreateOrder. */
  lemma PayRuns(ttl: int, w: U.World, s: State, p: nat, o: Orders.Order, env: U.Env, how: Failure) returns (s': State)
    requires Same(w, s) && p < |s.procs| && s.procs[p] == Call(o.id) && env.now == s.now && AsDecided(env, o.amount) && Possible(how)
    requires o.id in w.db.rows && w.db.rows[o.id] == o
    ensures Reaches(ttl, s, GatewaySteps(o.id, p, env, how) + SettleSteps(w.db.rows, o.id, p, env), s')
    ensures Ends(U.Pay(w, o, env).1, s, s', p) && Returns(s, s', U.Pay(w, o, env).0)
  {
    assert SameRow(w.db.rows[o.id], s.rows[o.id], o.id);
    var s1 := GatewayRuns(ttl, w, s, p, o, env, how);
    assert Same(w, s1);
    s' := SettleRuns(ttl, w, s1, p, o, env);
    assert s1.procs[p := Idle] == s.procs[p := Idle];
    ReachesThen(ttl, s, GatewaySteps(o.id, p, env, how), s1, SettleSteps(w.db.rows, o.id, p, env), s');
  }

  lemma SameKeys(w: U.World, s: State, key: Option<string>)
    requires Same(w, s)
    ensures KeyTaken(s.rows, key) <==> key.Some? && exists id :: id in w.db.rows && w.db.rows[id].key == key
  {
    assert forall id :: id in w.db.rows ==> SameRow(w.db.rows[id], s.rows[id], id);
    if KeyTaken(s.rows, key) {
      var id :| id in s.rows && s.rows[id].key == key;
      assert id in w.db.rows && w.db.rows[id].key == key;
    }
    if key.Some? && exists id :: id in w.db.rows && w.db.rows[id].key == key {
      var id :| id in w.db.rows && w.db.rows[id].key == key;
      assert id in s.rows && s.rows[id].key == key;
    }
  }

  function InsertedWorld(w: U.World, o: Orders.Order, env: U.Env): U.World {
    w.(db := w.db.(rows := Orders.Inserted(w.db.rows, o, env.insert)))
  }

  /** The INSERT goes through and is known to have. */
  predicate Inserts(w: U.World, o: Orders.Order, env: U.Env) {
    Orders.CanInsert(w.db.rows, o) && env.insert == NoFault
  }

  /** The order CreateOrder inserts: pending, of a positive amount. */
  predicate Fresh(o: Orders.Order) {
    o.amount > 0 && o.status == Orders.Pending
  }

  lemma NewRowIsSame(rows: Orders.Table, s: State, s': State, o: Orders.Order)
    requires SameRows(rows, s) && Fresh(o) && s'.rows == s.rows[o.id := Row(o.amount, o.key, [Write(s.now, Orders.Pending)])]
    ensures SameRows(rows[o.id := o], s')
  {
    forall id | id in rows[o.id := o]
      ensures SameRow(rows[o.id := o][id], s'.rows[id], id)
    {
      assert id in rows ==> SameRow(rows[id], s.rows[id], id);
    }
  }

  lemma InsertIsSame(ttl: int, w: U.World, s: State, p: nat, o: Orders.Order, env: U.Env) returns (s': State)
    requires Same(w, s) && p < |s.procs| && s.procs[p] == Insert(o.amount, o.key) && Fresh(o)
    ensures Follows(ttl, s, InsertRow(p, o.id, env.insert), s') && Same(InsertedWorld(w, o, env), s')
    ensures s'.procs == s.procs[p := if Inserts(w, o, env) then Call(o.id) else Idle]
    ensures s'.now == s.now && s'.returned == s.returned
  {
    SameKeys(w, s, o.key);
    s' := Apply(ttl, s, InsertRow(p, o.id, env.insert));
    if Orders.CanInsert(w.db.rows, o) && env.insert != NotApplied {
      NewRowIsSame(w.db.rows, s, s', o);
    }
  }

  function PlaceSteps(w: U.World, o: Orders.Order, p: nat, env: U.Env, how: Failure): seq<Step> {
    [InsertRow(p, o.id, env.insert)] +
    if Inserts(w, o, env) then GatewaySteps(o.id, p, env, how) + SettleSteps(InsertedWorld(w, o, env).db.rows, o.id, p, env)
    else []
  }

  lemma PlaceRuns(ttl: int, w: U.World, s: State, p: nat, o: Orders.Order, env: U.Env, how: Failure) returns (s': State)
    requires Same(w, s) && p < |s.procs| && s.procs[p] == Insert(o.amount, o.key) && Fresh(o)
    requires env.now == s.now && AsDecided(env, o.amount) && Possible(how)
    ensures Reaches(ttl, s, PlaceSteps(w, o, p, env, how), s')
    ensures Ends(U.Place(w, o, env).1, s, s', p) && Returns(s, s', U.Place(w, o, env).0)
  {
    var s1 := InsertIsSame(ttl, w, s, p, o, env);
    if Inserts(w, o, env) {
      var w1 := InsertedWorld(w, o, env);
      s' := PayRuns(ttl, w1, s1, p, o, env, how);
      assert s1.procs[p := Idle] == s.procs[p := Idle];
      ReachesCons(ttl, s, InsertRow(p, o.id, env.insert), s1,
                  GatewaySteps(o.id, p, env, how) + SettleSteps(w1.db.rows, o.id, p, env), s');
    } else {
      s' := s1;
      ReachesNone(ttl, s1);
      ReachesCons(ttl, s, InsertRow(p, o.id, env.insert), s1, [], s');
    }
  }

  /** A key is looked up before the insert, unless it is absent or empty. */
  predicate LooksUp(o: Orders.Order) {
    o.amount > 0 && o.key.Some? && o.key.value != ""
  }

  /** The lookup lets the call go on to the insert. */
  ghost predicate GoesOn(w: U.World, o: Orders.Order, env: U.Env)
    requires Orders.ValidTable(w.db.rows)
  {
    LooksUp(o) ==> !env.lookupFails && Orders.WithKey(w.db.rows, o.key.value).None?
  }

  ghost function CreateSteps(w: U.World, o: Orders.Order, p: nat, env: U.Env, how: Failure): seq<Step>
    requires Orders.ValidTable(w.db.rows)
  {
    [Start(p, Create(o.amount, o.key))] +
    ((if LooksUp(o) then [LookupKey(p, env.lookupFails)] else []) +
     if o.amount > 0 && GoesOn(w, o, env) then PlaceSteps(w, o, p, env, how) else [])
  }

  lemma LookupIsSame(ttl: int, w: U.World, s: State, p: nat, o: Orders.Order, env: U.Env) returns (s': State)
    requires Same(w, s) && p < |s.procs| && LooksUp(o) && s.procs[p] == Lookup(o.amount, o.key.value)
    requires Orders.ValidTable(w.db.rows)
    ensures Follows(ttl, s, LookupKey(p, env.lookupFails), s')
    ensures if GoesOn(w, o, env) then s' == With(s, p, Insert(o.amount, o.key))
            else Ends(w, s, s', p) && Returns(s, s', U.Create(w, o, env).0)
  {
    SameKeys(w, s, o.key);
    s' := Apply(ttl, s, LookupKey(p, env.lookupFails));
    if !env.lookupFails && KeyTaken(s.rows, o.key) {
      var id := s'.returned[|s.returned|].id;
      assert SameRow(w.db.rows[id], s.rows[id], id);
    }
  }

  lemma LookupAndPlace(ttl: int, w: U.World, s: State, p: nat, o: Orders.Order, env: U.Env, how: Failure) returns (s': State)
    requires Same(w, s) && p < |s.procs| && LooksUp(o) && s.procs[p] == Lookup(o.amount, o.key.value)
    requires Orders.ValidTable(w.db.rows) && env.now == s.now && Fresh(o) && AsDecided(env, o.amount) && Possible(how)
    ensures Reaches(ttl, s, [LookupKey(p, env.lookupFails)] + (if GoesOn(w, o, env) then PlaceSteps(w, o, p, env, how) else []), s')
    ensures Ends(U.Create(w, o, env).1, s, s', p) && Returns(s, s', U.Create(w, o, env).0)
  {
    var s1 := LookupIsSame(ttl, w, s, p, o, env);
    if GoesOn(w, o, env) {
      s' := PlaceRuns(ttl, w, s1, p, o, env, how);
      assert s1.procs[p := Idle] == s.procs[p := Idle];
      ReachesCons(ttl, s, LookupKey(p, env.lookupFails), s1, PlaceSteps(w, o, p, env, how), s');
    } else {
      s' := s1;
      ReachesNone(ttl, s1);
      ReachesCons(ttl, s, LookupKey(p, env.lookupFails), s1, [], s');
    }
  }

  /** CreateOrder alone, whatever its commands do and however a failing payment call fails, is a run of its steps. */
  lemma CreateIsARun(ttl: int, w: U.World, s: State, p: nat, o: Orders.Order, env: U.Env, how: Failure) returns (s': State)
    requires Same(w, s) && Free(s, p) && env.now == s.now && Orders.ValidTable(w.db.rows)
    requires o.status == Orders.Pending && AsDecided(env, o.amount) && Possible(how)
    ensures Reaches(ttl, s, CreateSteps(w, o, p, env, how), s')
    ensures Ends(U.Create(w, o, env).1, s, s', p) && Returns(s, s', U.Create(w, o, env).0)
  {
    var s1 := With(s, p, Began(Create(o.amount, o.key)));
    var rest := (if LooksUp(o) then [LookupKey(p, env.lookupFails)] else []) +
                if o.amount > 0 && GoesOn(w, o, env) then PlaceSteps(w, o, p, env, how) else [];
    if o.amount <= 0 {
      s' := s1;
      ReachesNone(ttl, s');
    } else if !LooksUp(o) {
      s' := PlaceRuns(ttl, w, s1, p, o, env, how);
      assert rest == PlaceSteps(w, o, p, env, how);
    } else {
      s' := LookupAndPlace(ttl, w, s1, p, o, env, how);
    }
    assert s1.procs[p := Idle] == s.procs[p := Idle];
    StartThen(ttl, s, p, Create(o.amount, o.key), rest, s');
  }
}
