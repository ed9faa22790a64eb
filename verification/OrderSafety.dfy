/**
 What holds of every interleaving of the order protocol besides its cache: idempotency
 keys, and when the status of an order can still change.
 */
module OrderSafety {
  import opened Options
  import opened Faults
  import opened Orders
  import opened OrderProtocol
  import opened OrderHistory

  // ---------- idempotency keys ----------

  ghost predicate KeysUnique(s: State) {
    forall i, j :: i in s.rows && j in s.rows && i != j && s.rows[i].key.Some? ==> s.rows[i].key != s.rows[j].key
  }

  ghost predicate OneCreator(s: State) {
    forall p, q :: 0 <= p < q < |s.procs| && Creating(s.procs[p]) && Creating(s.procs[q]) ==> s.procs[p].id != s.procs[q].id
  }

  ghost predicate CalledOnce(s: State) {
    && (forall i, j :: 0 <= i < j < |s.called| ==> s.called[i] != s.called[j])
    && (forall i :: 0 <= i < |s.called| ==> s.called[i] in s.rows)
  }

  /** Each order has one creator, which calls the gateway at most once. */
  ghost predicate CallsOnce(s: State) {
    && OneCreator(s)
    && (forall p :: 0 <= p < |s.procs| && s.procs[p].Call? ==> s.procs[p].id !in s.called)
    && CalledOnce(s)
  }

  ghost predicate ReturnsKeyed(s: State) {
    forall i :: 0 <= i < |s.returned| ==> s.returned[i].id in s.rows && s.rows[s.returned[i].id].key == s.returned[i].key
  }

  ghost predicate KeyInv(s: State) {
    KeysUnique(s) && CallsOnce(s) && ReturnsKeyed(s)
  }

  lemma SameIds(ttl: int, s: State, a: Step)
    requires Enabled(s, a) && !a.InsertRow?
    ensures Apply(ttl, s, a).rows.Keys == s.rows.Keys
  {
    if !a.Update? {
      OthersKeepRows(ttl, s, a);
    }
  }

  lemma KeysUniqueStep(ttl: int, s: State, a: Step)
    requires RowsOK(s) && KeysUnique(s) && Enabled(s, a)
    ensures KeysUnique(Apply(ttl, s, a))
  {
    if a.InsertRow? {
    } else {
      RowsStep(ttl, s, a);
      SameIds(ttl, s, a);
      var s' := Apply(ttl, s, a);
      forall i, j | i in s'.rows && j in s'.rows && i != j && s'.rows[i].key.Some?
        ensures s'.rows[i].key != s'.rows[j].key
      {
        assert RowGrows(s.rows[i], s'.rows[i], s.now) && RowGrows(s.rows[j], s'.rows[j], s.now);
      }
    }
  }

  /** A step makes its process a creator only of a fresh id, or keeps it one of its id. */
  lemma CreatorStep(ttl: int, s: State, a: Step)
    requires Enabled(s, a) && ByProc(a)
    ensures a.p < |Apply(ttl, s, a).procs|
    ensures var p := Apply(ttl, s, a).procs[a.p];
            Creating(p) ==>
              || (a.InsertRow? && p == Call(a.id) && a.id !in s.rows)
              || (!a.InsertRow? && Creating(s.procs[a.p]) && p.id == s.procs[a.p].id && !p.Call?)
  {
    if Ends(a) {
      EnderIsQuiet(ttl, s, a);
    }
  }

  lemma CalledChanges(ttl: int, s: State, a: Step)
    requires Enabled(s, a)
    ensures Apply(ttl, s, a).called == s.called + if a.CallGateway? then [s.procs[a.p].id] else []
  {
    match a
    case Tick(_) =>
    case Evict(_) =>
    case DirectPayment(_, _) =>
    case Serve(_, _) =>
    case Start(_, _) =>
    case LookupKey(_, _) =>
    case InsertRow(_, _, _) =>
    case CallGateway(_) =>
    case Receive(_) =>
    case Timeout(_) =>
    case Update(_, _) =>
    case Delete(_, _) =>
    case Set(_, _) =>
    case CacheGet(_, _) =>
    case Read(_, _) =>
    case Crash(_) =>
  }

  lemma CreatorsDiffer(ttl: int, s: State, a: Step, p: nat, q: nat)
    requires Inv(s) && OneCreator(s) && Enabled(s, a) && p < q < |Apply(ttl, s, a).procs|
    requires Creating(Apply(ttl, s, a).procs[p]) && Creating(Apply(ttl, s, a).procs[q])
    ensures Apply(ttl, s, a).procs[p].id != Apply(ttl, s, a).procs[q].id
  {
    OnlyActorMoves(ttl, s, a);
    if ByProc(a) {
      CreatorStep(ttl, s, a);
    }
    assert ProcOK(s, s.procs[p]) && ProcOK(s, s.procs[q]);
  }

  lemma OneCreatorStep(ttl: int, s: State, a: Step)
    requires Inv(s) && OneCreator(s) && Enabled(s, a)
    ensures OneCreator(Apply(ttl, s, a))
  {
    var s' := Apply(ttl, s, a);
    forall p, q | 0 <= p < q < |s'.procs| && Creating(s'.procs[p]) && Creating(s'.procs[q])
      ensures s'.procs[p].id != s'.procs[q].id
    {
      CreatorsDiffer(ttl, s, a, p, q);
    }
  }

  /** A call still to be made is of an id not yet called. */
  lemma NotCalledStep(ttl: int, s: State, a: Step, p: nat)
    requires Inv(s) && CallsOnce(s) && Enabled(s, a)
    requires p < |Apply(ttl, s, a).procs| && Apply(ttl, s, a).procs[p].Call?
    ensures Apply(ttl, s, a).procs[p].id !in Apply(ttl, s, a).called
  {
    OnlyActorMoves(ttl, s, a);
    CalledChanges(ttl, s, a);
    if ByProc(a) {
      CreatorStep(ttl, s, a);
    }
    if a.CallGateway? && p != a.p {
      assert Creating(s.procs[p]) && Creating(s.procs[a.p]);
    }
  }

  lemma CalledOnceStep(ttl: int, s: State, a: Step)
    requires RowsOK(s) && CallsOnce(s) && Enabled(s, a)
    ensures CalledOnce(Apply(ttl, s, a))
  {
    RowsStep(ttl, s, a);
    CalledChanges(ttl, s, a);
  }

  lemma CallsOnceStep(ttl: int, s: State, a: Step)
    requires Inv(s) && CallsOnce(s) && Enabled(s, a)
    ensures CallsOnce(Apply(ttl, s, a))
  {
    var s' := Apply(ttl, s, a);
    OneCreatorStep(ttl, s, a);
    CalledOnceStep(ttl, s, a);
    forall p | 0 <= p < |s'.procs| && s'.procs[p].Call?
      ensures s'.procs[p].id !in s'.called
    {
      NotCalledStep(ttl, s, a, p);
    }
  }

  lemma ReturnedChanges(ttl: int, s: State, a: Step)
    requires Enabled(s, a)
    ensures var s' := Apply(ttl, s, a);
            || s'.returned == s.returned
            || exists r: Returned :: s'.returned == s.returned + [r] && r.id in s.rows && s.rows[r.id].key == r.key
  {
    var s' := Apply(ttl, s, a);
    if s'.returned != s.returned {
      var r := s'.returned[|s.returned|];
      assert s'.returned == s.returned + [r];
    }
  }

  lemma ReturnsKeyedStep(ttl: int, s: State, a: Step)
    requires RowsOK(s) && ReturnsKeyed(s) && Enabled(s, a)
    ensures ReturnsKeyed(Apply(ttl, s, a))
  {
    var s' := Apply(ttl, s, a);
    RowsStep(ttl, s, a);
    ReturnedChanges(ttl, s, a);
    forall i | 0 <= i < |s'.returned|
      ensures s'.returned[i].id in s'.rows && s'.rows[s'.returned[i].id].key == s'.returned[i].key
    {
      var id := s'.returned[i].id;
      assert id in s.rows && s.rows[id].key == s'.returned[i].key;
      assert RowGrows(s.rows[id], s'.rows[id], s.now);
    }
  }

  lemma {:induction false} KeyInvHolds(ttl: int, states: seq<State>, steps: seq<Step>, n: nat)
    requires Behavior(ttl, states, steps) && n < |states|
    ensures KeyInv(states[n])
  {
    if n == 0 {
    } else {
      KeyInvHolds(ttl, states, steps, n - 1);
      InvHolds(ttl, states, steps, n - 1);
      assert StepAt(ttl, states, steps, n - 1);
      KeysUniqueStep(ttl, states[n - 1], steps[n - 1]);
      CallsOnceStep(ttl, states[n - 1], steps[n - 1]);
      ReturnsKeyedStep(ttl, states[n - 1], steps[n - 1]);
    }
  }

  predicate CalledFor(s: State, i: int, key: string) {
    0 <= i < |s.called| && s.called[i] in s.rows && s.rows[s.called[i]].key == Some(key)
  }

  predicate ReturnedFor(s: State, i: int, key: string) {
    0 <= i < |s.returned| && s.returned[i].key == Some(key)
  }

  /** For one idempotency key, in every interleaving of lookups and inserts: at most one row,
      at most one gateway call, and one order id for every call that returns an order. */
  lemma IdempotencyKeys(ttl: int, states: seq<State>, steps: seq<Step>, n: nat, key: string)
    requires Behavior(ttl, states, steps) && n < |states|
    ensures var s := states[n];
            && (forall i, j :: i in s.rows && j in s.rows && s.rows[i].key == Some(key) == s.rows[j].key ==> i == j)
            && (forall i, j :: CalledFor(s, i, key) && CalledFor(s, j, key) ==> i == j)
            && (forall i, j :: ReturnedFor(s, i, key) && ReturnedFor(s, j, key) ==> s.returned[i].id == s.returned[j].id)
  {
    KeyInvHolds(ttl, states, steps, n);
  }

  // ---------- settled orders ----------

  predicate LeftPending(s: State, id: string) {
    id in s.rows && s.rows[id].log != [] && Current(s.rows[id]) != Pending
  }

  lemma LeftPendingStep(ttl: int, s: State, a: Step, id: string)
    requires RowsOK(s) && Enabled(s, a) && LeftPending(s, id)
    ensures LeftPending(Apply(ttl, s, a), id)
  {
    RowsStep(ttl, s, a);
    assert RowGrows(s.rows[id], Apply(ttl, s, a).rows[id], s.now);
  }

  /** In every run, with MarkPaid too, no order returns to Pending. */
  lemma {:induction false} PendingIsLeftForGood(ttl: int, states: seq<State>, steps: seq<Step>, i: nat, n: nat, id: string)
    requires Behavior(ttl, states, steps) && i <= n < |states| && LeftPending(states[i], id)
    ensures LeftPending(states[n], id)
  {
    if i == n {
    } else {
      PendingIsLeftForGood(ttl, states, steps, i, n - 1, id);
      InvHolds(ttl, states, steps, n - 1);
      assert StepAt(ttl, states, steps, n - 1);
      LeftPendingStep(ttl, states[n - 1], steps[n - 1], id);
    }
  }

  predicate StartsMarkPaid(a: Step, id: string) {
    a.Start? && a.op == MarkPaid(id)
  }

  /** The call may still write a status: it is the order's creator, a canceller that has read
      Pending, or a MarkPaid. */
  predicate MayWrite(p: Proc, id: string) {
    (Creating(p) || p.CancelRow? || p.MarkRow?) && p.id == id
  }

  /** The order has left Pending and no call in flight may write its status. */
  ghost predicate Settled(s: State, id: string) {
    LeftPending(s, id) && forall p :: 0 <= p < |s.procs| ==> !MayWrite(s.procs[p], id)
  }

  lemma ActorMarksOnlyByStart(ttl: int, s: State, a: Step)
    requires Enabled(s, a) && ByProc(a)
    ensures a.p < |Apply(ttl, s, a).procs|
    ensures var p := Apply(ttl, s, a).procs[a.p]; p.MarkRow? ==> StartsMarkPaid(a, p.id)
  {
    if Ends(a) {
      EnderWritesNothing(ttl, s, a);
    } else if Creates(a) {
      CreatorGoesOn(ttl, s, a);
    }
  }

  lemma CancellerReadPending(ttl: int, s: State, a: Step)
    requires Enabled(s, a) && ByProc(a)
    ensures a.p < |Apply(ttl, s, a).procs|
    ensures var p := Apply(ttl, s, a).procs[a.p];
            p.CancelRow? ==> p.id in s.rows && s.rows[p.id].log != [] && Current(s.rows[p.id]) == Pending
  {
    if Ends(a) {
      EnderWritesNothing(ttl, s, a);
    } else if Creates(a) {
      CreatorGoesOn(ttl, s, a);
    }
  }

  lemma RowsOfOthers(ttl: int, s: State, a: Step, id: string)
    requires Enabled(s, a) && id in s.rows && (a.Update? ==> s.procs[a.p].id != id)
    ensures id in Apply(ttl, s, a).rows && Apply(ttl, s, a).rows[id] == s.rows[id]
  {
    if !a.Update? && !a.InsertRow? {
      OthersKeepRows(ttl, s, a);
    }
  }

  lemma SettledStep(ttl: int, s: State, a: Step, id: string)
    requires Settled(s, id) && Enabled(s, a) && !StartsMarkPaid(a, id)
    ensures Settled(Apply(ttl, s, a), id) && Apply(ttl, s, a).rows[id] == s.rows[id]
  {
    OnlyActorMoves(ttl, s, a);
    if ByProc(a) {
      CreatorStep(ttl, s, a);
      CancellerReadPending(ttl, s, a);
      ActorMarksOnlyByStart(ttl, s, a);
    }
    RowsOfOthers(ttl, s, a, id);
  }

  /** The run goes on without a MarkPaid of this order. */
  ghost predicate Unmarked(steps: seq<Step>, id: string) {
    forall k :: 0 <= k < |steps| ==> !StartsMarkPaid(steps[k], id)
  }

  lemma {:induction false} SettledAlongPath(ttl: int, states: seq<State>, steps: seq<Step>, id: string, n: nat)
    requires IsPath(ttl, states, steps) && Unmarked(steps, id) && Settled(states[0], id) && n <= |steps|
    ensures Settled(states[n], id) && states[n].rows[id] == states[0].rows[id]
  {
    if n == 0 {
    } else {
      SettledAlongPath(ttl, states, steps, id, n - 1);
      assert StepAt(ttl, states, steps, n - 1);
      SettledStep(ttl, states[n - 1], steps[n - 1], id);
    }
  }

  /** Whatever happens next, as long as it is not a MarkPaid of this order, nothing is written to its row. */
  ghost predicate Frozen(ttl: int, s: State, id: string)
    requires id in s.rows
  {
    forall steps: seq<Step>, s': State :: Reaches(ttl, s, steps, s') && Unmarked(steps, id) ==> id in s'.rows && s'.rows[id] == s.rows[id]
  }

  /** A call that may still write can do so at once, a creator by giving up on the gateway. */
  lemma WriterCanWrite(ttl: int, s: State, id: string, p: nat) returns (steps: seq<Step>, s': State)
    requires id in s.rows && p < |s.procs| && MayWrite(s.procs[p], id)
    ensures Reaches(ttl, s, steps, s') && Unmarked(steps, id) && id in s'.rows && s'.rows[id] != s.rows[id]
  {
    var update := Update(p, NoFault);
    if s.procs[p].Call? || s.procs[p].Await? {
      var s1 := Apply(ttl, s, Timeout(p));
      s' := Apply(ttl, s1, update);
      assert |s'.rows[id].log| == |s.rows[id].log| + 1;
      ReachesOne(ttl, s1, update, s');
      ReachesCons(ttl, s, Timeout(p), s1, [update], s');
      steps := [Timeout(p)] + [update];
    } else {
      s' := Apply(ttl, s, update);
      assert |s'.rows[id].log| == |s.rows[id].log| + 1;
      ReachesOne(ttl, s, update, s');
      steps := [update];
    }
  }

  /** An order that has left Pending is written to no more, not even the same status again, if and only if
      it is settled. When its status can no longer change is `OrderFinality.StatusFinalIff`. */
  lemma FrozenIff(ttl: int, s: State, id: string)
    requires LeftPending(s, id)
    ensures Frozen(ttl, s, id) <==> Settled(s, id)
  {
    if Settled(s, id) {
      forall steps: seq<Step>, s': State | Reaches(ttl, s, steps, s') && Unmarked(steps, id)
        ensures id in s'.rows && s'.rows[id] == s.rows[id]
      {
        var states :| IsPath(ttl, states, steps) && states[0] == s && states[|steps|] == s';
        SettledAlongPath(ttl, states, steps, id, |steps|);
      }
    } else {
      var p: nat :| p < |s.procs| && MayWrite(s.procs[p], id);
      var steps, s' := WriterCanWrite(ttl, s, id, p);
    }
  }

  /** In a whole run: a settled order's row stays as it is for as long as no MarkPaid of it starts. */
  lemma {:induction false} SettledOrdersAreFrozen(ttl: int, states: seq<State>, steps: seq<Step>, i: nat, n: nat, id: string)
    requires Behavior(ttl, states, steps) && i <= n < |states| && Settled(states[i], id)
    requires Unmarked(steps[i..n], id)
    ensures Settled(states[n], id) && states[n].rows[id] == states[i].rows[id]
  {
    if i == n {
    } else {
      assert steps[i..n - 1] == steps[i..n][..n - 1 - i];
      SettledOrdersAreFrozen(ttl, states, steps, i, n - 1, id);
      assert StepAt(ttl, states, steps, n - 1);
      assert steps[i..n][n - 1 - i] == steps[n - 1];
      SettledStep(ttl, states[n - 1], steps[n - 1], id);
    }
  }
}
