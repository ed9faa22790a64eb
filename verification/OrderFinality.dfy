/**
 When the status of an order is final: exactly when no call in flight may still write another one.
 A call that would only write the same status again does no harm.
 */
module OrderFinality {
  import opened Faults
  import opened Orders
  import opened OrderProtocol
  import opened OrderHistory
  import opened OrderSafety
  import Payments

  /** An authorisation of the order's payment has arrived, or is bound to if the service answers. */
  predicate MayBeAuthorized(s: State, id: string) {
    || (id in s.replies && s.replies[id] == Authorized)
    || (id in s.rpcs && Payments.Verdict(s.rpcs[id]) == Payments.Authorized)
  }

  /** The call may still write `status` to the order's row. */
  predicate MayTurn(s: State, p: Proc, id: string, status: Status) {
    match p
    case Call(i) =>
      i == id && (status == Failed ||
                  (status == Paid && (MayBeAuthorized(s, id) ||
                                      (id in s.rows && Payments.Verdict(s.rows[id].amount) == Payments.Authorized))))
    case Await(i) => i == id && (status == Failed || (status == Paid && MayBeAuthorized(s, id)))
    case PayRow(i) => i == id && status == Paid
    case MarkRow(i) => i == id && status == Paid
    case CancelRow(i) => i == id && status == Cancelled
    case FailAfterError(i) => i == id && status == Failed
    case FailDeclined(i) => i == id && status == Failed
    case _ => false
  }

  ghost predicate SomeoneMayTurn(s: State, id: string, status: Status) {
    exists p :: 0 <= p < |s.procs| && MayTurn(s, s.procs[p], id, status)
  }

  /** The order has left Pending, and no call in flight may write another status than its present one. */
  ghost predicate Final(s: State, id: string) {
    LeftPending(s, id) && forall status :: SomeoneMayTurn(s, id, status) ==> status == Current(s.rows[id])
  }

  // ---------- a final status stays ----------

  /** Only writes of other statuses change a status. */
  lemma StatusStep(ttl: int, s: State, a: Step, id: string)
    requires Final(s, id) && Enabled(s, a)
    ensures LeftPending(Apply(ttl, s, a), id)
    ensures Current(Apply(ttl, s, a).rows[id]) == Current(s.rows[id]) && Apply(ttl, s, a).rows[id].amount == s.rows[id].amount
  {
    if a.Update? && s.procs[a.p].id == id {
      var status := StatusToWrite(s.procs[a.p]);
      assert MayTurn(s, s.procs[a.p], id, status) && SomeoneMayTurn(s, id, status);
    } else {
      RowsOfOthers(ttl, s, a, id);
    }
  }

  /** Replies and pending calls of the gateway change by a Serve and by a creator's call only. */
  lemma AuthorizationBefore(ttl: int, s: State, a: Step, id: string)
    requires Enabled(s, a) && MayBeAuthorized(Apply(ttl, s, a), id)
    ensures MayBeAuthorized(s, id) ||
            (a.CallGateway? && s.procs[a.p] == Call(id) && Payments.Verdict(s.rows[id].amount) == Payments.Authorized)
  {
    if !a.Serve? && !a.CallGateway? {
      OthersKeepGateway(ttl, s, a);
    }
  }

  /** The other steps leave no creator in front of a command. */
  lemma OthersCreateNothing(ttl: int, s: State, a: Step)
    requires Enabled(s, a) && ByProc(a) && !Creates(a)
    ensures a.p < |Apply(ttl, s, a).procs|
    ensures var p := Apply(ttl, s, a).procs[a.p]; !Creating(p)
  {
    if Ends(a) {
      EnderIsQuiet(ttl, s, a);
    }
  }

  lemma CreatorTurns(ttl: int, s: State, a: Step, id: string, status: Status)
    requires LeftPending(s, id) && Enabled(s, a) && Creates(a)
    requires a.p < |Apply(ttl, s, a).procs| && MayTurn(Apply(ttl, s, a), Apply(ttl, s, a).procs[a.p], id, status)
    ensures MayTurn(s, s.procs[a.p], id, status)
  {
    if status == Paid && a.CallGateway? {
      AuthorizationBefore(ttl, s, a, id);
    }
  }

  /** What the acting call may write after the step it could write before it. */
  lemma ActorTurns(ttl: int, s: State, a: Step, id: string, status: Status)
    requires LeftPending(s, id) && Enabled(s, a) && ByProc(a) && !StartsMarkPaid(a, id)
    requires a.p < |Apply(ttl, s, a).procs| && MayTurn(Apply(ttl, s, a), Apply(ttl, s, a).procs[a.p], id, status)
    ensures MayTurn(s, s.procs[a.p], id, status)
  {
    if Creates(a) {
      CreatorTurns(ttl, s, a, id, status);
    } else {
      CreatorStep(ttl, s, a);
      CancellerReadPending(ttl, s, a);
      ActorMarksOnlyByStart(ttl, s, a);
      OthersCreateNothing(ttl, s, a);
    }
  }

  /** Nobody comes to be able to write a status that nobody could write before. */
  lemma TurnsBefore(ttl: int, s: State, a: Step, id: string, q: nat, status: Status)
    requires LeftPending(s, id) && Enabled(s, a) && !StartsMarkPaid(a, id) && q < |Apply(ttl, s, a).procs|
    requires MayTurn(Apply(ttl, s, a), Apply(ttl, s, a).procs[q], id, status)
    requires id in Apply(ttl, s, a).rows && Apply(ttl, s, a).rows[id].amount == s.rows[id].amount
    ensures SomeoneMayTurn(s, id, status)
  {
    OnlyActorMoves(ttl, s, a);
    if ByProc(a) && q == a.p {
      ActorTurns(ttl, s, a, id, status);
    } else if MayBeAuthorized(Apply(ttl, s, a), id) {
      AuthorizationBefore(ttl, s, a, id);
      if !MayBeAuthorized(s, id) && status == Paid {
        assert MayTurn(s, s.procs[a.p], id, Paid);
      } else {
        assert MayTurn(s, s.procs[q], id, status);
      }
    } else {
      assert MayTurn(s, s.procs[q], id, status);
    }
  }

  lemma FinalStep(ttl: int, s: State, a: Step, id: string)
    requires Final(s, id) && Enabled(s, a) && !StartsMarkPaid(a, id)
    ensures Final(Apply(ttl, s, a), id) && Current(Apply(ttl, s, a).rows[id]) == Current(s.rows[id])
  {
    var s' := Apply(ttl, s, a);
    StatusStep(ttl, s, a, id);
    forall status | SomeoneMayTurn(s', id, status)
      ensures status == Current(s'.rows[id])
    {
      var q: nat :| q < |s'.procs| && MayTurn(s', s'.procs[q], id, status);
      TurnsBefore(ttl, s, a, id, q, status);
    }
  }

  lemma {:induction false} FinalAlongPath(ttl: int, states: seq<State>, steps: seq<Step>, id: string, n: nat)
    requires IsPath(ttl, states, steps) && Unmarked(steps, id) && Final(states[0], id) && n <= |steps|
    ensures Final(states[n], id) && Current(states[n].rows[id]) == Current(states[0].rows[id])
  {
    if n == 0 {
    } else {
      FinalAlongPath(ttl, states, steps, id, n - 1);
      assert StepAt(ttl, states, steps, n - 1);
      FinalStep(ttl, states[n - 1], steps[n - 1], id);
    }
  }

  // ---------- another status can be written ----------

  predicate HasStatus(s: State, id: string, status: Status) {
    id in s.rows && s.rows[id].log != [] && Current(s.rows[id]) == status
  }

  /** Some continuation without a MarkPaid of the order gives it this status. */
  ghost predicate CanBecome(ttl: int, s: State, id: string, status: Status) {
    exists steps: seq<Step>, s': State :: Reaches(ttl, s, steps, s') && Unmarked(steps, id) && HasStatus(s', id, status)
  }

  lemma BecomesEarlier(ttl: int, s: State, a: Step, id: string, status: Status)
    requires Enabled(s, a) && !StartsMarkPaid(a, id) && CanBecome(ttl, Apply(ttl, s, a), id, status)
    ensures CanBecome(ttl, s, id, status)
  {
    var s1 := Apply(ttl, s, a);
    var rest: seq<Step>, s': State :| Reaches(ttl, s1, rest, s') && Unmarked(rest, id) && HasStatus(s', id, status);
    ReachesCons(ttl, s, a, s1, rest, s');
    assert Unmarked([a] + rest, id);
  }

  /** A call before its UpdateStatus writes its status. */
  lemma WriterTurns(ttl: int, s: State, p: nat, id: string)
    requires id in s.rows && p < |s.procs| && Updating(s.procs[p]) && s.procs[p].id == id
    ensures CanBecome(ttl, s, id, StatusToWrite(s.procs[p]))
  {
    var s' := Apply(ttl, s, Update(p, NoFault));
    ReachesNone(ttl, s');
    assert Unmarked([], id) && HasStatus(s', id, StatusToWrite(s.procs[p]));
    BecomesEarlier(ttl, s, Update(p, NoFault), id, StatusToWrite(s.procs[p]));
  }

  /** A creator can give up on the gateway. */
  lemma WaiterFails(ttl: int, s: State, p: nat, id: string)
    requires id in s.rows && p < |s.procs| && (s.procs[p] == Call(id) || s.procs[p] == Await(id))
    ensures CanBecome(ttl, s, id, Failed)
  {
    WriterTurns(ttl, Apply(ttl, s, Timeout(p)), p, id);
    BecomesEarlier(ttl, s, Timeout(p), id, Failed);
  }

  /** A creator whose payment is or will be authorised can write Paid. */
  lemma WaiterPays(ttl: int, s: State, p: nat, id: string)
    requires id in s.rows && p < |s.procs| && s.procs[p] == Await(id) && MayBeAuthorized(s, id)
    ensures CanBecome(ttl, s, id, Paid)
  {
    if id in s.replies && s.replies[id] == Authorized {
      WriterTurns(ttl, Apply(ttl, s, Receive(p)), p, id);
      BecomesEarlier(ttl, s, Receive(p), id, Paid);
    } else {
      var s1 := Apply(ttl, s, Serve(id, NoFault));
      WriterTurns(ttl, Apply(ttl, s1, Receive(p)), p, id);
      BecomesEarlier(ttl, s1, Receive(p), id, Paid);
      BecomesEarlier(ttl, s, Serve(id, NoFault), id, Paid);
    }
  }

  lemma CallerPays(ttl: int, s: State, p: nat, id: string)
    requires p < |s.procs| && s.procs[p] == Call(id) && MayTurn(s, Call(id), id, Paid) && id in s.rows
    ensures CanBecome(ttl, s, id, Paid)
  {
    var called := Apply(ttl, s, CallGateway(p));
    if MayBeAuthorized(called, id) {
      WaiterPays(ttl, called, p, id);
      BecomesEarlier(ttl, s, CallGateway(p), id, Paid);
    } else {
      var s1 := Apply(ttl, s, Serve(id, NoFault));
      WaiterPays(ttl, Apply(ttl, s1, CallGateway(p)), p, id);
      BecomesEarlier(ttl, s1, CallGateway(p), id, Paid);
      BecomesEarlier(ttl, s, Serve(id, NoFault), id, Paid);
    }
  }

  lemma TurnsIntoAny(ttl: int, s: State, p: nat, id: string, status: Status)
    requires id in s.rows && p < |s.procs| && MayTurn(s, s.procs[p], id, status)
    ensures CanBecome(ttl, s, id, status)
  {
    if Updating(s.procs[p]) {
      WriterTurns(ttl, s, p, id);
    } else if status == Failed {
      WaiterFails(ttl, s, p, id);
    } else if s.procs[p].Await? {
      WaiterPays(ttl, s, p, id);
    } else {
      CallerPays(ttl, s, p, id);
    }
  }

  // ---------- final statuses ----------

  /** Whatever happens next, as long as it is not a MarkPaid of this order, its status stays as it is. */
  ghost predicate StatusStays(ttl: int, s: State, id: string)
    requires LeftPending(s, id)
  {
    forall steps: seq<Step>, s': State :: Reaches(ttl, s, steps, s') && Unmarked(steps, id) ==> HasStatus(s', id, Current(s.rows[id]))
  }

  /** For an order that has left Pending: its status stays in every continuation without a MarkPaid of it
      if and only if no call in flight may write another status. */
  lemma StatusFinalIff(ttl: int, s: State, id: string)
    requires LeftPending(s, id)
    ensures StatusStays(ttl, s, id) <==> Final(s, id)
  {
    if Final(s, id) {
      forall steps: seq<Step>, s': State | Reaches(ttl, s, steps, s') && Unmarked(steps, id)
        ensures HasStatus(s', id, Current(s.rows[id]))
      {
        var states :| IsPath(ttl, states, steps) && states[0] == s && states[|steps|] == s';
        FinalAlongPath(ttl, states, steps, id, |steps|);
      }
    } else {
      var status :| SomeoneMayTurn(s, id, status) && status != Current(s.rows[id]);
      var p: nat :| p < |s.procs| && MayTurn(s, s.procs[p], id, status);
      TurnsIntoAny(ttl, s, p, id, status);
    }
  }

  /** In a whole run: a final status stays for as long as no MarkPaid of the order starts. */
  lemma {:induction false} FinalStatusStays(ttl: int, states: seq<State>, steps: seq<Step>, i: nat, n: nat, id: string)
    requires Behavior(ttl, states, steps) && i <= n < |states| && Final(states[i], id) && Unmarked(steps[i..n], id)
    ensures Final(states[n], id) && Current(states[n].rows[id]) == Current(states[i].rows[id])
  {
    if i == n {
    } else {
      assert steps[i..n - 1] == steps[i..n][..n - 1 - i];
      FinalStatusStays(ttl, states, steps, i, n - 1, id);
      assert StepAt(ttl, states, steps, n - 1);
      assert steps[i..n][n - 1 - i] == steps[n - 1];
      FinalStep(ttl, states[n - 1], steps[n - 1], id);
    }
  }
}
