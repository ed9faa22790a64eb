/**
 The money behind paid orders, in every interleaving: a paid order has an authorised payment of
 its own unless a MarkPaid of it was started.
 */
module OrderMoney {
  import opened Faults
  import opened Orders
  import opened OrderProtocol
  import opened OrderHistory
  import opened OrderSafety
  import Payments

  predicate Pays(p: Payment, id: string, r: Row) {
    p.orderID == id && p.amount == r.amount && p.status == Payments.Authorized
  }

  /** There is an authorised payment of the order's id and amount. */
  ghost predicate PaidFor(s: State, id: string) {
    id in s.rows && exists i :: 0 <= i < |s.payments| && Pays(s.payments[i], id, s.rows[id])
  }

  ghost predicate WasPaid(s: State, id: string) {
    id in s.rows && exists v :: 0 <= v < |s.rows[id].log| && s.rows[id].log[v].status == Paid
  }

  ghost predicate RowPaidFor(s: State, id: string) {
    WasPaid(s, id) ==> PaidFor(s, id)
  }

  /** No MarkPaid call of this order is in flight. */
  ghost predicate NoMarker(s: State, id: string) {
    forall p :: 0 <= p < |s.procs| ==> s.procs[p] != MarkRow(id)
  }

  ghost predicate ProcPaidFor(s: State, p: Proc) {
    && (p.PayRow? ==> PaidFor(s, p.id))
    && (p.Lookup? || p.Insert? ==> p.amount > 0)
  }

  ghost predicate MoneyInv(s: State) {
    && (forall id :: id in s.rows ==> s.rows[id].amount > 0)
    && (forall p :: 0 <= p < |s.procs| ==> ProcPaidFor(s, s.procs[p]))
    && (forall id :: id in s.rpcs ==> id in s.rows && s.rpcs[id] == s.rows[id].amount)
    && (forall id :: id in s.replies && s.replies[id] == Authorized ==> PaidFor(s, id))
    && (forall i :: 0 <= i < |s.payments| ==> s.payments[i].amount > 0 && s.payments[i].status == Payments.Verdict(s.payments[i].amount))
  }

  lemma PaymentsGrow(ttl: int, s: State, a: Step)
    requires Enabled(s, a)
    ensures s.payments <= Apply(ttl, s, a).payments
  {
    match a
    case Tick(_) =>
    case Evict(_) =>
    case DirectPayment(_, _) =>
    case Serve(_, _) =>
    case Start(_, _) =>
    case LookupKey(_, _) =>
    case InsertRow(_, _, _) =>
    case CallGateway(_) =>
    case Receive(_) =>
    case Timeout(_) =>
    case Update(_, _) =>
    case Delete(_, _) =>
    case Set(_, _) =>
    case CacheGet(_, _) =>
    case Read(_, _) =>
    case Crash(_) =>
  }

  lemma PaidForStays(ttl: int, s: State, a: Step, id: string)
    requires RowsOK(s) && PaidFor(s, id) && Enabled(s, a)
    ensures PaidFor(Apply(ttl, s, a), id)
  {
    var s' := Apply(ttl, s, a);
    RowsStep(ttl, s, a);
    PaymentsGrow(ttl, s, a);
    var i :| 0 <= i < |s.payments| && Pays(s.payments[i], id, s.rows[id]);
    assert s'.payments[i] == s.payments[i];
    assert RowGrows(s.rows[id], s'.rows[id], s.now);
    assert Pays(s'.payments[i], id, s'.rows[id]);
  }

  lemma NoMarkerStep(ttl: int, s: State, a: Step, id: string)
    requires NoMarker(s, id) && Enabled(s, a) && !StartsMarkPaid(a, id)
    ensures NoMarker(Apply(ttl, s, a), id)
  {
    OnlyActorMoves(ttl, s, a);
    if ByProc(a) {
      ActorMarksOnlyByStart(ttl, s, a);
    }
  }

  lemma SameIdsOrInserted(ttl: int, s: State, a: Step, id: string)
    requires Enabled(s, a) && id !in s.rows && id in Apply(ttl, s, a).rows
    ensures a.InsertRow? && Apply(ttl, s, a).rows[id] == Row(s.procs[a.p].amount, s.procs[a.p].key, [Write(s.now, Pending)])
  {
    if !a.InsertRow? {
      SameIds(ttl, s, a);
    }
  }

  lemma WrittenStatus(ttl: int, s: State, a: Step, id: string)
    requires Enabled(s, a) && id in s.rows && id in Apply(ttl, s, a).rows && Apply(ttl, s, a).rows[id] != s.rows[id]
    ensures a.Update? && s.procs[a.p].id == id
    ensures Apply(ttl, s, a).rows[id] == s.rows[id].(log := s.rows[id].log + [Write(s.now, StatusToWrite(s.procs[a.p]))])
  {
    if !a.InsertRow? && !a.Update? {
      OthersKeepRows(ttl, s, a);
    }
  }

  /** Paid is written only by a process whose order has been paid for, or by a MarkPaid of the order. */
  lemma RowPaidForStep(ttl: int, s: State, a: Step, id: string)
    requires Inv(s) && MoneyInv(s) && RowPaidFor(s, id) && NoMarker(s, id) && Enabled(s, a)
    ensures RowPaidFor(Apply(ttl, s, a), id)
  {
    var s' := Apply(ttl, s, a);
    if PaidFor(s, id) {
      PaidForStays(ttl, s, a, id);
    } else if id in s'.rows {
      if id !in s.rows {
        SameIdsOrInserted(ttl, s, a, id);
      } else if s'.rows[id] != s.rows[id] {
        WrittenStatus(ttl, s, a, id);
        assert ProcPaidFor(s, s.procs[a.p]);
      }
    }
  }

  lemma AmountsStep(ttl: int, s: State, a: Step, id: string)
    requires Inv(s) && MoneyInv(s) && Enabled(s, a) && id in Apply(ttl, s, a).rows
    ensures Apply(ttl, s, a).rows[id].amount > 0
  {
    if id !in s.rows {
      SameIdsOrInserted(ttl, s, a, id);
      assert ProcPaidFor(s, s.procs[a.p]);
    } else {
      RowsStep(ttl, s, a);
      assert RowGrows(s.rows[id], Apply(ttl, s, a).rows[id], s.now);
    }
  }

  lemma ActorPaidFor(ttl: int, s: State, a: Step)
    requires Inv(s) && MoneyInv(s) && Enabled(s, a) && ByProc(a)
    ensures a.p < |Apply(ttl, s, a).procs|
    ensures var p := Apply(ttl, s, a).procs[a.p];
            && (p.PayRow? ==> a.Receive? && p.id in s.replies && s.replies[p.id] == Authorized)
            && (p.Lookup? || p.Insert? ==> p.amount > 0)
  {
    assert ProcPaidFor(s, s.procs[a.p]);
    if Ends(a) {
      EnderIsQuiet(ttl, s, a);
      EnderWritesNothing(ttl, s, a);
    } else if Creates(a) {
      CreatorGoesOn(ttl, s, a);
    }
  }

  lemma ProcsPaidForStep(ttl: int, s: State, a: Step, p: nat)
    requires Inv(s) && MoneyInv(s) && Enabled(s, a) && p < |Apply(ttl, s, a).procs|
    ensures ProcPaidFor(Apply(ttl, s, a), Apply(ttl, s, a).procs[p])
  {
    var s' := Apply(ttl, s, a);
    OnlyActorMoves(ttl, s, a);
    assert ProcPaidFor(s, s.procs[p]);
    if ByProc(a) && p == a.p {
      ActorPaidFor(ttl, s, a);
    }
    if s'.procs[p].PayRow? {
      PaidForStays(ttl, s, a, s'.procs[p].id);
    }
  }

  lemma ServePays(ttl: int, s: State, id: string, insert: Fault)
    requires Inv(s) && MoneyInv(s) && Enabled(s, Serve(id, insert))
    ensures var s' := Apply(ttl, s, Serve(id, insert)); s'.replies[id] == Authorized ==> PaidFor(s', id)
  {
    var s' := Apply(ttl, s, Serve(id, insert));
    if s'.replies[id] == Authorized {
      assert Pays(s'.payments[|s.payments|], id, s'.rows[id]);
    }
  }

  lemma RepliesKept(ttl: int, s: State, a: Step, id: string)
    requires Enabled(s, a) && id in Apply(ttl, s, a).replies && !(a.Serve? && a.id == id)
    ensures id in s.replies && Apply(ttl, s, a).replies[id] == s.replies[id]
  {
    if !a.Serve? {
      OthersKeepGateway(ttl, s, a);
    }
  }

  lemma RepliesStep(ttl: int, s: State, a: Step, id: string)
    requires Inv(s) && MoneyInv(s) && Enabled(s, a)
    requires id in Apply(ttl, s, a).replies && Apply(ttl, s, a).replies[id] == Authorized
    ensures PaidFor(Apply(ttl, s, a), id)
  {
    if a.Serve? && a.id == id {
      ServePays(ttl, s, id, a.insert);
    } else {
      RepliesKept(ttl, s, a, id);
      PaidForStays(ttl, s, a, id);
    }
  }

  lemma RpcsFrom(ttl: int, s: State, a: Step, id: string)
    requires Enabled(s, a) && id in Apply(ttl, s, a).rpcs
    ensures (id in s.rpcs && Apply(ttl, s, a).rpcs[id] == s.rpcs[id])
            || (a.CallGateway? && id in s.rows && Apply(ttl, s, a).rpcs[id] == s.rows[id].amount)
  {
    if !a.Serve? && !a.CallGateway? {
      OthersKeepGateway(ttl, s, a);
    }
  }

  lemma RpcsStep(ttl: int, s: State, a: Step, id: string)
    requires Inv(s) && MoneyInv(s) && Enabled(s, a) && id in Apply(ttl, s, a).rpcs
    ensures var s' := Apply(ttl, s, a); id in s'.rows && s'.rpcs[id] == s'.rows[id].amount
  {
    var s' := Apply(ttl, s, a);
    RowsStep(ttl, s, a);
    RpcsFrom(ttl, s, a, id);
    assert RowGrows(s.rows[id], s'.rows[id], s.now);
  }

  lemma OthersKeepPayments(ttl: int, s: State, a: Step)
    requires Enabled(s, a) && !a.Serve? && !a.DirectPayment?
    ensures Apply(ttl, s, a).payments == s.payments
  {
  }

  lemma PaymentsStep(ttl: int, s: State, a: Step)
    requires Inv(s) && MoneyInv(s) && Enabled(s, a)
    ensures forall p :: p in Apply(ttl, s, a).payments ==> p.amount > 0 && p.status == Payments.Verdict(p.amount)
  {
    if !a.Serve? && !a.DirectPayment? {
      OthersKeepPayments(ttl, s, a);
    }
  }

  lemma MoneyStep(ttl: int, s: State, a: Step)
    requires Inv(s) && MoneyInv(s) && Enabled(s, a)
    ensures MoneyInv(Apply(ttl, s, a))
  {
    var s' := Apply(ttl, s, a);
    forall id | id in s'.rows
      ensures s'.rows[id].amount > 0
    {
      AmountsStep(ttl, s, a, id);
    }
    forall p | 0 <= p < |s'.procs|
      ensures ProcPaidFor(s', s'.procs[p])
    {
      ProcsPaidForStep(ttl, s, a, p);
    }
    forall id | id in s'.rpcs
      ensures id in s'.rows && s'.rpcs[id] == s'.rows[id].amount
    {
      RpcsStep(ttl, s, a, id);
    }
    forall id | id in s'.replies && s'.replies[id] == Authorized
      ensures PaidFor(s', id)
    {
      RepliesStep(ttl, s, a, id);
    }
    PaymentsStep(ttl, s, a);
  }

  lemma {:induction false} MoneyHolds(ttl: int, states: seq<State>, steps: seq<Step>, n: nat)
    requires Behavior(ttl, states, steps) && n < |states|
    ensures MoneyInv(states[n])
  {
    if n == 0 {
    } else {
      MoneyHolds(ttl, states, steps, n - 1);
      InvHolds(ttl, states, steps, n - 1);
      assert StepAt(ttl, states, steps, n - 1);
      MoneyStep(ttl, states[n - 1], steps[n - 1]);
    }
  }

  lemma {:induction false} RowPaidForHolds(ttl: int, states: seq<State>, steps: seq<Step>, n: nat, id: string)
    requires Behavior(ttl, states, steps) && n < |states| && Unmarked(steps[..n], id)
    ensures NoMarker(states[n], id) && RowPaidFor(states[n], id)
  {
    if n == 0 {
    } else {
      assert forall k :: 0 <= k < n - 1 ==> steps[..n - 1][k] == steps[..n][k];
      RowPaidForHolds(ttl, states, steps, n - 1, id);
      InvHolds(ttl, states, steps, n - 1);
      MoneyHolds(ttl, states, steps, n - 1);
      assert StepAt(ttl, states, steps, n - 1) && steps[..n][n - 1] == steps[n - 1];
      NoMarkerStep(ttl, states[n - 1], steps[n - 1], id);
      RowPaidForStep(ttl, states[n - 1], steps[n - 1], id);
    }
  }

  // ---------- totals ----------

  predicate IsPaid(s: State, id: string) {
    id in s.rows && s.rows[id].log != [] && Current(s.rows[id]) == Paid
  }

  /** A Paid order without an authorised payment of its id and amount has had a MarkPaid started. */
  lemma PaidWithoutPaymentWasMarked(ttl: int, states: seq<State>, steps: seq<Step>, n: nat, id: string) returns (k: nat)
    requires Behavior(ttl, states, steps) && n < |states| && IsPaid(states[n], id) && !PaidFor(states[n], id)
    ensures k < n && StartsMarkPaid(steps[k], id)
  {
    if Unmarked(steps[..n], id) {
      RowPaidForHolds(ttl, states, steps, n, id);
      assert false;
    } else {
      k :| 0 <= k < |steps[..n]| && StartsMarkPaid(steps[..n][k], id);
    }
  }

  /** The amounts of the paid orders among `ids`. */
  function PaidTotal(s: State, ids: seq<string>): int {
    if ids == [] then 0
    else
      var last := ids[|ids| - 1];
      PaidTotal(s, ids[..|ids| - 1]) + if IsPaid(s, last) then s.rows[last].amount else 0
  }

  /** The sum of the payments at the given positions. */
  function SumAt(payments: seq<Payment>, at: set<nat>): int {
    if payments == [] then 0
    else
      var n := |payments| - 1;
      SumAt(payments[..n], at) + if n in at then payments[n].amount else 0
  }

  function AuthorizedAt(payments: seq<Payment>): set<nat> {
    set i: nat | i < |payments| && payments[i].status == Payments.Authorized
  }

  /** A payment that pays for a paid order. */
  ghost function MatchOf(s: State, id: string): (i: nat)
    requires PaidFor(s, id)
    ensures i < |s.payments| && Pays(s.payments[i], id, s.rows[id])
  {
    var i: nat :| i < |s.payments| && Pays(s.payments[i], id, s.rows[id]);
    i
  }

  ghost function Matched(s: State, ids: seq<string>): (r: set<nat>)
    requires forall id :: id in ids && IsPaid(s, id) ==> PaidFor(s, id)
    ensures forall i :: i in r ==> i < |s.payments| && s.payments[i].orderID in ids && s.payments[i].status == Payments.Authorized
  {
    if ids == [] then {}
    else
      var last := ids[|ids| - 1];
      assert ids == ids[..|ids| - 1] + [last];
      Matched(s, ids[..|ids| - 1]) + if IsPaid(s, last) then {MatchOf(s, last)} else {}
  }

  ghost predicate DistinctIds(ids: seq<string>) {
    forall i, j :: 0 <= i < j < |ids| ==> ids[i] != ids[j]
  }

  lemma {:induction false} SumIgnores(payments: seq<Payment>, at: set<nat>, i: nat)
    requires i >= |payments|
    ensures SumAt(payments, at + {i}) == SumAt(payments, at)
  {
    if payments == [] {
    } else {
      SumIgnores(payments[..|payments| - 1], at, i);
    }
  }

  lemma {:induction false} SumAdd(payments: seq<Payment>, at: set<nat>, i: nat)
    requires i < |payments| && i !in at
    ensures SumAt(payments, at + {i}) == SumAt(payments, at) + payments[i].amount
  {
    var n := |payments| - 1;
    if i < n {
      SumAdd(payments[..n], at, i);
    } else {
      SumIgnores(payments[..n], at, n);
    }
  }

  lemma {:induction false} SumSplits(payments: seq<Payment>, all: set<nat>, part: set<nat>)
    requires part <= all
    ensures SumAt(payments, all) == SumAt(payments, part) + SumAt(payments, all - part)
  {
    if payments == [] {
    } else {
      SumSplits(payments[..|payments| - 1], all, part);
    }
  }

  lemma {:induction false} SumNotNegative(payments: seq<Payment>, at: set<nat>)
    requires forall i :: 0 <= i < |payments| ==> payments[i].amount > 0
    ensures SumAt(payments, at) >= 0
  {
    if payments == [] {
    } else {
      SumNotNegative(payments[..|payments| - 1], at);
    }
  }

  lemma {:induction false} SumOfNone(payments: seq<Payment>)
    ensures SumAt(payments, {}) == 0
  {
    if payments == [] {
    } else {
      SumOfNone(payments[..|payments| - 1]);
    }
  }

  /** Different paid orders are matched by different payments, of exactly their amounts. */
  lemma {:induction false} MatchedTotal(s: State, ids: seq<string>)
    requires DistinctIds(ids) && forall id :: id in ids && IsPaid(s, id) ==> PaidFor(s, id)
    ensures SumAt(s.payments, Matched(s, ids)) == PaidTotal(s, ids)
  {
    if ids == [] {
      SumOfNone(s.payments);
    } else {
      var init, last := ids[..|ids| - 1], ids[|ids| - 1];
      assert ids == init + [last];
      MatchedTotal(s, init);
      if IsPaid(s, last) {
        assert last !in init;
        SumAdd(s.payments, Matched(s, init), MatchOf(s, last));
      } else {
        assert Matched(s, ids) == Matched(s, init);
      }
    }
  }

  /** For any orders of which no MarkPaid has started so far: every paid one has an authorised payment of
      its id and amount, within the payment limit; the authorised money is the money of these paid orders
      plus that of the authorised payments matched to none of them, hence never less. */
  lemma MoneyBound(ttl: int, states: seq<State>, steps: seq<Step>, n: nat, ids: seq<string>)
    requires Behavior(ttl, states, steps) && n < |states| && DistinctIds(ids)
    requires forall id :: id in ids ==> Unmarked(steps[..n], id)
    ensures var s := states[n];
            && (forall id :: id in ids && IsPaid(s, id) ==> PaidFor(s, id) && s.rows[id].amount <= Payments.MAX_PAYMENT_AMOUNT)
            && SumAt(s.payments, AuthorizedAt(s.payments))
               == PaidTotal(s, ids) + SumAt(s.payments, AuthorizedAt(s.payments) - Matched(s, ids))
            && PaidTotal(s, ids) <= SumAt(s.payments, AuthorizedAt(s.payments))
  {
    var s := states[n];
    MoneyHolds(ttl, states, steps, n);
    forall id | id in ids && IsPaid(s, id)
      ensures PaidFor(s, id) && s.rows[id].amount <= Payments.MAX_PAYMENT_AMOUNT
    {
      RowPaidForHolds(ttl, states, steps, n, id);
      assert s.rows[id].log[|s.rows[id].log| - 1].status == Paid;
      assert Pays(s.payments[MatchOf(s, id)], id, s.rows[id]);
    }
    MatchedTotal(s, ids);
    SumSplits(s.payments, AuthorizedAt(s.payments), Matched(s, ids));
    SumNotNegative(s.payments, AuthorizedAt(s.payments) - Matched(s, ids));
  }
}
