/**
 Concrete runs of the order protocol: the stale read the cache comment rules out, a status as old
 as the staleness bound allows, an order paid after its cancellation was confirmed, and MarkPaid
 without a payment. No command of any of these runs fails, and no call gives up.
 */
module OrderWitnesses {
  import opened Options
  import opened Faults
  import opened Orders
  import opened OrderProtocol
  import OrderCoherence
  import OrderHistory
  import OrderMoney

  const O: string := "o"

  /** The shortest way to write the facts about a state that the next step needs. */
  ghost predicate At(s: State, amount: int, log: seq<Write>, p0: Proc, p1: Proc) {
    && s.procs == [p0, p1] && s.rows == map[O := Row(amount, None, log)]
    && s.cache == map[] && s.dirty == {} && s.seen == [] && s.now == 0
  }

  const CREATED: seq<Write> := [Write(0, Pending)]
  const CANCELLED: seq<Write> := [Write(0, Pending), Write(0, Cancelled)]
  const FAILED: seq<Write> := [Write(0, Pending), Write(0, Failed)]

  /** The command succeeds and says so; no process crashes and none gives up waiting. */
  predicate Succeeds(a: Step) {
    match a
    case Crash(_) => false
    case Timeout(_) => false
    case Serve(_, insert) => insert == NoFault
    case InsertRow(_, _, fault) => fault == NoFault
    case Update(_, fault) => fault == NoFault
    case Delete(_, fault) => fault == NoFault
    case Set(_, fault) => fault == NoFault
    case LookupKey(_, fails) => !fails
    case CacheGet(_, fails) => !fails
    case Read(_, fails) => !fails
    case _ => true
  }

  ghost predicate SmoothRun(ttl: int, states: seq<State>, steps: seq<Step>) {
    Behavior(ttl, states, steps) && forall k :: 0 <= k < |steps| ==> Succeeds(steps[k])
  }

  predicate NoTicks(steps: seq<Step>) {
    forall k :: 0 <= k < |steps| ==> !steps[k].Tick?
  }

  /** One more enabled step makes a longer run. */
  lemma Then(ttl: int, states: seq<State>, steps: seq<Step>, a: Step) returns (states': seq<State>, steps': seq<Step>)
    requires SmoothRun(ttl, states, steps) && Enabled(states[|steps|], a) && Succeeds(a)
    ensures SmoothRun(ttl, states', steps') && states'[|steps'|] == Apply(ttl, states[|steps|], a)
    ensures states <= states' && steps' == steps + [a]
    ensures NoTicks(steps) && !a.Tick? ==> NoTicks(steps')
  {
    states', steps' := states + [Apply(ttl, states[|steps|], a)], steps + [a];
    forall i: nat | i < |steps'|
      ensures StepAt(ttl, states', steps', i)
    {
      if i < |steps| {
        assert StepAt(ttl, states, steps, i);
      }
    }
  }

  /** An order has been inserted by process 0, which is about to call the gateway. */
  lemma Created(ttl: int, amount: int) returns (states: seq<State>, steps: seq<Step>)
    requires amount > 0
    ensures SmoothRun(ttl, states, steps) && NoTicks(steps)
    ensures var s := states[|steps|];
            At(s, amount, CREATED, Call(O), Idle) && s.payments == [] && s.rpcs == map[] && s.replies == map[]
  {
    var s0 := State(0, map[], map[], [Idle, Idle], map[], map[], [], [], [], [], {});
    states, steps := [s0], [];
    states, steps := Then(ttl, states, steps, Start(0, Create(amount, None)));
    assert states[|steps|] == s0.(procs := [Insert(amount, None), Idle]);
    states, steps := Then(ttl, states, steps, InsertRow(0, O, NoFault));
  }

  const PENDING_READ: Proc := Fill(O, Snapshot(Pending, 1, 0))

  /** Process 1 misses the cache and reads the row while it is Pending. */
  lemma ReadWhilePending(ttl: int, amount: int) returns (states: seq<State>, steps: seq<Step>)
    requires amount > 0
    ensures SmoothRun(ttl, states, steps) && NoTicks(steps)
    ensures At(states[|steps|], amount, CREATED, Call(O), PENDING_READ) && states[|steps|].rpcs == map[]
  {
    states, steps := Created(ttl, amount);
    states, steps := Then(ttl, states, steps, Start(1, Get(O)));
    assert At(states[|steps|], amount, CREATED, Call(O), ReadCache(O));
    states, steps := Then(ttl, states, steps, CacheGet(1, false));
    assert At(states[|steps|], amount, CREATED, Call(O), ReadRow(O));
    states, steps := Then(ttl, states, steps, Read(1, false));
  }

  /** The payment service answers process 0 with its verdict. */
  lemma Answered(ttl: int, states: seq<State>, steps: seq<Step>, amount: int, log: seq<Write>, p1: Proc)
      returns (states': seq<State>, steps': seq<Step>)
    requires SmoothRun(ttl, states, steps) && At(states[|steps|], amount, log, Await(O), p1) && states[|steps|].rpcs == map[O := amount]
    ensures SmoothRun(ttl, states', steps') && states <= states' && (NoTicks(steps) ==> NoTicks(steps'))
    ensures At(states'[|steps'|], amount, log, if amount > 100_000 then FailDeclined(O) else PayRow(O), p1)
  {
    states', steps' := Then(ttl, states, steps, Serve(O, NoFault));
    assert At(states'[|steps'|], amount, log, Await(O), p1);
    assert states'[|steps'|].replies[O] == if amount > 100_000 then Declined else Authorized;
    states', steps' := Then(ttl, states', steps', Receive(0));
  }

  /** The order is declined: process 0 writes Failed and deletes the cache entry. */
  lemma DeclinedAndInvalidated(ttl: int) returns (states: seq<State>, steps: seq<Step>, deleted: nat)
    ensures SmoothRun(ttl, states, steps) && NoTicks(steps) && At(states[|steps|], 100_001, FAILED, Idle, PENDING_READ)
    ensures deleted < |steps| && steps[deleted] == Delete(0, NoFault)
  {
    states, steps := ReadWhilePending(ttl, 100_001);
    states, steps := Then(ttl, states, steps, CallGateway(0));
    assert At(states[|steps|], 100_001, CREATED, Await(O), PENDING_READ) && states[|steps|].rpcs == map[O := 100_001];
    states, steps := Answered(ttl, states, steps, 100_001, CREATED, PENDING_READ);
    states, steps := Then(ttl, states, steps, Update(0, NoFault));
    assert states[|steps|].rows[O].log == FAILED;
    assert At(states[|steps|], 100_001, FAILED, Invalidate(O, true), PENDING_READ);
    deleted := |steps|;
    states, steps := Then(ttl, states, steps, Delete(0, NoFault));
  }

  /** The comment on the invalidation is too strong: no command fails and all calls have returned, yet
      the cache shows Pending for an order whose row says Failed, because the reader's Set came after
      the DEL that followed the update. Nobody is left to remove the entry. */
  lemma StaleAfterInvalidation(ttl: int) returns (states: seq<State>, steps: seq<Step>, deleted: nat)
    ensures SmoothRun(ttl, states, steps)
    ensures deleted < |steps| && steps[deleted] == Delete(0, NoFault)
    ensures var s := states[|steps|];
            && s.procs == [Idle, Idle]
            && O in s.rows && s.rows[O].log == FAILED
            && O in s.cache && s.cache[O].snap.status == Pending && OrderCoherence.Stale(s, O)
            && |s.seen| == 1 && s.seen[0].snap.status == Pending
  {
    states, steps, deleted := DeclinedAndInvalidated(ttl);
    states, steps := Then(ttl, states, steps, Set(1, NoFault));
  }

  lemma CancelWrites(ttl: int, states: seq<State>, steps: seq<Step>) returns (states': seq<State>, steps': seq<Step>)
    requires SmoothRun(ttl, states, steps)
    requires At(states[|steps|], 1, CREATED, Await(O), CancelRow(O)) && states[|steps|].rpcs == map[O := 1]
    ensures SmoothRun(ttl, states', steps')
    ensures At(states'[|steps'|], 1, CANCELLED, Await(O), Idle) && states'[|steps'|].rpcs == map[O := 1]
  {
    states', steps' := Then(ttl, states, steps, Update(1, NoFault));
    assert states'[|steps'|].rows[O].log == CANCELLED;
    assert At(states'[|steps'|], 1, CANCELLED, Await(O), Invalidate(O, false));
    states', steps' := Then(ttl, states', steps', Delete(1, NoFault));
  }

  ghost predicate AllPrompt(gap: nat, states: seq<State>, steps: seq<Step>)
    requires |states| == |steps| + 1
  {
    forall k :: 0 <= k < |steps| ==> OrderHistory.Prompt(gap, states[k], steps[k])
  }

  /** One more prompt step of a prompt run. */
  lemma ThenPrompt(ttl: int, gap: nat, states: seq<State>, steps: seq<Step>, a: Step) returns (states': seq<State>, steps': seq<Step>)
    requires SmoothRun(ttl, states, steps) && AllPrompt(gap, states, steps) && Enabled(states[|steps|], a) && Succeeds(a)
    requires OrderHistory.Prompt(gap, states[|steps|], a)
    ensures SmoothRun(ttl, states', steps') && AllPrompt(gap, states', steps')
    ensures states'[|steps'|] == Apply(ttl, states[|steps|], a)
  {
    states', steps' := Then(ttl, states, steps, a);
    assert states' == states + [states'[|steps'|]];
  }

  /** The reader sets its old snapshot after `gap`. */
  lemma SetLate(ttl: int, gap: nat) returns (states: seq<State>, steps: seq<Step>)
    ensures SmoothRun(ttl, states, steps) && AllPrompt(gap, states, steps)
    ensures var s := states[|steps|];
            && s.procs == [Idle, Idle] && s.now == gap && s.rows == map[O := Row(100_001, None, FAILED)]
            && O in s.cache && s.cache[O].snap == Snapshot(Pending, 1, 0) && s.cache[O].setAt == gap
  {
    var deleted;
    states, steps, deleted := DeclinedAndInvalidated(ttl);
    states, steps := ThenPrompt(ttl, gap, states, steps, Tick(gap));
    assert states[|steps|].procs == [Idle, PENDING_READ];
    states, steps := ThenPrompt(ttl, gap, states, steps, Set(1, NoFault));
  }

  /** The bound of `OrderHistory.BoundedStaleness` is reached, for every TTL and
      every gap, without any failure: GetOrder shows a status that the row last had at t - ttl - gap + 1. */
  lemma StalenessAttained(ttl: int, gap: nat) returns (states: seq<State>, steps: seq<Step>, i: nat)
    requires ttl > 0
    ensures SmoothRun(ttl, states, steps) && AllPrompt(gap, states, steps)
    ensures i < |states[|steps|].seen|
    ensures var r := states[|steps|].seen[i];
            && r.id in states[|steps|].rows
            && forall t: nat :: OrderHistory.HeldAt(states[|steps|].rows[r.id], r.snap.status, t) ==> t <= r.at - ttl - gap + 1
  {
    states, steps := SetLate(ttl, gap);
    states, steps := ThenPrompt(ttl, gap, states, steps, Tick(gap + ttl - 1));
    assert states[|steps|].procs == [Idle, Idle];
    states, steps := ThenPrompt(ttl, gap, states, steps, Start(1, Get(O)));
    assert states[|steps|].procs == [Idle, ReadCache(O)];
    i := |states[|steps|].seen|;
    states, steps := ThenPrompt(ttl, gap, states, steps, CacheGet(1, false));
    assert states[|steps|].seen[i] == Seen(O, Snapshot(Pending, 1, 0), gap + ttl - 1);
    assert states[|steps|].rows[O].log == FAILED;
  }

  /** Process 1 cancels the order and returns, while process 0 waits for the gateway. */
  lemma CancelledWhileWaiting(ttl: int) returns (states: seq<State>, steps: seq<Step>)
    ensures SmoothRun(ttl, states, steps)
    ensures At(states[|steps|], 1, CANCELLED, Await(O), Idle) && states[|steps|].rpcs == map[O := 1]
  {
    states, steps := Created(ttl, 1);
    states, steps := Then(ttl, states, steps, CallGateway(0));
    assert At(states[|steps|], 1, CREATED, Await(O), Idle) && states[|steps|].rpcs == map[O := 1];
    states, steps := Then(ttl, states, steps, Start(1, Cancel(O)));
    assert At(states[|steps|], 1, CREATED, Await(O), ReadToCancel(O));
    states, steps := Then(ttl, states, steps, Read(1, false));
    assert At(states[|steps|], 1, CREATED, Await(O), CancelRow(O));
    states, steps := CancelWrites(ttl, states, steps);
  }

  /** The payment service authorises and the creator writes Paid over a confirmed cancellation. */
  lemma CancelledThenPaid(ttl: int) returns (states: seq<State>, steps: seq<Step>, confirmed: nat)
    ensures SmoothRun(ttl, states, steps) && confirmed < |states|
    ensures At(states[confirmed], 1, CANCELLED, Await(O), Idle)
    ensures OrderMoney.IsPaid(states[|steps|], O)
  {
    states, steps := CancelledWhileWaiting(ttl);
    confirmed := |steps|;
    ghost var s := states[confirmed];
    states, steps := Answered(ttl, states, steps, 1, CANCELLED, Idle);
    assert states[confirmed] == s;
    states, steps := Then(ttl, states, steps, Update(0, NoFault));
  }

  /** MarkPaid writes Paid unconditionally: a paid order without any payment. */
  lemma MarkedPaidWithoutPayment(ttl: int) returns (states: seq<State>, steps: seq<Step>)
    ensures SmoothRun(ttl, states, steps)
    ensures OrderMoney.IsPaid(states[|steps|], O) && states[|steps|].payments == []
  {
    states, steps := Created(ttl, 1);
    states, steps := Then(ttl, states, steps, Start(1, MarkPaid(O)));
    assert At(states[|steps|], 1, CREATED, Call(O), MarkRow(O));
    states, steps := Then(ttl, states, steps, Update(1, NoFault));
  }
}
