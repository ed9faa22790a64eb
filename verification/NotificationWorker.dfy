/**
 The worker's own code: `Acquire`, `Release`, `Process` and `handle` as the imperative
 methods they are, and the proof that handling one delivery is a run of the step relation
 in module Notification, so that the theorems over all interleavings speak about it.
 */
module NotificationWorker {
  import opened Options
  import opened Faults
  import opened Backoff
  import opened Notification

  /** One call of the worker sees: its identity and clock, how SETNX and DEL fare, and the retry environment. */
  datatype Call = Call(w: nat, now: nat, setnx: Fault, delApplied: bool, env: Env)

  /** How `Process` ends: nil, an error, or a panic of the process. */
  datatype Result = Done | Erred | Died

  class RedisIdempotencyStore {
    var keys: Keys

    constructor ()
      ensures keys == map[]
    {
      keys := map[];
    }

    method Acquire(id: string, call: Call) returns (acquired: bool, err: bool)
      modifies this
      ensures keys == AcquireKeys(old(keys), id, call.setnx, call.w, call.now)
      ensures (acquired, err) == AcquireReply(old(keys), id, call.setnx)
      ensures acquired ==> id !in old(keys) && id in keys
      ensures !acquired && !err ==> id in old(keys) && keys == old(keys)
    {
      var absent := id !in keys;
      if absent && call.setnx != NotApplied {
        keys := keys[id := Key(if call.setnx == NoFault then Some(call.w) else None, call.now)];
      }
      if call.setnx != NoFault {
        return false, true;
      }
      return absent, false;
    }

    /** An error of the DEL is only logged. Under a context that is done it is never sent. */
    method Release(id: string, call: Call, done: bool)
      modifies this
      ensures keys == ReleaseKeys(old(keys), id, call.delApplied && !done)
    {
      if done {
        return;
      }
      if call.delApplied {
        keys := keys - {id};
      }
    }
  }

  /** The DEL that follows a failed retry: it is sent under the same context as the retry, so not
      after a cancellation. */
  predicate Releases(outcome: Outcome, call: Call) {
    call.delApplied && outcome != Returned(Some(ContextDone))
  }

  /** Keys and result after `Process`: a duplicate is skipped, an exhausted retry releases, a cancelled
      one fails to, a success keeps the key, and a panic leaves it behind. */
  function ProcessSpec(p: Policy, keys: Keys, id: string, call: Call): (Keys, Result) {
    var (acquired, err) := AcquireReply(keys, id, call.setnx);
    var taken := AcquireKeys(keys, id, call.setnx, call.w, call.now);
    if err then (taken, Erred)
    else if !acquired then (taken, Done)
    else
      match DoFrom(p, call.env, 1).outcome
      case Panicked => (taken, Died)
      case Returned(None) => (taken, Done)
      case Returned(Some(e)) => (ReleaseKeys(taken, id, Releases(Returned(Some(e)), call)), Erred)
  }

  /** Keys and verdict after `handle`; no verdict when the process has died. */
  function HandleSpec(p: Policy, keys: Keys, d: Delivery, call: Call): (Keys, Option<Verdict>) {
    if !Processable(d) then (keys, Some(Nack))
    else
      var (after, result) := ProcessSpec(p, keys, d.body.paymentID, call);
      (after, match result case Done => Some(Ack) case Erred => Some(Nack) case Died => None)
  }

  class Worker {
    const idemp: RedisIdempotencyStore
    const policy: Policy

    constructor (idemp: RedisIdempotencyStore, policy: Policy)
      ensures this.idemp == idemp && this.policy == policy
    {
      this.idemp, this.policy := idemp, policy;
    }

    method Process(id: string, call: Call) returns (result: Result)
      modifies idemp
      ensures (idemp.keys, result) == ProcessSpec(policy, old(idemp.keys), id, call)
    {
      var acquired, err := idemp.Acquire(id, call);
      if err {
        return Erred;
      }
      if !acquired {
        return Done;
      }
      var trace := Do(policy, call.env);
      match trace.outcome {
        case Panicked =>
          return Died;
        case Returned(e) =>
          if e.Some? {
            idemp.Release(id, call, e == Some(ContextDone));
            return Erred;
          }
          return Done;
      }
    }

    /** The consumer's `handle`: what is sent to the broker, if the process lives to send it. */
    method Handle(d: Delivery, call: Call) returns (verdict: Option<Verdict>)
      modifies idemp
      ensures (idemp.keys, verdict) == HandleSpec(policy, old(idemp.keys), d, call)
    {
      if d.body.Malformed? {
        return Some(Nack);
      }
      if d.body.paymentID == "" {
        return Some(Nack);
      }
      var result := Process(d.body.paymentID, call);
      match result {
        case Done => return Some(Ack);
        case Erred => return Some(Nack);
        case Died => return None;
      }
    }
  }

  /** A delivery is acked exactly when it is a duplicate, has just been sent, or the policy has no
      attempts; a nacked one leaves no key behind if its commands get through and its context lives,
      and leaves its key behind if the retry was cancelled. */
  lemma HandleDecides(p: Policy, keys: Keys, d: Delivery, call: Call)
    ensures var (after, verdict) := HandleSpec(p, keys, d, call);
            var t := DoFrom(p, call.env, 1);
            var processed := d.body.Event? && d.body.paymentID != "" && call.setnx == NoFault;
            var released := call.delApplied && t.outcome != Returned(Some(ContextDone));
            && (verdict == Some(Ack) <==> processed && (ID(d) in keys || p.maxAttempts < 1 || call.env.succeeds(t.calls)))
            && (verdict == Some(Nack) && processed && released ==> after == keys)
            && (verdict == Some(Nack) && processed ==> (ID(d) in after <==> !released))
            && (verdict == None <==> processed && ID(d) !in keys && t.outcome == Panicked)
            && (verdict == None || (verdict == Some(Ack) && processed) ==> ID(d) in after)
  {
    Outcomes(p, call.env);
    var (after, verdict) := HandleSpec(p, keys, d, call);
    if verdict == Some(Nack) && call.setnx == NoFault && Releases(DoFrom(p, call.env, 1).outcome, call) {
      assert after == keys;
    }
  }

  /** What handling a delivery does to the keys: nothing for one that does not parse or has an empty id; else no
      other key changes, SETNX never overwrites one, an error of SETNX leaves behind what it applied, owned by
      nobody, and a key this call set stays as it was set unless the DEL after a failed retry removes it. */
  lemma HandleKeys(p: Policy, keys: Keys, d: Delivery, call: Call)
    ensures var (after, verdict) := HandleSpec(p, keys, d, call);
            match d.body
            case Malformed => after == keys && verdict == Some(Nack)
            case Event(id) =>
              && (id == "" ==> after == keys && verdict == Some(Nack))
              && (id in keys ==> after == keys)
              && (forall k :: k != id ==> (k in after <==> k in keys) && (k in keys ==> after[k] == keys[k]))
              && (id != "" && call.setnx == NotApplied ==> after == keys && verdict == Some(Nack))
              && (id != "" && id !in keys && call.setnx == AppliedWithError ==>
                    verdict == Some(Nack) && id in after && after[id] == Key(None, call.now))
              && (id != "" && id !in keys && call.setnx == NoFault && id in after ==> after[id] == Key(Some(call.w), call.now))
  {
  }

  /** The last `Send` of the call returned nil. */
  predicate SendSucceeds(p: Policy, keys: Keys, d: Delivery, call: Call) {
    && Processable(d) && AcquireReply(keys, ID(d), call.setnx) == (true, false) && p.maxAttempts >= 1
    && call.env.succeeds(DoFrom(p, call.env, 1).calls)
  }

  /** The key is not released for a later redelivery when the retry is cancelled: the delivery goes to the
      DLQ with its key in place, and while the key lives every further copy is acked without a send. */
  lemma CancelledKeepsKey(p: Policy, keys: Keys, d: Delivery, call: Call, copy: Delivery, later: Call)
    requires Processable(d) && ID(d) !in keys && call.setnx == NoFault && DoFrom(p, call.env, 1).outcome == Returned(Some(ContextDone))
    requires copy.body == d.body && later.setnx == NoFault
    ensures var (after, verdict) := HandleSpec(p, keys, d, call);
            && verdict == Some(Nack) && ID(d) in after
            && HandleSpec(p, after, copy, later) == (after, Some(Ack)) && !SendSucceeds(p, after, copy, later)
  {
    var (after, verdict) := HandleSpec(p, keys, d, call);
    assert ID(d) in after && ID(copy) == ID(d);
  }

  // ---------- handling one delivery is a run of the step relation ----------

  /** The steps of the retry loop from attempt `k`, and of the release after it. */
  function RetrySteps(p: Policy, k: int, call: Call): seq<Step>
    requires 1 <= k <= p.maxAttempts
    decreases p.maxAttempts - k
  {
    var w := call.w;
    if call.env.succeeds(k) then [SendOk(w)]
    else if k == p.maxAttempts then [SendFail(w, 0), Del(w, call.delApplied)]
    else if JitterPanics(p, k) then [Crash(w)]
    else
      var fail := SendFail(w, Sleep(p, k, call.env.draw(k)));
      if call.env.cancelled(k) then [fail, Cancel(w), Del(w, false)]
      else [fail, Wake(w)] + RetrySteps(p, k + 1, call)
  }

  /** The steps of `handle` once its worker has taken `d`. */
  function HandleSteps(p: Policy, keys: Keys, d: Delivery, call: Call): seq<Step> {
    if !Processable(d) then []
    else
      [SetNX(call.w, call.setnx)] +
      if AcquireReply(keys, ID(d), call.setnx) == (true, false) && p.maxAttempts >= 1 then RetrySteps(p, 1, call) else []
  }

  /** The state of worker, keys and sends after the retry loop, for each of its outcomes. */
  ghost predicate RetryEnds(s: State, s': State, d: Delivery, since: nat, outcome: Outcome, call: Call)
    requires call.w < |s.workers|
  {
    match outcome
    case Returned(None) =>
      s'.workers == s.workers[call.w := Settling(d, Ack)]
      && s'.keys == KeepKey(s.keys, ID(d)) && s'.sent == s.sent + [Sent(ID(d), since)]
    case Returned(Some(e)) =>
      s'.workers == s.workers[call.w := Settling(d, Nack)]
      && s'.keys == ReleaseKeys(s.keys, ID(d), Releases(Returned(Some(e)), call)) && s'.sent == s.sent
    case Panicked =>
      s'.workers == s.workers[call.w := Idle] && s'.keys == s.keys && s'.sent == s.sent
  }

  lemma RetryCancelled(c: Config, s: State, sleep: int, w: nat)
    requires Enabled(c, s, SendFail(w, sleep)) && s.workers[w].attempt < c.policy.maxAttempts
    ensures var steps := [SendFail(w, sleep), Cancel(w), Del(w, false)];
            CanRun(c, s, steps)
            && var s' := Run(c, s, steps);
               s'.workers == s.workers[w := Settling(s.workers[w].d, Nack)] && s'.keys == s.keys && s'.sent == s.sent
  {
    var fail, del := SendFail(w, sleep), Del(w, false);
    var s1 := Apply(c, s, fail);
    RunCons(c, Apply(c, s1, Cancel(w)), del, []);
    RunCons(c, s1, Cancel(w), [del]);
    RunCons(c, s, fail, [Cancel(w), del]);
    assert [fail] + ([Cancel(w)] + [del]) == [fail, Cancel(w), del];
  }

  lemma RetryGivesUp(c: Config, s: State, fail: Step, call: Call)
    requires fail == SendFail(call.w, 0) && Enabled(c, s, fail)
    requires s.workers[call.w].attempt >= c.policy.maxAttempts
    ensures CanRun(c, s, [fail, Del(call.w, call.delApplied)])
    ensures var p := s.workers[call.w]; var s' := Run(c, s, [fail, Del(call.w, call.delApplied)]);
            && s'.workers == s.workers[call.w := Settling(p.d, Nack)]
            && s'.keys == ReleaseKeys(s.keys, ID(p.d), call.delApplied) && s'.sent == s.sent
  {
    var del := Del(call.w, call.delApplied);
    RunCons(c, Apply(c, s, fail), del, []);
    RunCons(c, s, fail, [del]);
  }

  lemma {:induction false} RetryRuns(c: Config, s: State, k: int, call: Call)
    requires 1 <= k <= c.policy.maxAttempts
    requires call.w < |s.workers| && s.workers[call.w].Sending? && s.workers[call.w].attempt == k
    ensures CanRun(c, s, RetrySteps(c.policy, k, call))
    ensures var p := s.workers[call.w];
            RetryEnds(s, Run(c, s, RetrySteps(c.policy, k, call)), p.d, p.since, DoFrom(c.policy, call.env, k).outcome, call)
    decreases c.policy.maxAttempts - k, 1
  {
    var w := call.w;
    if call.env.succeeds(k) {
      RunCons(c, s, SendOk(w), []);
    } else if k == c.policy.maxAttempts {
      RetryGivesUp(c, s, SendFail(w, 0), call);
    } else if JitterPanics(c.policy, k) {
      RunCons(c, s, Crash(w), []);
    } else {
      var sleep := Sleep(c.policy, k, call.env.draw(k));
      if call.env.cancelled(k) {
        RetryCancelled(c, s, sleep, w);
      } else {
        RetryAgain(c, s, sleep, RetrySteps(c.policy, k + 1, call), call, k);
      }
    }
  }

  /** Failing, backing off and waking up, followed by the rest of the loop. */
  lemma {:induction false} RetryAgain(c: Config, s: State, sleep: int, rest: seq<Step>, call: Call, k: int)
    requires 1 <= k < c.policy.maxAttempts && rest == RetrySteps(c.policy, k + 1, call)
    requires call.w < |s.workers| && s.workers[call.w].Sending? && s.workers[call.w].attempt == k
    requires PossibleSleep(c.policy, k, sleep)
    ensures CanRun(c, s, [SendFail(call.w, sleep), Wake(call.w)] + rest)
    ensures var p := s.workers[call.w];
            RetryEnds(s, Run(c, s, [SendFail(call.w, sleep), Wake(call.w)] + rest), p.d, p.since,
                      DoFrom(c.policy, call.env, k + 1).outcome, call)
    decreases c.policy.maxAttempts - k, 0
  {
    var s1 := Apply(c, s, SendFail(call.w, sleep));
    var awake := Apply(c, s1, Wake(call.w));
    RetryRuns(c, awake, k + 1, call);
    RunCons(c, s1, Wake(call.w), rest);
    RunCons(c, s, SendFail(call.w, sleep), [Wake(call.w)] + rest);
    assert [SendFail(call.w, sleep), Wake(call.w)] + rest == [SendFail(call.w, sleep)] + ([Wake(call.w)] + rest);
  }

  /** Equal but for the auxiliary holder. */
  ghost predicate SameEntries(a: Keys, b: Keys) {
    a.Keys == b.Keys && forall id :: id in a ==> a[id].setAt == b[id].setAt
  }

  /** Worker, keys and sends after `handle` has run from state `s`. */
  ghost predicate HandleEnds(c: Config, s: State, s': State, d: Delivery, call: Call)
    requires call.w < |s.workers|
  {
    var (keys, verdict) := HandleSpec(c.policy, s.keys, d, call);
    && s'.workers == s.workers[call.w := if verdict.None? then Idle else Settling(d, verdict.value)]
    && SameEntries(s'.keys, keys)
    && s'.sent == s.sent + if SendSucceeds(c.policy, s.keys, d, call) then [Sent(ID(d), s.now)] else []
  }

  /** A worker that got the key: the code of `Process` is a run of the retry loop's steps. */
  lemma AcquiredRuns(c: Config, s: State, d: Delivery, call: Call)
    requires call.w < |s.workers| && s.workers[call.w] == Acquiring(d) && call.now == s.now
    requires Processable(d) && c.policy.maxAttempts >= 1 && AcquireReply(s.keys, ID(d), call.setnx) == (true, false)
    ensures var steps := [SetNX(call.w, call.setnx)] + RetrySteps(c.policy, 1, call);
            CanRun(c, s, steps) && HandleEnds(c, s, Run(c, s, steps), d, call)
  {
    var setnx := SetNX(call.w, call.setnx);
    var s1 := Apply(c, s, setnx);
    RetryRuns(c, s1, 1, call);
    Outcomes(c.policy, call.env);
    RunCons(c, s, setnx, RetrySteps(c.policy, 1, call));
  }

  /** A worker that did not, or whose policy has no attempts, decides at once. */
  lemma NotAcquiredRuns(c: Config, s: State, d: Delivery, call: Call)
    requires call.w < |s.workers| && s.workers[call.w] == Acquiring(d) && call.now == s.now
    requires Processable(d) && !(c.policy.maxAttempts >= 1 && AcquireReply(s.keys, ID(d), call.setnx) == (true, false))
    ensures var steps := [SetNX(call.w, call.setnx)];
            CanRun(c, s, steps) && HandleEnds(c, s, Run(c, s, steps), d, call)
  {
    RunCons(c, s, SetNX(call.w, call.setnx), []);
  }

  /** From the moment its worker takes a delivery, the code of `handle` walks through enabled
      steps to the verdict it returns (or to the crash of its worker), leaves the keys the
      code leaves, and counts as sent exactly when the last `Send` returned nil. */
  lemma HandleIsARun(c: Config, s: State, d: Delivery, call: Call)
    requires Enabled(c, s, Take(call.w, d)) && call.now == s.now
    ensures var steps := [Take(call.w, d)] + HandleSteps(c.policy, s.keys, d, call);
            CanRun(c, s, steps) && HandleEnds(c, s, Run(c, s, steps), d, call)
  {
    var s1 := Apply(c, s, Take(call.w, d));
    var setnx := SetNX(call.w, call.setnx);
    if Processable(d) {
      if AcquireReply(s.keys, ID(d), call.setnx) == (true, false) && c.policy.maxAttempts >= 1 {
        AcquiredRuns(c, s1, d, call);
      } else {
        NotAcquiredRuns(c, s1, d, call);
        assert [setnx] + [] == [setnx];
      }
    }
    RunCons(c, s, Take(call.w, d), HandleSteps(c.policy, s.keys, d, call));
  }
}
