/**
 At-most-once with keys that expire: when a whole `Process` fits the key's time to live,
 two successful deliveries of one payment id acquired the key at least one TTL apart, and
 no worker ever deletes a key that is not its own.
 */
module TimedDelivery {
  import opened Options
  import opened Faults
  import opened Backoff
  import opened Notification

  /** Time passes no phase's deadline, and a key is dropped only once its TTL has elapsed. */
  ghost predicate Timely(c: Config, s: State, a: Step) {
    match a
    case Tick(to) => forall w :: 0 <= w < |s.workers| && Holding(s.workers[w]) ==> to <= s.workers[w].due
    case Expire(id) => id in s.keys ==> s.keys[id].setAt + c.ttl <= s.now
    case _ => true
  }

  /** All sends, the longest total backoff and the DEL end before the key expires. */
  predicate FitsTTL(c: Config) {
    c.policy.maxAttempts >= 1 ==>
      MaxBackoff(c.policy, c.policy.maxAttempts - 1) + c.policy.maxAttempts * c.sendMax + c.delMax < c.ttl
  }

  /** The longest time from SETNX to the end of the `k`-th send. */
  function SendBudget(c: Config, k: nat): nat {
    if k == 0 then 0
    else SendBudget(c, k - 1) + (if k == 1 then 0 else MaxSleep(c.policy, k - 1)) + c.sendMax
  }

  lemma {:induction false} SendBudgetIs(c: Config, k: nat)
    requires k >= 1
    ensures SendBudget(c, k) == MaxBackoff(c.policy, k - 1) + k * c.sendMax
  {
    if k > 1 {
      SendBudgetIs(c, k - 1);
    }
  }

  lemma {:induction false} SendBudgetMonotone(c: Config, j: nat, k: nat)
    requires j <= k
    ensures SendBudget(c, j) <= SendBudget(c, k)
    decreases k - j
  {
    if j < k {
      SendBudgetMonotone(c, j, k - 1);
    }
  }

  function PhaseBudget(c: Config, p: Worker): nat
    requires Holding(p)
    requires !p.Releasing? ==> p.attempt >= 1
    requires p.Releasing? ==> c.policy.maxAttempts >= 1
  {
    match p
    case Sending(_, k, _, _) => SendBudget(c, k)
    case Sleeping(_, k, _, _) => SendBudget(c, k) + MaxSleep(c.policy, k)
    case Releasing(_, _, _, _) => SendBudget(c, c.policy.maxAttempts) + c.delMax
  }

  ghost predicate InBudget(c: Config, s: State, p: Worker)
    requires Holding(p)
  {
    && c.policy.maxAttempts >= 1
    && (p.Sending? ==> 1 <= p.attempt <= c.policy.maxAttempts)
    && (p.Sleeping? ==> 1 <= p.attempt < c.policy.maxAttempts)
    && p.since <= s.now <= p.due <= p.since + PhaseBudget(c, p)
  }

  predicate OwnsKey(s: State, w: nat)
    requires w < |s.workers| && Holding(s.workers[w])
  {
    var p := s.workers[w];
    ID(p.d) in s.keys && s.keys[ID(p.d)] == Key(Some(w), p.since)
  }

  /** A holder's key is its own, unexpired, and every earlier delivery is one TTL back. */
  ghost predicate HolderInTime(c: Config, s: State, w: nat)
    requires w < |s.workers|
  {
    var p := s.workers[w];
    Holding(p) ==>
      && Processable(p.d)
      && OwnsKey(s, w)
      && InBudget(c, s, p)
      && (forall i :: 0 <= i < |s.sent| && s.sent[i].paymentID == ID(p.d) ==> s.sent[i].acquiredAt + c.ttl <= p.since)
  }

  /** The key of a delivery stays in place, with no holder, for one TTL. */
  ghost predicate DeliveryProtected(c: Config, s: State, i: nat)
    requires i < |s.sent|
  {
    var r := s.sent[i];
    && r.acquiredAt <= s.now
    && (s.now < r.acquiredAt + c.ttl ==> r.paymentID in s.keys && s.keys[r.paymentID] == Key(None, r.acquiredAt))
  }

  ghost predicate SpacedByTTL(c: Config, s: State) {
    forall i, j :: 0 <= i < j < |s.sent| && s.sent[i].paymentID == s.sent[j].paymentID ==>
      s.sent[i].acquiredAt + c.ttl <= s.sent[j].acquiredAt
  }

  ghost predicate Inv(c: Config, s: State) {
    && (forall w :: 0 <= w < |s.workers| ==> HolderInTime(c, s, w))
    && (forall w :: 0 <= w < |s.workers| && s.workers[w].Acquiring? ==> Processable(s.workers[w].d))
    && (forall i :: 0 <= i < |s.sent| ==> DeliveryProtected(c, s, i))
    && SpacedByTTL(c, s)
  }

  /** A holder is done, at the latest by its deadline, before its key can expire. */
  lemma HolderBeatsTTL(c: Config, s: State, w: nat)
    requires FitsTTL(c) && w < |s.workers| && HolderInTime(c, s, w) && Holding(s.workers[w])
    ensures s.workers[w].due < s.workers[w].since + c.ttl
  {
    var p, m := s.workers[w], c.policy.maxAttempts;
    SendBudgetIs(c, m);
    if p.Sending? {
      SendBudgetMonotone(c, p.attempt, m);
    } else if p.Sleeping? {
      SendBudgetMonotone(c, p.attempt + 1, m);
    }
  }

  /** Everything but the moving worker keeps its part of the invariant. */
  lemma MoveKeepsInv(c: Config, s: State, s': State, w: nat)
    requires Inv(c, s) && w < |s.workers| == |s'.workers|
    requires s'.workers == s.workers[w := s'.workers[w]]
    requires s'.keys == s.keys && s'.sent == s.sent && s'.now == s.now
    requires HolderInTime(c, s', w)
    requires s'.workers[w].Acquiring? ==> Processable(s'.workers[w].d)
    ensures Inv(c, s')
  {
    forall v | 0 <= v < |s'.workers|
      ensures HolderInTime(c, s', v)
    {
      assert HolderInTime(c, s, v);
    }
    forall i | 0 <= i < |s'.sent|
      ensures DeliveryProtected(c, s', i)
    {
      assert DeliveryProtected(c, s, i);
    }
  }

  lemma TickKeepsInv(c: Config, s: State, to: nat)
    requires Inv(c, s) && Enabled(c, s, Tick(to)) && Timely(c, s, Tick(to))
    ensures Inv(c, Apply(c, s, Tick(to)))
  {
    var s' := Apply(c, s, Tick(to));
    forall w | 0 <= w < |s'.workers|
      ensures HolderInTime(c, s', w)
    {
      assert HolderInTime(c, s, w);
    }
    forall i | 0 <= i < |s'.sent|
      ensures DeliveryProtected(c, s', i)
    {
      assert DeliveryProtected(c, s, i);
    }
  }

  lemma ExpireKeepsInv(c: Config, s: State, id: string)
    requires FitsTTL(c) && Inv(c, s) && Enabled(c, s, Expire(id)) && Timely(c, s, Expire(id))
    ensures Inv(c, Apply(c, s, Expire(id)))
  {
    var s' := Apply(c, s, Expire(id));
    forall w | 0 <= w < |s'.workers|
      ensures HolderInTime(c, s', w)
    {
      assert HolderInTime(c, s, w);
      if Holding(s.workers[w]) {
        HolderBeatsTTL(c, s, w);
      }
    }
    forall i | 0 <= i < |s'.sent|
      ensures DeliveryProtected(c, s', i)
    {
      assert DeliveryProtected(c, s, i);
    }
  }

  lemma SetNXKeepsInv(c: Config, s: State, w: nat, fault: Fault)
    requires Inv(c, s) && Enabled(c, s, SetNX(w, fault))
    ensures Inv(c, Apply(c, s, SetNX(w, fault)))
  {
    var s' := Apply(c, s, SetNX(w, fault));
    assert SendBudget(c, 1) == c.sendMax by {
      assert SendBudget(c, 0) == 0;
    }
    forall i | 0 <= i < |s'.sent|
      ensures DeliveryProtected(c, s', i)
    {
      assert DeliveryProtected(c, s, i);
    }
    forall v | 0 <= v < |s'.workers|
      ensures HolderInTime(c, s', v)
    {
      assert HolderInTime(c, s, v);
      if v == w && Holding(s'.workers[w]) {
        forall i | 0 <= i < |s.sent| && s.sent[i].paymentID == ID(s.workers[w].d)
          ensures s.sent[i].acquiredAt + c.ttl <= s.now
        {
          assert DeliveryProtected(c, s, i);
        }
      }
    }
  }

  lemma SendOkKeepsInv(c: Config, s: State, w: nat)
    requires Inv(c, s) && Enabled(c, s, SendOk(w))
    ensures Inv(c, Apply(c, s, SendOk(w)))
  {
    var s' := Apply(c, s, SendOk(w));
    assert HolderInTime(c, s, w);
    forall i | 0 <= i < |s'.sent|
      ensures DeliveryProtected(c, s', i)
    {
      if i < |s.sent| {
        assert DeliveryProtected(c, s, i);
      }
    }
    forall v | 0 <= v < |s'.workers|
      ensures HolderInTime(c, s', v)
    {
      assert HolderInTime(c, s, v);
    }
  }

  lemma DelKeepsInv(c: Config, s: State, w: nat, applied: bool)
    requires Inv(c, s) && Enabled(c, s, Del(w, applied))
    ensures Inv(c, Apply(c, s, Del(w, applied)))
  {
    var s' := Apply(c, s, Del(w, applied));
    assert HolderInTime(c, s, w);
    forall i | 0 <= i < |s'.sent|
      ensures DeliveryProtected(c, s', i)
    {
      assert DeliveryProtected(c, s, i);
    }
    forall v | 0 <= v < |s'.workers|
      ensures HolderInTime(c, s', v)
    {
      assert HolderInTime(c, s, v);
    }
  }

  /** The retry loop: each phase stays within the budget of its attempt. */
  lemma RetryKeepsInv(c: Config, s: State, a: Step)
    requires Inv(c, s) && Enabled(c, s, a) && (a.SendFail? || a.Wake? || a.Cancel?)
    ensures Inv(c, Apply(c, s, a))
  {
    var s' := Apply(c, s, a);
    assert HolderInTime(c, s, a.w);
    var p := s.workers[a.w];
    assert SendBudget(c, p.attempt + 1) == SendBudget(c, p.attempt) + MaxSleep(c.policy, p.attempt) + c.sendMax;
    if a.Cancel? {
      SendBudgetMonotone(c, p.attempt + 1, c.policy.maxAttempts);
    }
    MoveKeepsInv(c, s, s', a.w);
  }

  lemma QuietKeepsInv(c: Config, s: State, a: Step)
    requires Inv(c, s) && Enabled(c, s, a)
    requires a.Publish? || a.Dispatch? || a.Take? || a.Settle? || a.Crash?
    ensures Inv(c, Apply(c, s, a))
  {
    var s' := Apply(c, s, a);
    if a.Take? || a.Settle? || a.Crash? {
      MoveKeepsInv(c, s, s', a.w);
    } else {
      forall v | 0 <= v < |s'.workers|
        ensures HolderInTime(c, s', v)
      {
        assert HolderInTime(c, s, v);
      }
      forall i | 0 <= i < |s'.sent|
        ensures DeliveryProtected(c, s', i)
      {
        assert DeliveryProtected(c, s, i);
      }
    }
  }

  lemma InvStep(c: Config, s: State, a: Step)
    requires FitsTTL(c) && Inv(c, s) && Enabled(c, s, a) && Timely(c, s, a)
    ensures Inv(c, Apply(c, s, a))
  {
    match a
    case Tick(to) => TickKeepsInv(c, s, to);
    case Expire(id) => ExpireKeepsInv(c, s, id);
    case SetNX(w, fault) => SetNXKeepsInv(c, s, w, fault);
    case SendOk(w) => SendOkKeepsInv(c, s, w);
    case Del(w, applied) => DelKeepsInv(c, s, w, applied);
    case SendFail(_, _) => RetryKeepsInv(c, s, a);
    case Wake(_) => RetryKeepsInv(c, s, a);
    case Cancel(_) => RetryKeepsInv(c, s, a);
    case _ => QuietKeepsInv(c, s, a);
  }

  ghost predicate TimelyBehavior(c: Config, states: seq<State>, steps: seq<Step>) {
    && Behavior(c, states, steps)
    && forall i :: 0 <= i < |steps| ==> Timely(c, states[i], steps[i])
  }

  lemma {:induction false} InvHolds(c: Config, states: seq<State>, steps: seq<Step>, n: nat)
    requires FitsTTL(c) && TimelyBehavior(c, states, steps) && n < |states|
    ensures Inv(c, states[n])
  {
    if n == 0 {
    } else {
      InvHolds(c, states, steps, n - 1);
      assert StepAt(c, states, steps, n - 1);
      InvStep(c, states[n - 1], steps[n - 1]);
    }
  }

  /** Deliveries of one payment id acquired its key at least one TTL apart, and every
      DEL deletes the key its own worker had set. */
  lemma DeliveriesOneTTLApart(c: Config, states: seq<State>, steps: seq<Step>, n: nat)
    requires FitsTTL(c) && TimelyBehavior(c, states, steps) && n < |states|
    ensures SpacedByTTL(c, states[n])
    ensures n < |steps| && steps[n].Del? ==>
              var w := steps[n].w; w < |states[n].workers| && Holding(states[n].workers[w]) && OwnsKey(states[n], w)
  {
    InvHolds(c, states, steps, n);
    if n < |steps| && steps[n].Del? {
      assert StepAt(c, states, steps, n);
      assert HolderInTime(c, states[n], steps[n].w);
    }
  }

  /** Where the backoff is in range, six fifths of its geometric sum is enough of a margin. */
  lemma GeometricMarginFits(c: Config)
    requires InRange(c.policy) && c.policy.maxAttempts >= 1
    requires 6 * (Doubled(c.policy.baseDelay, c.policy.maxAttempts - 1) - c.policy.baseDelay)
             + 5 * (c.policy.maxAttempts * c.sendMax + c.delMax) < 5 * c.ttl
    ensures FitsTTL(c)
  {
    MaxBackoffGeometric(c.policy, c.policy.maxAttempts - 1);
  }

  const SECOND: nat := 1_000_000_000

  /** The deployed settings, five attempts from 2000 ms against a key of 24 hours: at most 36 s
      are spent sleeping, so sends may together take all but 36 s of the day. */
  lemma DeployedSettingsFit(sendMax: nat, delMax: nat)
    requires 5 * sendMax + delMax < (24 * 3600 - 36) * SECOND
    ensures SleepsFit(New(5, 2000))
    ensures FitsTTL(Config(New(5, 2000), 24 * 3600 * SECOND, sendMax, delMax))
  {
    var p := New(5, 2000);
    assert p.baseDelay == 2 * SECOND;
    assert Doubled(p.baseDelay, 1) == 4 * SECOND && Doubled(p.baseDelay, 2) == 8 * SECOND;
    assert Doubled(p.baseDelay, 3) == 16 * SECOND && Doubled(p.baseDelay, 4) == 32 * SECOND;
    GeometricMarginFits(Config(p, 24 * 3600 * SECOND, sendMax, delMax));
  }
}
