/**
 The delivery theorems hold under conditions on the configuration and on the keys left from before;
 here each condition is shown to be exact, by runs that break the conclusion without it.
 */
module HypothesesNeeded {
  import opened Options
  import opened Faults
  import opened Backoff
  import opened Notification
  import opened NoLoss
  import TimedDelivery

  // ---------- building runs ----------

  /** Nothing crashes, every settlement arrives, and no phase is overdue. */
  ghost predicate PeacefulRun(c: Config, states: seq<State>, steps: seq<Step>) {
    TimedDelivery.TimelyBehavior(c, states, steps) && Peaceful(steps)
  }

  /** One more enabled step makes a longer run. */
  lemma Then(c: Config, states: seq<State>, steps: seq<Step>, a: Step) returns (states': seq<State>, steps': seq<Step>)
    requires PeacefulRun(c, states, steps) && Enabled(c, states[|steps|], a)
    requires !Drops(a) && TimedDelivery.Timely(c, states[|steps|], a)
    ensures PeacefulRun(c, states', steps') && states'[0] == states[0]
    ensures steps' == steps + [a] && states' == states + [Apply(c, states[|steps|], a)]
  {
    states', steps' := states + [Apply(c, states[|steps|], a)], steps + [a];
    forall i: nat | i < |steps'|
      ensures StepAt(c, states', steps', i) && TimedDelivery.Timely(c, states'[i], steps'[i])
    {
      if i < |steps| {
        assert StepAt(c, states, steps, i) && TimedDelivery.Timely(c, states[i], steps[i]);
      }
    }
  }

  function Fresh(keys: Keys, workers: nat): State {
    State(0, multiset{}, multiset{}, seq(workers, _ => Idle), keys, [], multiset{}, multiset{}, multiset{})
  }

  function Copy(id: string): Delivery {
    Delivery(0, Event(id))
  }

  /** The first steps of every run below: a delivery is published and taken by worker 0. */
  lemma Taken(c: Config, keys: Keys, workers: nat, id: string) returns (states: seq<State>, steps: seq<Step>)
    requires workers >= 1 && id != "" && forall k :: k in keys ==> keys[k].holder.None?
    ensures PeacefulRun(c, states, steps) && states[0] == Fresh(keys, workers)
    ensures var d := Copy(id);
            states[|steps|] ==
            State(0, multiset{}, multiset{}, Fresh(keys, workers).workers[0 := Acquiring(d)], keys, [], multiset{d}, multiset{}, multiset{})
  {
    var s0, d := Fresh(keys, workers), Copy(id);
    states, steps := [s0], [];
    states, steps := Then(c, states, steps, Publish(d));
    states, steps := Then(c, states, steps, Dispatch(d));
    assert states[|steps|] == s0.(jobs := multiset{d}, published := multiset{d});
    assert states[|steps|].workers[0] == Idle;
    states, steps := Then(c, states, steps, Take(0, d));
    assert states[|steps|].workers == s0.workers[0 := Acquiring(d)] && states[|steps|].jobs == multiset{};
  }

  // ---------- attempts, and keys left from before ----------

  /** Starting with these keys, no run without crashes and lost settlements loses a payment. */
  ghost predicate SafeStart(c: Config, keys: Keys) {
    forall states: seq<State>, steps: seq<Step> ::
      Behavior(c, states, steps) && Peaceful(steps) && states[0].keys == keys ==> !Loses(states[|steps|])
  }

  lemma AckedAndDry(s: State, d: Delivery)
    requires d in s.acked && s.queue == s.jobs == s.dlq == multiset{} && s.sent == [] && s.workers == [Idle]
    ensures Loses(s)
  {
    assert !WaitsOutside(s, ID(d)) && !WasSent(s, ID(d)) && !Parked(s, ID(d));
    assert !Covered(s, ID(d));
  }

  /** A policy without attempts acks without sending, and a leftover key makes the very first
      delivery a duplicate. */
  lemma FirstDeliveryLost(c: Config, keys: Keys, id: string) returns (states: seq<State>, steps: seq<Step>)
    requires (c.policy.maxAttempts < 1 || id in keys) && id != "" && forall k :: k in keys ==> keys[k].holder.None?
    ensures Behavior(c, states, steps) && Peaceful(steps) && states[0].keys == keys && Loses(states[|steps|])
  {
    states, steps := Taken(c, keys, 1, id);
    assert states[|steps|].workers == [Acquiring(Copy(id))];
    states, steps := Then(c, states, steps, SetNX(0, NoFault));
    assert states[|steps|].workers == [Settling(Copy(id), Ack)];
    states, steps := Then(c, states, steps, Settle(0, true));
    AckedAndDry(states[|steps|], Copy(id));
  }

  /** For every configuration and every store: nothing is lost without crashes and lost settlements if
      and only if the policy has an attempt and no key of a payment is left from before. */
  lemma SafeStartIff(c: Config, keys: Keys)
    requires forall k :: k in keys ==> keys[k].holder.None?
    ensures SafeStart(c, keys) <==> c.policy.maxAttempts >= 1 && NoKeys(keys)
  {
    if c.policy.maxAttempts >= 1 && NoKeys(keys) {
      forall states: seq<State>, steps: seq<Step> |
        Behavior(c, states, steps) && Peaceful(steps) && states[0].keys == keys
        ensures !Loses(states[|steps|])
      {
        InvHolds(c, states, steps, |steps|);
      }
    } else {
      var id := if k :| k in keys && k != "" then k else "p";
      var states, steps := FirstDeliveryLost(c, keys, id);
    }
  }

  // ---------- lossy steps happen ----------

  /** Under every policy with attempts, a worker that crashes right after SETNX loses its payment. */
  lemma CrashLosesNotification(c: Config) returns (states: seq<State>, steps: seq<Step>)
    requires c.policy.maxAttempts >= 1
    ensures PeacefulRun(c, states, steps) && states[0].keys == map[]
    ensures var s := states[|steps|];
            Enabled(c, s, Crash(0)) && Lossy(s, Crash(0)) && CanLose(c, Apply(c, s, Crash(0)))
  {
    states, steps := Taken(c, map[], 1, "p");
    states, steps := Then(c, states, steps, SetNX(0, NoFault));
    LossyLoses(c, states[|steps|], Crash(0));
  }

  /** And so does a lost nack after a SETNX that was applied behind an error. */
  lemma LostNackLosesNotification(c: Config) returns (states: seq<State>, steps: seq<Step>)
    ensures PeacefulRun(c, states, steps) && states[0].keys == map[]
    ensures var s := states[|steps|];
            Enabled(c, s, Settle(0, false)) && Lossy(s, Settle(0, false)) && CanLose(c, Apply(c, s, Settle(0, false)))
  {
    states, steps := Taken(c, map[], 1, "p");
    states, steps := Then(c, states, steps, SetNX(0, AppliedWithError));
    LossyLoses(c, states[|steps|], Settle(0, false));
  }

  // ---------- the margin of the timed theorem ----------

  /** Worker 0 is at `p0` with the key it set at time 0, and worker 1 is about to try for the same key. */
  ghost predicate Racing(s: State, workers: nat, p0: Worker) {
    && workers >= 2 && |s.workers| == workers && s.workers[0] == p0 && s.workers[1] == Acquiring(Copy("p"))
    && (forall w :: 2 <= w < workers ==> s.workers[w].Idle?)
    && s.keys == map["p" := Key(Some(0), 0)] && s.sent == []
  }

  /** Two workers have taken copies of one payment, and worker 0 has just acquired its key. */
  lemma RaceBegins(c: Config, workers: nat) returns (states: seq<State>, steps: seq<Step>)
    requires workers >= 2 && c.policy.maxAttempts >= 1
    ensures PeacefulRun(c, states, steps) && states[0] == Fresh(map[], workers)
    ensures states[|steps|].now == 0 && Racing(states[|steps|], workers, Sending(Copy("p"), 1, 0, c.sendMax))
  {
    var d := Copy("p");
    states, steps := Taken(c, map[], workers, "p");
    states, steps := Then(c, states, steps, Publish(d));
    states, steps := Then(c, states, steps, Dispatch(d));
    states, steps := Then(c, states, steps, Take(1, d));
    states, steps := Then(c, states, steps, SetNX(0, NoFault));
  }

  /** A send takes its longest. */
  lemma SendsLate(c: Config, workers: nat, states: seq<State>, steps: seq<Step>, k: int, due: nat)
      returns (states': seq<State>, steps': seq<Step>)
    requires PeacefulRun(c, states, steps) && states[|steps|].now <= due
    requires Racing(states[|steps|], workers, Sending(Copy("p"), k, 0, due))
    ensures PeacefulRun(c, states', steps') && states'[0] == states[0]
    ensures states'[|steps'|].now == due && Racing(states'[|steps'|], workers, Sending(Copy("p"), k, 0, due))
  {
    states', steps' := Then(c, states, steps, Tick(due));
  }

  /** The send has failed, and the backoff draws its longest sleep. */
  lemma BacksOff(c: Config, workers: nat, states: seq<State>, steps: seq<Step>, k: int)
      returns (states': seq<State>, steps': seq<Step>)
    requires InRange(c.policy) && PeacefulRun(c, states, steps) && 1 <= k < c.policy.maxAttempts
    requires var s := states[|steps|]; Racing(s, workers, Sending(Copy("p"), k, 0, s.now))
    ensures PeacefulRun(c, states', steps') && states'[0] == states[0]
    ensures var now := states[|steps|].now;
            && states'[|steps'|].now == now
            && Racing(states'[|steps'|], workers, Sleeping(Copy("p"), k, 0, now + MaxSleep(c.policy, k)))
  {
    InRangeAttempt(c.policy, k);
    var draw := MaxSleepIsDrawn(c.policy, k);
    states', steps' := Then(c, states, steps, SendFail(0, Sleep(c.policy, k, draw)));
  }

  /** The timer of the backoff fires, and the next send begins. */
  lemma WakesInTime(c: Config, workers: nat, states: seq<State>, steps: seq<Step>, k: int, due: nat)
      returns (states': seq<State>, steps': seq<Step>)
    requires PeacefulRun(c, states, steps) && states[|steps|].now <= due
    requires Racing(states[|steps|], workers, Sleeping(Copy("p"), k, 0, due))
    ensures PeacefulRun(c, states', steps') && states'[0] == states[0]
    ensures states'[|steps'|].now == due && Racing(states'[|steps'|], workers, Sending(Copy("p"), k + 1, 0, due + c.sendMax))
  {
    states', steps' := Then(c, states, steps, Tick(due));
    assert Racing(states'[|steps'|], workers, Sleeping(Copy("p"), k, 0, due));
    states', steps' := Then(c, states', steps', Wake(0));
  }

  /** The last send has failed, and the DEL takes its longest. */
  lemma ReleasesLate(c: Config, workers: nat, states: seq<State>, steps: seq<Step>)
      returns (states': seq<State>, steps': seq<Step>)
    requires PeacefulRun(c, states, steps) && c.policy.maxAttempts >= 1
    requires var s := states[|steps|]; Racing(s, workers, Sending(Copy("p"), c.policy.maxAttempts, 0, s.now))
    ensures PeacefulRun(c, states', steps') && states'[0] == states[0]
    ensures var due := states[|steps|].now + c.delMax;
            states'[|steps'|].now == due && Racing(states'[|steps'|], workers, Releasing(Copy("p"), 0, due, false))
  {
    var due := states[|steps|].now + c.delMax;
    states', steps' := Then(c, states, steps, SendFail(0, 0));
    assert Racing(states'[|steps'|], workers, Releasing(Copy("p"), 0, due, false));
    states', steps' := Then(c, states', steps', Tick(due));
  }

  /** Every send fails at its latest, every sleep is the longest and is slept to its end. */
  lemma {:induction false} TakesLongest(c: Config, workers: nat, states: seq<State>, steps: seq<Step>, k: int)
      returns (states': seq<State>, steps': seq<Step>)
    requires InRange(c.policy) && PeacefulRun(c, states, steps) && 1 <= k <= c.policy.maxAttempts
    requires var s := states[|steps|];
             && s.now + c.sendMax == TimedDelivery.SendBudget(c, k)
             && Racing(s, workers, Sending(Copy("p"), k, 0, s.now + c.sendMax))
    ensures PeacefulRun(c, states', steps') && states'[0] == states[0]
    ensures var end := TimedDelivery.SendBudget(c, c.policy.maxAttempts) + c.delMax;
            states'[|steps'|].now == end && Racing(states'[|steps'|], workers, Releasing(Copy("p"), 0, end, false))
    decreases c.policy.maxAttempts - k
  {
    states', steps' := SendsLate(c, workers, states, steps, k, states[|steps|].now + c.sendMax);
    if k == c.policy.maxAttempts {
      states', steps' := ReleasesLate(c, workers, states', steps');
    } else {
      var due := states'[|steps'|].now + MaxSleep(c.policy, k);
      states', steps' := BacksOff(c, workers, states', steps', k);
      states', steps' := WakesInTime(c, workers, states', steps', k, due);
      states', steps' := TakesLongest(c, workers, states', steps', k + 1);
    }
  }

  /** Worker 1 holds the key that worker 0, about to delete it, had set. */
  ghost predicate Overtaken(s: State) {
    && |s.workers| >= 2 && Holds(s.workers[0], "p") && s.workers[0].Releasing? && !s.workers[0].cancelled
    && Holds(s.workers[1], "p") && "p" in s.keys && s.keys["p"].holder == Some(1)
  }

  /** The key has expired and worker 1 acquires it. */
  lemma KeyChangesHands(c: Config, workers: nat, states: seq<State>, steps: seq<Step>, due: nat)
      returns (states': seq<State>, steps': seq<Step>)
    requires PeacefulRun(c, states, steps) && c.policy.maxAttempts >= 1 && states[|steps|].now >= c.ttl
    requires Racing(states[|steps|], workers, Releasing(Copy("p"), 0, due, false))
    ensures PeacefulRun(c, states', steps') && states'[0] == states[0] && Overtaken(states'[|steps'|])
  {
    states', steps' := Then(c, states, steps, Expire("p"));
    assert states'[|steps'|].keys == map[];
    states', steps' := Then(c, states', steps', SetNX(1, NoFault));
  }

  /** A DEL is about to remove a key that another worker has set. */
  ghost predicate DeletesForeignKey(s: State, a: Step) {
    a.Del? && a.applied && a.w < |s.workers| && Holding(s.workers[a.w]) &&
    var id := ID(s.workers[a.w].d);
    id in s.keys && s.keys[id].holder.Some? && s.keys[id].holder != Some(a.w)
  }

  /** Deliveries of one payment are a TTL apart, and no worker deletes another's key. */
  ghost predicate Sound(c: Config, states: seq<State>, steps: seq<Step>)
    requires |states| == |steps| + 1
  {
    forall n :: 0 <= n < |states| ==>
      TimedDelivery.SpacedByTTL(c, states[n]) && (n < |steps| ==> !DeletesForeignKey(states[n], steps[n]))
  }

  /** Where the margin is missed, a run in which every phase takes its longest and nothing is cancelled
      ends with a worker deleting the key of its successor. */
  lemma TooSlowDeletesForeignKey(c: Config, workers: nat) returns (states: seq<State>, steps: seq<Step>)
    requires InRange(c.policy) && !TimedDelivery.FitsTTL(c) && workers >= 2
    ensures PeacefulRun(c, states, steps) && |states[0].workers| == workers && !Sound(c, states, steps)
    ensures steps != [] && DeletesForeignKey(states[|steps| - 1], steps[|steps| - 1])
  {
    states, steps := RaceBegins(c, workers);
    assert TimedDelivery.SendBudget(c, 1) == c.sendMax by {
      assert TimedDelivery.SendBudget(c, 0) == 0;
    }
    states, steps := TakesLongest(c, workers, states, steps, 1);
    TimedDelivery.SendBudgetIs(c, c.policy.maxAttempts);
    states, steps := KeyChangesHands(c, workers, states, steps, states[|steps|].now);
    var n := |steps|;
    states, steps := Then(c, states, steps, Del(0, true));
    assert DeletesForeignKey(states[n], steps[n]);
  }

  /** For every policy that never panics and any number of workers from two on: all timely runs space the
      deliveries of a payment by a TTL and delete no foreign key if and only if the whole of `Process` fits
      the TTL. The runs that break it need neither a crash nor a lost settlement. */
  lemma FitsTTLIff(c: Config, workers: nat)
    requires InRange(c.policy) && workers >= 2
    ensures TimedDelivery.FitsTTL(c) <==>
            forall states: seq<State>, steps: seq<Step> ::
              TimedDelivery.TimelyBehavior(c, states, steps) && |states[0].workers| == workers ==> Sound(c, states, steps)
  {
    if TimedDelivery.FitsTTL(c) {
      forall states: seq<State>, steps: seq<Step> |
        TimedDelivery.TimelyBehavior(c, states, steps) && |states[0].workers| == workers
        ensures Sound(c, states, steps)
      {
        forall n | 0 <= n < |states|
          ensures TimedDelivery.SpacedByTTL(c, states[n]) && (n < |steps| ==> !DeletesForeignKey(states[n], steps[n]))
        {
          TimedDelivery.DeliveriesOneTTLApart(c, states, steps, n);
        }
      }
    } else {
      var states, steps := TooSlowDeletesForeignKey(c, workers);
    }
  }
}
