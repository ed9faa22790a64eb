/**
 The consumer's worker pool: a dispatcher moves messages from the broker's channel into a
 bounded jobs channel read by `pool` workers; on shutdown it closes the channel and waits.
 */
module WorkerPool {

  datatype Dispatcher = Selecting | Pushing(m: nat) | Draining | Returned

  datatype Worker = Waiting | Handling(m: nat) | Exited

  /** `msgs` is the client's delivery channel, `unsettled` the broker's count of deliveries
      without an ack or nack, `taken` and `handled` count what the dispatcher received and
      what the workers finished. */
  datatype State = State(
    pool: nat,
    msgs: seq<nat>,
    unsettled: nat,
    dispatcher: Dispatcher,
    jobs: seq<nat>,
    workers: seq<Worker>,
    taken: multiset<nat>,
    handled: multiset<nat>)

  datatype Step =
    | Deliver(m: nat)
    | TakeMsg
    | Push
    | Stop
    | Recv(w: nat)
    | Finish(w: nat, settled: bool)
    | Exit(w: nat)
    | Return

  /** `make(chan amqp.Delivery, c.poolSize*2)`. */
  function JobsCapacity(s: State): nat {
    2 * s.pool
  }

  /** Qos(poolSize): the broker stops delivering at `pool` unsettled messages; 0 means no limit. */
  predicate WithinPrefetch(s: State) {
    s.pool == 0 || s.unsettled < s.pool
  }

  predicate Closed(s: State) {
    s.dispatcher.Draining? || s.dispatcher.Returned?
  }

  predicate Enabled(s: State, a: Step) {
    match a
    case Deliver(_) => WithinPrefetch(s)
    case TakeMsg => s.dispatcher.Selecting? && s.msgs != []
    case Push => s.dispatcher.Pushing? && |s.jobs| < JobsCapacity(s)
    case Stop => s.dispatcher.Selecting?
    case Recv(w) => w < |s.workers| && s.workers[w].Waiting? && s.jobs != []
    case Finish(w, settled) => w < |s.workers| && s.workers[w].Handling? && (settled ==> s.unsettled > 0)
    case Exit(w) => w < |s.workers| && s.workers[w].Waiting? && Closed(s) && s.jobs == []
    case Return => s.dispatcher.Draining? && forall w :: 0 <= w < |s.workers| ==> s.workers[w].Exited?
  }

  function Apply(s: State, a: Step): State
    requires Enabled(s, a)
  {
    match a
    case Deliver(m) => s.(msgs := s.msgs + [m], unsettled := s.unsettled + 1)
    case TakeMsg =>
      s.(msgs := s.msgs[1..], dispatcher := Pushing(s.msgs[0]), taken := s.taken + multiset{s.msgs[0]})
    case Push => s.(jobs := s.jobs + [s.dispatcher.m], dispatcher := Selecting)
    case Stop => s.(dispatcher := Draining)
    case Recv(w) => s.(jobs := s.jobs[1..], workers := s.workers[w := Handling(s.jobs[0])])
    case Finish(w, settled) =>
      s.(workers := s.workers[w := Waiting],
         handled := s.handled + multiset{s.workers[w].m},
         unsettled := if settled then s.unsettled - 1 else s.unsettled)
    case Exit(w) => s.(workers := s.workers[w := Exited])
    case Return => s.(dispatcher := Returned)
  }

  predicate Init(s: State) {
    && s.msgs == [] && s.unsettled == 0 && s.dispatcher.Selecting? && s.jobs == []
    && |s.workers| == s.pool && (forall w :: 0 <= w < |s.workers| ==> s.workers[w].Waiting?)
    && s.taken == s.handled == multiset{}
  }

  ghost predicate Follows(s: State, a: Step, s': State) {
    Enabled(s, a) && s' == Apply(s, a)
  }

  ghost predicate StepAt(states: seq<State>, steps: seq<Step>, i: nat)
    requires |states| == |steps| + 1 && i < |steps|
  {
    Follows(states[i], steps[i], states[i + 1])
  }

  ghost predicate Behavior(states: seq<State>, steps: seq<Step>) {
    && |states| == |steps| + 1
    && Init(states[0])
    && forall i: nat :: i < |steps| ==> StepAt(states, steps, i)
  }

  // ---------- where a message is ----------

  function HandCopies(p: Worker, m: nat): nat {
    if p == Handling(m) then 1 else 0
  }

  function InHand(workers: seq<Worker>, m: nat): nat {
    if workers == [] then 0
    else InHand(workers[..|workers| - 1], m) + HandCopies(workers[|workers| - 1], m)
  }

  function BusyOne(p: Worker): nat {
    if p.Handling? then 1 else 0
  }

  /** How many workers are handling something. */
  function Busy(workers: seq<Worker>): nat {
    if workers == [] then 0 else Busy(workers[..|workers| - 1]) + BusyOne(workers[|workers| - 1])
  }

  function PendingCopies(d: Dispatcher, m: nat): nat {
    if d == Pushing(m) then 1 else 0
  }

  function Pending(d: Dispatcher): nat {
    if d.Pushing? then 1 else 0
  }

  /** Each copy of a taken message is pending dispatch, in the jobs channel, being handled, or handled. */
  ghost predicate Conserved(s: State, m: nat) {
    s.taken[m] == PendingCopies(s.dispatcher, m) + multiset(s.jobs)[m] + InHand(s.workers, m) + s.handled[m]
  }

  /** What is between the broker and a settlement never exceeds the broker's own count. */
  ghost predicate Bounded(s: State) {
    && |s.workers| == s.pool && |s.jobs| <= JobsCapacity(s)
    && |s.msgs| + Pending(s.dispatcher) + |s.jobs| + Busy(s.workers) <= s.unsettled
    && (s.pool >= 1 ==> s.unsettled <= s.pool)
  }

  ghost predicate Inv(s: State) {
    && Bounded(s)
    && (s.dispatcher.Returned? ==> s.jobs == [] && forall w :: 0 <= w < |s.workers| ==> s.workers[w].Exited?)
    && ((exists w :: 0 <= w < |s.workers| && s.workers[w].Exited?) ==> Closed(s) && s.jobs == [])
  }

  lemma {:induction false} InHandUpdate(workers: seq<Worker>, w: nat, p: Worker, m: nat)
    requires w < |workers|
    ensures InHand(workers[w := p], m) + HandCopies(workers[w], m) == InHand(workers, m) + HandCopies(p, m)
  {
    var n := |workers| - 1;
    if w < n {
      InHandUpdate(workers[..n], w, p, m);
      assert workers[w := p][..n] == workers[..n][w := p];
    } else {
      assert workers[w := p][..n] == workers[..n];
    }
  }

  lemma {:induction false} BusyUpdate(workers: seq<Worker>, w: nat, p: Worker)
    requires w < |workers|
    ensures Busy(workers[w := p]) + BusyOne(workers[w]) == Busy(workers) + BusyOne(p)
  {
    var n := |workers| - 1;
    if w < n {
      BusyUpdate(workers[..n], w, p);
      assert workers[w := p][..n] == workers[..n][w := p];
    } else {
      assert workers[w := p][..n] == workers[..n];
    }
  }

  lemma {:induction false} NothingInHand(workers: seq<Worker>, m: nat)
    requires forall w :: 0 <= w < |workers| ==> !workers[w].Handling?
    ensures InHand(workers, m) == 0 && Busy(workers) == 0
  {
    if workers == [] {
    } else {
      NothingInHand(workers[..|workers| - 1], m);
    }
  }

  lemma ConservedStep(s: State, a: Step, m: nat)
    requires Conserved(s, m) && Enabled(s, a)
    ensures Conserved(Apply(s, a), m)
  {
    var s' := Apply(s, a);
    match a
    case Recv(w) =>
      InHandUpdate(s.workers, w, Handling(s.jobs[0]), m);
      assert s.jobs == [s.jobs[0]] + s.jobs[1..];
    case Finish(w, _) => InHandUpdate(s.workers, w, Waiting, m);
    case Exit(w) => InHandUpdate(s.workers, w, Exited, m);
    case _ =>
  }

  lemma InvStep(s: State, a: Step)
    requires Inv(s) && Enabled(s, a)
    ensures Inv(Apply(s, a))
  {
    match a
    case Recv(w) => BusyUpdate(s.workers, w, Handling(s.jobs[0]));
    case Finish(w, _) => BusyUpdate(s.workers, w, Waiting);
    case Exit(w) => BusyUpdate(s.workers, w, Exited);
    case Return => assert s.pool > 0 ==> s.workers[0].Exited?;
    case _ =>
  }

  lemma {:induction false} InvHolds(states: seq<State>, steps: seq<Step>, n: nat)
    requires Behavior(states, steps) && n < |states|
    ensures Inv(states[n]) && states[n].pool == states[0].pool
  {
    if n == 0 {
      NothingInHand(states[0].workers, 0);
    } else {
      InvHolds(states, steps, n - 1);
      assert StepAt(states, steps, n - 1);
      InvStep(states[n - 1], steps[n - 1]);
    }
  }

  /** In every run no message taken from the broker is lost or duplicated inside the pool. */
  lemma {:induction false} MessagesConserved(states: seq<State>, steps: seq<Step>, n: nat, m: nat)
    requires Behavior(states, steps) && n < |states|
    ensures Conserved(states[n], m)
  {
    if n == 0 {
      NothingInHand(states[0].workers, m);
    } else {
      MessagesConserved(states, steps, n - 1, m);
      assert StepAt(states, steps, n - 1);
      ConservedStep(states[n - 1], steps[n - 1], m);
    }
  }

  /** With at least one worker the send into the jobs channel never blocks. */
  lemma PushNeverBlocks(states: seq<State>, steps: seq<Step>, n: nat)
    requires Behavior(states, steps) && n < |states| && states[0].pool >= 1
    requires states[n].dispatcher.Pushing?
    ensures Enabled(states[n], Push)
  {
    InvHolds(states, steps, n);
  }

  /** Without workers the channel is unbuffered and unread: the first message blocks the
      dispatcher for ever, so `Run` never returns and nothing is ever handled. */
  lemma {:induction false} ZeroPoolBlocks(states: seq<State>, steps: seq<Step>, i: nat, n: nat)
    requires Behavior(states, steps) && i <= n < |states| && states[0].pool == 0
    requires states[i].dispatcher.Pushing?
    ensures states[n].dispatcher == states[i].dispatcher && states[n].handled == states[i].handled
    ensures !Enabled(states[n], Push) && !Enabled(states[n], Stop)
  {
    InvHolds(states, steps, n);
    if i == n {
    } else {
      ZeroPoolBlocks(states, steps, i, n - 1);
      InvHolds(states, steps, n - 1);
      assert StepAt(states, steps, n - 1);
    }
  }

  /** `Run` returns only after every message it took has been handled. */
  lemma ReturnedMeansHandled(states: seq<State>, steps: seq<Step>, n: nat)
    requires Behavior(states, steps) && n < |states| && states[n].dispatcher.Returned?
    ensures states[n].handled == states[n].taken
  {
    InvHolds(states, steps, n);
    forall m: nat
      ensures states[n].handled[m] == states[n].taken[m]
    {
      MessagesConserved(states, steps, n, m);
      NothingInHand(states[n].workers, m);
    }
  }

  // ---------- the drain terminates ----------

  function UnfinishedOne(p: Worker): nat {
    match p case Exited => 0 case Waiting => 1 case Handling(_) => 2
  }

  function Unfinished(workers: seq<Worker>): nat {
    if workers == [] then 0 else Unfinished(workers[..|workers| - 1]) + UnfinishedOne(workers[|workers| - 1])
  }

  /** Work left after the jobs channel has been closed. */
  function DrainWork(s: State): nat {
    2 * |s.jobs| + Unfinished(s.workers) + if s.dispatcher.Returned? then 0 else 1
  }

  lemma {:induction false} UnfinishedUpdate(workers: seq<Worker>, w: nat, p: Worker)
    requires w < |workers|
    ensures Unfinished(workers[w := p]) + UnfinishedOne(workers[w]) == Unfinished(workers) + UnfinishedOne(p)
  {
    var n := |workers| - 1;
    if w < n {
      UnfinishedUpdate(workers[..n], w, p);
      assert workers[w := p][..n] == workers[..n][w := p];
    } else {
      assert workers[w := p][..n] == workers[..n];
    }
  }

  /** After the close every step but the broker's brings `Run` closer to returning. */
  lemma DrainProgresses(s: State, a: Step)
    requires Enabled(s, a) && Closed(s)
    ensures Closed(Apply(s, a))
    ensures if a.Deliver? then DrainWork(Apply(s, a)) == DrainWork(s) else DrainWork(Apply(s, a)) < DrainWork(s)
  {
    match a
    case Recv(w) => UnfinishedUpdate(s.workers, w, Handling(s.jobs[0]));
    case Finish(w, _) => UnfinishedUpdate(s.workers, w, Waiting);
    case Exit(w) => UnfinishedUpdate(s.workers, w, Exited);
    case _ =>
  }

  /** And as long as it has not returned, such a step is enabled. */
  lemma DrainNeverStuck(s: State) returns (a: Step)
    requires Inv(s) && s.dispatcher.Draining?
    ensures Enabled(s, a) && !a.Deliver?
  {
    if w: nat :| w < |s.workers| && s.workers[w].Handling? {
      a := Finish(w, false);
    } else if w: nat :| w < |s.workers| && s.workers[w].Waiting? {
      a := if s.jobs != [] then Recv(w) else Exit(w);
    } else {
      a := Return;
    }
  }

  function Work(steps: seq<Step>): nat {
    if steps == [] then 0
    else Work(steps[..|steps| - 1]) + if steps[|steps| - 1].Deliver? then 0 else 1
  }

  /** So from the close on, at most `DrainWork` steps are left in any run, whatever the order. */
  lemma {:induction false} DrainTerminates(states: seq<State>, steps: seq<Step>, i: nat, n: nat)
    requires Behavior(states, steps) && i <= n < |states| && Closed(states[i])
    ensures Closed(states[n])
    ensures Work(steps[i..n]) + DrainWork(states[n]) <= DrainWork(states[i])
  {
    if i == n {
    } else {
      DrainTerminates(states, steps, i, n - 1);
      assert StepAt(states, steps, n - 1);
      DrainProgresses(states[n - 1], steps[n - 1]);
      assert steps[i..n][..n - 1 - i] == steps[i..n - 1];
    }
  }
}
