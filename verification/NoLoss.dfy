/**
 No notification is silently lost, and when one is: with at least one attempt and keys that start
 empty, a payment can be lost if and only if the last worker that answers for it drops it (crashes,
 or sends a nack that does not reach the broker) while its idempotency key is in place. Acks may
 be lost, Redis may fail ambiguously, keys may expire, and all other crashes do no harm.
 */
module NoLoss {
  import opened Faults
  import opened Notification

  // ---------- conservation of deliveries ----------

  function Copies(p: Worker, d: Delivery): nat {
    if !p.Idle? && p.d == d then 1 else 0
  }

  /** How many workers hold a copy of `d`. */
  function InHand(workers: seq<Worker>, d: Delivery): nat {
    if workers == [] then 0
    else InHand(workers[..|workers| - 1], d) + Copies(workers[|workers| - 1], d)
  }

  /** Replacing one worker replaces what it holds. */
  lemma {:induction false} InHandUpdate(workers: seq<Worker>, w: nat, p: Worker, d: Delivery)
    requires w < |workers|
    ensures InHand(workers[w := p], d) + Copies(workers[w], d) == InHand(workers, d) + Copies(p, d)
  {
    var n := |workers| - 1;
    if w < n {
      InHandUpdate(workers[..n], w, p, d);
      assert workers[w := p][..n] == workers[..n][w := p];
    } else {
      assert workers[w := p][..n] == workers[..n];
    }
  }

  lemma {:induction false} InHandOfIdle(workers: seq<Worker>, d: Delivery)
    requires forall w :: 0 <= w < |workers| ==> workers[w].Idle?
    ensures InHand(workers, d) == 0
  {
    if workers == [] {
    } else {
      InHandOfIdle(workers[..|workers| - 1], d);
    }
  }

  /** Every published copy is in exactly one place. */
  ghost predicate Conserved(s: State, d: Delivery) {
    s.published[d] == s.queue[d] + s.jobs[d] + InHand(s.workers, d) + s.acked[d] + s.dlq[d]
  }

  lemma SurroundingsConserve(c: Config, s: State, a: Step, d: Delivery)
    requires Conserved(s, d) && Enabled(c, s, a) && !ByWorker(a)
    ensures Conserved(Apply(c, s, a), d)
  {
  }

  /** Inside `Process` the worker keeps its delivery. */
  lemma ProcessConserves(c: Config, s: State, a: Step, d: Delivery)
    requires Conserved(s, d) && Enabled(c, s, a) && ByWorker(a) && !a.Take? && !a.Settle? && !a.Crash?
    ensures Conserved(Apply(c, s, a), d)
  {
    InHandUpdate(s.workers, a.w, Apply(c, s, a).workers[a.w], d);
  }

  lemma TakeConserves(c: Config, s: State, w: nat, e: Delivery, d: Delivery)
    requires Conserved(s, d) && Enabled(c, s, Take(w, e))
    ensures Conserved(Apply(c, s, Take(w, e)), d)
  {
    InHandUpdate(s.workers, w, Handle(e), d);
  }

  lemma SettleConserves(c: Config, s: State, w: nat, reaches: bool, d: Delivery)
    requires Conserved(s, d) && Enabled(c, s, Settle(w, reaches))
    ensures Conserved(Apply(c, s, Settle(w, reaches)), d)
  {
    InHandUpdate(s.workers, w, Idle, d);
  }

  lemma CrashConserves(c: Config, s: State, w: nat, d: Delivery)
    requires Conserved(s, d) && Enabled(c, s, Crash(w))
    ensures Conserved(Apply(c, s, Crash(w)), d)
  {
    InHandUpdate(s.workers, w, Idle, d);
  }

  lemma ConservedStep(c: Config, s: State, a: Step, d: Delivery)
    requires Conserved(s, d) && Enabled(c, s, a)
    ensures Conserved(Apply(c, s, a), d)
  {
    match a
    case Take(w, e) => TakeConserves(c, s, w, e, d);
    case Settle(w, reaches) => SettleConserves(c, s, w, reaches, d);
    case Crash(w) => CrashConserves(c, s, w, d);
    case _ =>
      if ByWorker(a) {
        ProcessConserves(c, s, a, d);
      } else {
        SurroundingsConserve(c, s, a, d);
      }
  }

  /** In every run, crashes and lost settlements included, no copy appears or disappears. */
  lemma {:induction false} DeliveriesConserved(c: Config, states: seq<State>, steps: seq<Step>, n: nat, d: Delivery)
    requires Behavior(c, states, steps) && n < |states|
    ensures Conserved(states[n], d)
  {
    if n == 0 {
      InHandOfIdle(states[0].workers, d);
    } else {
      DeliveriesConserved(c, states, steps, n - 1, d);
      assert StepAt(c, states, steps, n - 1);
      ConservedStep(c, states[n - 1], steps[n - 1], d);
    }
  }

  // ---------- who answers for a payment ----------

  /** A worker that is going to send, or to park its delivery in the DLQ. */
  predicate Answers(p: Worker, id: string) {
    Holds(p, id) || (p.Settling? && p.verdict == Nack && p.d.body == Event(id))
  }

  ghost predicate WasSent(s: State, id: string) {
    exists i :: 0 <= i < |s.sent| && s.sent[i].paymentID == id
  }

  ghost predicate Parked(s: State, id: string) {
    exists d :: d in s.dlq && d.body == Event(id)
  }

  /** The payment was sent, is held by an in-flight worker, or is in or on its way to the DLQ. */
  ghost predicate Answered(s: State, id: string) {
    WasSent(s, id) || Parked(s, id) || exists w :: 0 <= w < |s.workers| && Answers(s.workers[w], id)
  }

  /** The same, not counting worker `w`. */
  ghost predicate AnsweredBesides(s: State, w: nat, id: string) {
    WasSent(s, id) || Parked(s, id) || exists v :: 0 <= v < |s.workers| && v != w && Answers(s.workers[v], id)
  }

  ghost predicate WaitsOutside(s: State, id: string) {
    exists d :: (d in s.queue || d in s.jobs) && d.body == Event(id)
  }

  predicate WaitsForKey(p: Worker, id: string) {
    p.Acquiring? && p.d.body == Event(id)
  }

  /** A copy that has not been through SETNX is in the queue, in the jobs channel or with a worker. */
  ghost predicate Waiting(s: State, id: string) {
    WaitsOutside(s, id) || exists w :: 0 <= w < |s.workers| && WaitsForKey(s.workers[w], id)
  }

  ghost predicate Covered(s: State, id: string) {
    Answered(s, id) || Waiting(s, id)
  }

  /** A waiting copy is a help only while the key is free: it is acked as a duplicate otherwise. */
  ghost predicate Safe(s: State, id: string) {
    Answered(s, id) || (id !in s.keys && Waiting(s, id))
  }

  /** The worker loses its delivery without the broker's knowing what became of it. */
  predicate Drops(a: Step) {
    a.Crash? || (a.Settle? && !a.reaches)
  }

  /** The last worker that answers for a payment drops it. */
  ghost predicate Abandons(s: State, a: Step) {
    Drops(a) && a.w < |s.workers| && !s.workers[a.w].Idle? &&
    var d := s.workers[a.w].d;
    Processable(d) && Answers(s.workers[a.w], ID(d)) && !AnsweredBesides(s, a.w, ID(d))
  }

  /** And the payment's key, still in place, will make the requeued copy a duplicate. */
  ghost predicate Lossy(s: State, a: Step) {
    Abandons(s, a) && ID(s.workers[a.w].d) in s.keys
  }

  // ---------- what every step keeps ----------

  /** What was sent stays sent, and the DLQ is not emptied. */
  lemma RecordsGrow(c: Config, s: State, a: Step, id: string)
    requires Enabled(c, s, a)
    ensures WasSent(s, id) ==> WasSent(Apply(c, s, a), id)
    ensures Parked(s, id) ==> Parked(Apply(c, s, a), id)
  {
    var s' := Apply(c, s, a);
    if i :| 0 <= i < |s.sent| && s.sent[i].paymentID == id {
      assert s'.sent[i] == s.sent[i];
    }
    if d :| d in s.dlq && d.body == Event(id) {
      assert d in s'.dlq;
    }
  }

  lemma SameLength(c: Config, s: State, a: Step)
    requires Enabled(c, s, a)
    ensures |Apply(c, s, a).workers| == |s.workers|
  {
  }

  lemma OthersStay(c: Config, s: State, a: Step, w: nat)
    requires Enabled(c, s, a) && !(ByWorker(a) && w == a.w) && w < |s.workers|
    ensures w < |Apply(c, s, a).workers| && Apply(c, s, a).workers[w] == s.workers[w]
  {
  }

  /** Whoever answers for an id and does not drop it goes on doing so, sends it, or parks it. */
  lemma AnswerMoves(c: Config, s: State, a: Step, w: nat, id: string)
    requires Enabled(c, s, a) && w < |s.workers| && Answers(s.workers[w], id) && !(Drops(a) && a.w == w)
    ensures Answered(Apply(c, s, a), id)
  {
    var s' := Apply(c, s, a);
    SameLength(c, s, a);
    if !(ByWorker(a) && w == a.w) {
      OthersStay(c, s, a, w);
      assert Answers(s'.workers[w], id);
    } else if a.SendOk? {
      assert s'.sent[|s.sent|].paymentID == id;
    } else if a.Settle? {
      assert s.workers[w].d in s'.dlq;
    } else {
      assert Answers(s'.workers[w], id);
    }
  }

  /** A payment stays answered for unless the last one to answer drops it. */
  lemma AnsweredStays(c: Config, s: State, a: Step, id: string)
    requires Enabled(c, s, a) && Answered(s, id)
    requires Drops(a) && Answers(s.workers[a.w], id) ==> AnsweredBesides(s, a.w, id)
    ensures Answered(Apply(c, s, a), id)
  {
    RecordsGrow(c, s, a, id);
    if !WasSent(s, id) && !Parked(s, id) {
      var w: nat :| w < |s.workers| && Answers(s.workers[w], id) && !(Drops(a) && a.w == w);
      AnswerMoves(c, s, a, w, id);
    }
  }

  /** A dropped delivery waits again. */
  lemma DroppedWaits(c: Config, s: State, a: Step)
    requires Enabled(c, s, a) && Drops(a)
    ensures s.workers[a.w].d in Apply(c, s, a).queue
  {
  }

  ghost predicate WorkerInv(s: State, p: Worker) {
    && (p.Acquiring? || Holding(p) ==> Processable(p.d))
    && (p.Settling? && p.verdict == Ack ==> Processable(p.d) && Covered(s, ID(p.d)))
  }

  /** Keys belong to payments that are answered for, acked ones are covered, and so are those about
      to be acked. The empty id is never acquired. */
  ghost predicate Inv(s: State) {
    && (forall id :: id in s.keys && id != "" ==> Answered(s, id))
    && (forall d :: d in s.acked ==> Processable(d) && Covered(s, ID(d)))
    && (forall w :: 0 <= w < |s.workers| ==> WorkerInv(s, s.workers[w]))
  }

  /** Queue and jobs channel are left only for a worker. */
  lemma LeavesByTake(c: Config, s: State, a: Step, d: Delivery)
    requires Enabled(c, s, a) && (d in s.queue || d in s.jobs) && d !in Apply(c, s, a).queue && d !in Apply(c, s, a).jobs
    ensures a.Take? && a.d == d && a.w < |Apply(c, s, a).workers| && Apply(c, s, a).workers[a.w] == Handle(d)
  {
    match a
    case Tick(_) =>
    case Expire(_) =>
    case Publish(_) =>
    case Dispatch(_) =>
    case Take(_, _) =>
    case SetNX(_, _) =>
    case SendOk(_) =>
    case SendFail(_, _) =>
    case Wake(_) =>
    case Cancel(_) =>
    case Del(_, _) =>
    case Settle(_, _) =>
    case Crash(_) =>
  }

  /** A waiting copy outside the workers moves on towards one. */
  lemma OutsideMoves(c: Config, s: State, a: Step, id: string)
    requires Enabled(c, s, a) && WaitsOutside(s, id)
    ensures Covered(Apply(c, s, a), id)
  {
    var s' := Apply(c, s, a);
    var d :| (d in s.queue || d in s.jobs) && d.body == Event(id);
    if d in s'.queue || d in s'.jobs {
      assert WaitsOutside(s', id);
    } else {
      LeavesByTake(c, s, a, d);
      assert Answers(s'.workers[a.w], id) || WaitsForKey(s'.workers[a.w], id);
    }
  }

  /** SETNX by a worker that waits: it gets the key, or gives up, or somebody answers already. */
  lemma AcquirerIsCovered(c: Config, s: State, w: nat, fault: Fault)
    requires Inv(s) && c.policy.maxAttempts >= 1 && Enabled(c, s, SetNX(w, fault))
    ensures Answered(Apply(c, s, SetNX(w, fault)), ID(s.workers[w].d))
  {
    var s' := Apply(c, s, SetNX(w, fault));
    var id := ID(s.workers[w].d);
    assert WorkerInv(s, s.workers[w]);
    if fault == NoFault && id in s.keys {
      AnsweredStays(c, s, SetNX(w, fault), id);
    } else {
      assert Answers(s'.workers[w], id);
    }
  }

  lemma WaitingMoves(c: Config, s: State, a: Step, id: string)
    requires Inv(s) && c.policy.maxAttempts >= 1 && Enabled(c, s, a) && Waiting(s, id)
    ensures Covered(Apply(c, s, a), id)
  {
    if WaitsOutside(s, id) {
      OutsideMoves(c, s, a, id);
    } else {
      var w: nat :| w < |s.workers| && WaitsForKey(s.workers[w], id);
      if !(ByWorker(a) && w == a.w) {
        OthersStay(c, s, a, w);
        assert WaitsForKey(Apply(c, s, a).workers[w], id);
      } else if a.SetNX? {
        AcquirerIsCovered(c, s, w, a.fault);
      } else {
        DroppedWaits(c, s, a);
      }
    }
  }

  /** A payment stays covered unless it is lost. */
  lemma CoveredStays(c: Config, s: State, a: Step, id: string)
    requires Inv(s) && c.policy.maxAttempts >= 1 && Enabled(c, s, a) && Covered(s, id)
    ensures Covered(Apply(c, s, a), id)
  {
    if Answered(s, id) {
      if Drops(a) && Answers(s.workers[a.w], id) {
        DroppedWaits(c, s, a);
      } else {
        AnsweredStays(c, s, a, id);
      }
    } else {
      WaitingMoves(c, s, a, id);
    }
  }

  /** A key appears only together with a worker that answers for it, and stays answered for unless
      the step is lossy. */
  lemma KeysStayAnswered(c: Config, s: State, a: Step, id: string)
    requires Inv(s) && c.policy.maxAttempts >= 1 && Enabled(c, s, a) && !Lossy(s, a)
    requires id in Apply(c, s, a).keys && id != ""
    ensures Answered(Apply(c, s, a), id)
  {
    if id in s.keys {
      AnsweredStays(c, s, a, id);
    } else {
      AcquirerIsCovered(c, s, a.w, a.fault);
    }
  }

  /** A worker keeps its delivery from the Take to the settlement, and decides to ack in two places. */
  lemma ActorsDelivery(c: Config, s: State, a: Step)
    requires Enabled(c, s, a) && ByWorker(a)
    ensures a.w < |s.workers| == |Apply(c, s, a).workers|
    ensures var p, p' := s.workers[a.w], Apply(c, s, a).workers[a.w];
            && (p'.Acquiring? ==> Processable(p'.d))
            && (Holding(p') ==> (p.Acquiring? || Holding(p)) && p'.d == p.d)
            && (p'.Settling? && p'.verdict == Ack ==> (a.SendOk? || a.SetNX?) && (p.Acquiring? || Holding(p)) && p'.d == p.d)
  {
    match a
    case Take(_, _) =>
    case SetNX(_, _) =>
    case SendOk(_) =>
    case SendFail(_, _) =>
    case Wake(_) =>
    case Cancel(_) =>
    case Del(_, _) =>
    case Settle(_, _) =>
    case Crash(_) =>
  }

  /** A worker acquires, holds or acks only deliveries it should, and decides to ack only what is answered for. */
  lemma ActorKeepsItsWord(c: Config, s: State, a: Step)
    requires Inv(s) && c.policy.maxAttempts >= 1 && Enabled(c, s, a) && ByWorker(a)
    ensures a.w < |Apply(c, s, a).workers|
    ensures var s' := Apply(c, s, a); var p := s'.workers[a.w];
            && (p.Acquiring? || Holding(p) ==> Processable(p.d))
            && (p.Settling? && p.verdict == Ack ==> Processable(p.d) && Answered(s', ID(p.d)))
  {
    var s' := Apply(c, s, a);
    assert WorkerInv(s, s.workers[a.w]);
    ActorsDelivery(c, s, a);
    if a.SendOk? {
      assert s'.sent[|s.sent|].paymentID == ID(s'.workers[a.w].d);
    } else if a.SetNX? {
      AcquirerIsCovered(c, s, a.w, a.fault);
    }
  }

  lemma WorkerInvStep(c: Config, s: State, a: Step, w: nat)
    requires Inv(s) && c.policy.maxAttempts >= 1 && Enabled(c, s, a) && w < |s.workers|
    ensures w < |Apply(c, s, a).workers| && WorkerInv(Apply(c, s, a), Apply(c, s, a).workers[w])
  {
    if ByWorker(a) && w == a.w {
      ActorKeepsItsWord(c, s, a);
    } else {
      OthersStay(c, s, a, w);
      assert WorkerInv(s, s.workers[w]);
      if s.workers[w].Settling? && s.workers[w].verdict == Ack {
        CoveredStays(c, s, a, ID(s.workers[w].d));
      }
    }
  }

  /** Only a worker that had decided to acks. */
  lemma AckedBy(c: Config, s: State, a: Step, d: Delivery)
    requires Enabled(c, s, a) && d in Apply(c, s, a).acked && d !in s.acked
    ensures a.Settle? && a.reaches && s.workers[a.w] == Settling(d, Ack)
  {
  }

  lemma AckedStep(c: Config, s: State, a: Step, d: Delivery)
    requires Inv(s) && c.policy.maxAttempts >= 1 && Enabled(c, s, a) && d in Apply(c, s, a).acked
    ensures Processable(d) && Covered(Apply(c, s, a), ID(d))
  {
    if d !in s.acked {
      AckedBy(c, s, a, d);
      assert WorkerInv(s, s.workers[a.w]);
    }
    CoveredStays(c, s, a, ID(d));
  }

  lemma InvStep(c: Config, s: State, a: Step)
    requires Inv(s) && c.policy.maxAttempts >= 1 && Enabled(c, s, a) && !Lossy(s, a)
    ensures Inv(Apply(c, s, a))
  {
    var s' := Apply(c, s, a);
    SameLength(c, s, a);
    forall id | id in s'.keys && id != ""
      ensures Answered(s', id)
    {
      KeysStayAnswered(c, s, a, id);
    }
    forall d | d in s'.acked
      ensures Processable(d) && Covered(s', ID(d))
    {
      AckedStep(c, s, a, d);
    }
    forall w | 0 <= w < |s'.workers|
      ensures WorkerInv(s', s'.workers[w])
    {
      WorkerInvStep(c, s, a, w);
    }
  }

  // ---------- whole runs ----------

  /** No key of a real payment. */
  predicate NoKeys(keys: Keys) {
    forall id :: id in keys ==> id == ""
  }

  ghost predicate Lossless(states: seq<State>, steps: seq<Step>)
    requires |states| == |steps| + 1
  {
    forall i :: 0 <= i < |steps| ==> !Lossy(states[i], steps[i])
  }

  /** A payment has been acked, nobody answers for it and no copy of it waits: it is gone for good. */
  ghost predicate Loses(s: State) {
    exists d :: d in s.acked && !(Processable(d) && Covered(s, ID(d)))
  }

  lemma {:induction false} InvHolds(c: Config, states: seq<State>, steps: seq<Step>, n: nat)
    requires Behavior(c, states, steps) && NoKeys(states[0].keys) && c.policy.maxAttempts >= 1 && n < |states|
    requires Lossless(states, steps)
    ensures Inv(states[n])
  {
    if n == 0 {
    } else {
      InvHolds(c, states, steps, n - 1);
      assert StepAt(c, states, steps, n - 1);
      InvStep(c, states[n - 1], steps[n - 1]);
    }
  }

  /** In a run without a lossy step every acked payment has been sent, is held by an in-flight worker,
      is in or on its way to the DLQ, or has a copy waiting whose key is free. */
  lemma NothingLost(c: Config, states: seq<State>, steps: seq<Step>, n: nat)
    requires Behavior(c, states, steps) && NoKeys(states[0].keys) && c.policy.maxAttempts >= 1 && n < |states|
    requires Lossless(states, steps)
    ensures forall d :: d in states[n].acked ==> Processable(d) && Safe(states[n], ID(d))
  {
    InvHolds(c, states, steps, n);
  }

  ghost predicate AcksAnswered(s: State, p: Worker) {
    p.Settling? && p.verdict == Ack ==> Processable(p.d) && Answered(s, ID(p.d))
  }

  ghost predicate AllAnswered(s: State) {
    && Inv(s)
    && (forall d :: d in s.acked ==> Processable(d) && Answered(s, ID(d)))
    && (forall w :: 0 <= w < |s.workers| ==> AcksAnswered(s, s.workers[w]))
  }

  lemma AckedAnsweredStep(c: Config, s: State, a: Step, d: Delivery)
    requires AllAnswered(s) && Enabled(c, s, a) && !Abandons(s, a) && d in Apply(c, s, a).acked
    ensures Processable(d) && Answered(Apply(c, s, a), ID(d))
  {
    if d !in s.acked {
      AckedBy(c, s, a, d);
      assert AcksAnswered(s, s.workers[a.w]);
    }
    AnsweredStays(c, s, a, ID(d));
  }

  lemma OthersStayAnswered(c: Config, s: State, a: Step, w: nat)
    requires Enabled(c, s, a) && !Abandons(s, a) && !(ByWorker(a) && w == a.w)
    requires w < |s.workers| && AcksAnswered(s, s.workers[w])
    ensures w < |Apply(c, s, a).workers| && AcksAnswered(Apply(c, s, a), Apply(c, s, a).workers[w])
  {
    OthersStay(c, s, a, w);
    if s.workers[w].Settling? && s.workers[w].verdict == Ack {
      AnsweredStays(c, s, a, ID(s.workers[w].d));
    }
  }

  lemma AcksAnsweredStep(c: Config, s: State, a: Step, w: nat)
    requires AllAnswered(s) && c.policy.maxAttempts >= 1 && Enabled(c, s, a) && !Abandons(s, a)
    requires w < |Apply(c, s, a).workers|
    ensures AcksAnswered(Apply(c, s, a), Apply(c, s, a).workers[w])
  {
    SameLength(c, s, a);
    if ByWorker(a) && w == a.w {
      ActorKeepsItsWord(c, s, a);
    } else {
      OthersStayAnswered(c, s, a, w);
    }
  }

  lemma AllAnsweredStep(c: Config, s: State, a: Step)
    requires AllAnswered(s) && c.policy.maxAttempts >= 1 && Enabled(c, s, a) && !Abandons(s, a)
    ensures AllAnswered(Apply(c, s, a))
  {
    var s' := Apply(c, s, a);
    InvStep(c, s, a);
    forall d | d in s'.acked
      ensures Processable(d) && Answered(s', ID(d))
    {
      AckedAnsweredStep(c, s, a, d);
    }
    forall w | 0 <= w < |s'.workers|
      ensures AcksAnswered(s', s'.workers[w])
    {
      AcksAnsweredStep(c, s, a, w);
    }
  }

  /** Where nobody abandons a payment, the waiting copy is not needed either: each acked payment has been
      sent, is held by an in-flight worker, or is in or on its way to the DLQ. */
  lemma {:induction false} AlwaysAnswered(c: Config, states: seq<State>, steps: seq<Step>, n: nat)
    requires Behavior(c, states, steps) && NoKeys(states[0].keys) && c.policy.maxAttempts >= 1 && n < |states|
    requires forall i :: 0 <= i < |steps| ==> !Abandons(states[i], steps[i])
    ensures AllAnswered(states[n])
    ensures forall d :: d in states[n].acked ==> Processable(d) && Answered(states[n], ID(d))
  {
    if n == 0 {
    } else {
      AlwaysAnswered(c, states, steps, n - 1);
      assert StepAt(c, states, steps, n - 1);
      AllAnsweredStep(c, states[n - 1], steps[n - 1]);
    }
  }

  predicate Quiescent(s: State) {
    && s.queue == s.jobs == multiset{}
    && forall w :: 0 <= w < |s.workers| ==> s.workers[w].Idle?
  }

  /** When the pipeline has run dry, every published payment has been sent or sits in the DLQ,
      and every malformed message sits in the DLQ. */
  lemma SentOrParkedAtQuiescence(c: Config, states: seq<State>, steps: seq<Step>, n: nat, d: Delivery)
    requires Behavior(c, states, steps) && NoKeys(states[0].keys) && c.policy.maxAttempts >= 1 && n < |states|
    requires Lossless(states, steps) && Quiescent(states[n]) && d in states[n].published
    ensures var s := states[n];
            if Processable(d) then WasSent(s, ID(d)) || Parked(s, ID(d)) else d in s.dlq
  {
    NothingLost(c, states, steps, n);
    DeliveriesConserved(c, states, steps, n, d);
    InHandOfIdle(states[n].workers, d);
    assert d in states[n].acked || d in states[n].dlq;
  }

  // ---------- a lossy step loses ----------

  /** Every worker lives and every settlement arrives. */
  predicate Peaceful(steps: seq<Step>) {
    forall k :: 0 <= k < |steps| ==> !Drops(steps[k])
  }

  /** From `s` on, without any mishap and without a key that expires, some payment can be lost. */
  ghost predicate CanLose(c: Config, s: State) {
    exists steps :: CanRun(c, s, steps) && Peaceful(steps) && NoExpiry(steps) && Loses(Run(c, s, steps))
  }

  lemma LosesNow(c: Config, s: State)
    requires Loses(s)
    ensures CanLose(c, s)
  {
    RunNone(c, s);
    assert Peaceful([]) && NoExpiry([]);
  }

  lemma LosesEarlier(c: Config, s: State, a: Step)
    requires Enabled(c, s, a) && !Drops(a) && !a.Expire? && CanLose(c, Apply(c, s, a))
    ensures CanLose(c, s)
  {
    var rest :| CanRun(c, Apply(c, s, a), rest) && Peaceful(rest) && NoExpiry(rest) && Loses(Run(c, Apply(c, s, a), rest));
    RunCons(c, s, a, rest);
    assert Peaceful([a] + rest) && NoExpiry([a] + rest);
  }

  /** Nobody answers for the payment, and its key makes every copy a duplicate. */
  ghost predicate Abandoned(s: State, id: string) {
    id != "" && id in s.keys && !Answered(s, id)
  }

  /** Moving a worker that does not answer leaves a payment abandoned. */
  lemma StillAbandoned(s: State, s': State, w: nat, id: string)
    requires Abandoned(s, id) && w < |s.workers| == |s'.workers| && s'.workers == s.workers[w := s'.workers[w]]
    requires s'.sent == s.sent && s'.dlq == s.dlq && s'.keys == s.keys && !Answers(s'.workers[w], id)
    ensures Abandoned(s', id)
  {
    forall v | 0 <= v < |s'.workers|
      ensures !Answers(s'.workers[v], id)
    {
      assert v != w ==> s'.workers[v] == s.workers[v];
    }
  }

  /** How many workers are about to try for the key. */
  function Trying(workers: seq<Worker>, id: string): nat {
    if workers == [] then 0
    else Trying(workers[..|workers| - 1], id) + if WaitsForKey(workers[|workers| - 1], id) then 1 else 0
  }

  lemma {:induction false} TryingUpdate(workers: seq<Worker>, w: nat, p: Worker, id: string)
    requires w < |workers|
    ensures Trying(workers[w := p], id) + (if WaitsForKey(workers[w], id) then 1 else 0)
            == Trying(workers, id) + if WaitsForKey(p, id) then 1 else 0
  {
    var n := |workers| - 1;
    if w == n {
      assert workers[w := p][..n] == workers[..n];
    } else {
      TryingUpdate(workers[..n], w, p, id);
      assert workers[w := p][..n] == workers[..n][w := p];
    }
  }

  /** A worker that finds the key in place acks its copy as a duplicate, and is idle again. */
  function Skipped(s: State, w: nat): State
    requires w < |s.workers| && s.workers[w].Acquiring?
  {
    s.(workers := s.workers[w := Idle], acked := s.acked + multiset{s.workers[w].d})
  }

  lemma SkippedIsARun(c: Config, s: State, w: nat, id: string)
    requires Abandoned(s, id) && w < |s.workers| && WaitsForKey(s.workers[w], id)
    ensures Abandoned(Skipped(s, w), id)
    ensures CanLose(c, Skipped(s, w)) ==> CanLose(c, s)
  {
    var d := s.workers[w].d;
    var s1 := Apply(c, s, SetNX(w, NoFault));
    assert s1 == s.(workers := s.workers[w := Settling(d, Ack)]);
    var s2 := Apply(c, s1, Settle(w, true));
    assert s2 == Skipped(s, w);
    StillAbandoned(s, s2, w, id);
    if CanLose(c, s2) {
      LosesEarlier(c, s1, Settle(w, true));
      LosesEarlier(c, s, SetNX(w, NoFault));
    }
  }

  /** A waiting copy comes to an idle worker. */
  function Fetched(s: State, w: nat, d: Delivery): State
    requires w < |s.workers| && (d in s.queue || d in s.jobs)
  {
    (if d in s.jobs then s.(jobs := s.jobs - multiset{d}) else s.(queue := s.queue - multiset{d}))
    .(workers := s.workers[w := Acquiring(d)])
  }

  lemma FetchedIsARun(c: Config, s: State, w: nat, d: Delivery)
    requires w < |s.workers| && s.workers[w].Idle? && (d in s.queue || d in s.jobs) && Processable(d)
    ensures CanLose(c, Fetched(s, w, d)) ==> CanLose(c, s)
  {
    if CanLose(c, Fetched(s, w, d)) {
      if d in s.jobs {
        LosesEarlier(c, s, Take(w, d));
      } else {
        var s1 := Apply(c, s, Dispatch(d));
        assert s1.jobs - multiset{d} == s.jobs;
        assert Apply(c, s1, Take(w, d)) == Fetched(s, w, d);
        LosesEarlier(c, s1, Take(w, d));
        LosesEarlier(c, s, Dispatch(d));
      }
    }
  }

  lemma {:induction false} NobodyTries(workers: seq<Worker>, id: string)
    requires forall v :: 0 <= v < |workers| ==> !WaitsForKey(workers[v], id)
    ensures Trying(workers, id) == 0
  {
    if workers == [] {
    } else {
      NobodyTries(workers[..|workers| - 1], id);
    }
  }

  /** All copies of an abandoned payment can be drained as duplicates, and then it is gone. */
  lemma {:induction false} DrainLoses(c: Config, s: State, w: nat, id: string)
    requires Abandoned(s, id) && w < |s.workers| && s.workers[w].Idle?
    requires WaitsOutside(s, id) || Trying(s.workers, id) > 0 || exists d :: d in s.acked && d.body == Event(id)
    ensures CanLose(c, s)
    decreases |s.queue| + |s.jobs|, Trying(s.workers, id), 1
  {
    if v: nat :| v < |s.workers| && WaitsForKey(s.workers[v], id) {
      SkippedIsARun(c, s, v, id);
      TryingUpdate(s.workers, v, Idle, id);
      assert s.workers[v].d in Skipped(s, v).acked;
      DrainLoses(c, Skipped(s, v), w, id);
    } else if WaitsOutside(s, id) {
      DrainOutside(c, s, w, id);
    } else {
      NobodyTries(s.workers, id);
      var d :| d in s.acked && d.body == Event(id);
      assert !Covered(s, ID(d));
      LosesNow(c, s);
    }
  }

  lemma {:induction false} DrainOutside(c: Config, s: State, w: nat, id: string)
    requires Abandoned(s, id) && w < |s.workers| && s.workers[w].Idle? && WaitsOutside(s, id)
    ensures CanLose(c, s)
    decreases |s.queue| + |s.jobs|, Trying(s.workers, id), 0
  {
    var d :| (d in s.queue || d in s.jobs) && d.body == Event(id);
    var s1 := Fetched(s, w, d);
    FetchedIsARun(c, s, w, d);
    StillAbandoned(s, s1, w, id);
    SkippedIsARun(c, s1, w, id);
    assert d in Skipped(s1, w).acked;
    DrainLoses(c, Skipped(s1, w), w, id);
  }

  /** After a lossy step the payment can be lost for good, without any further mishap. */
  lemma LossyLoses(c: Config, s: State, a: Step)
    requires Enabled(c, s, a) && Lossy(s, a)
    ensures CanLose(c, Apply(c, s, a))
  {
    var s', d := Apply(c, s, a), s.workers[a.w].d;
    assert forall v :: 0 <= v < |s'.workers| && v != a.w ==> s'.workers[v] == s.workers[v];
    assert s'.sent == s.sent && s'.dlq == s.dlq;
    assert !Answered(s', ID(d));
    DroppedWaits(c, s, a);
    assert WaitsOutside(s', ID(d));
    DrainLoses(c, s', a.w, ID(d));
  }

  lemma {:induction false} InvAlongRun(c: Config, s: State, steps: seq<Step>)
    requires Inv(s) && c.policy.maxAttempts >= 1 && CanRun(c, s, steps) && Peaceful(steps)
    ensures Inv(Run(c, s, steps))
    decreases |steps|
  {
    if steps == [] {
    } else {
      InvStep(c, s, steps[0]);
      InvAlongRun(c, Apply(c, s, steps[0]), steps[1..]);
    }
  }

  /** For every run that starts without keys, under a policy with attempts: no step of it was lossy if
      and only if none of its states can, without any further crash, lost settlement or expiry, lose a
      payment for good. */
  lemma NothingLostIff(c: Config, states: seq<State>, steps: seq<Step>)
    requires Behavior(c, states, steps) && NoKeys(states[0].keys) && c.policy.maxAttempts >= 1
    ensures Lossless(states, steps) <==> forall m :: 0 <= m < |states| ==> !CanLose(c, states[m])
  {
    if Lossless(states, steps) {
      forall m | 0 <= m < |states|
        ensures !CanLose(c, states[m])
      {
        InvHolds(c, states, steps, m);
        forall more | CanRun(c, states[m], more) && Peaceful(more)
          ensures !Loses(Run(c, states[m], more))
        {
          InvAlongRun(c, states[m], more);
        }
      }
    } else {
      var i :| 0 <= i < |steps| && Lossy(states[i], steps[i]);
      assert StepAt(c, states, steps, i);
      LossyLoses(c, states[i], steps[i]);
    }
  }
}
