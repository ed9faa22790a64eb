/**
 The notification pipeline: deliveries move from the queue through the jobs channel to
 a worker, which acquires the idempotency key (SETNX), sends with retries, releases the
 key (DEL) when it gives up, and settles the delivery (ack, or nack to the DLQ).

 Any number of workers, of any number of replicas, interleave their steps with those of
 the environment: publishers (also of duplicates), lost settlements, ambiguous Redis
 errors, key expiry and eviction, failing sends, cancellation and worker crashes.
 */
module Notification {
  import opened Options
  import opened Faults
  import opened Backoff

  /** The retry policy, the key's time to live, and the longest a `Send` and a DEL may take.
      Only the timed theorem looks at the last three. */
  datatype Config = Config(policy: Policy, ttl: nat, sendMax: nat, delMax: nat)

  datatype Body = Malformed | Event(paymentID: string)

  datatype Delivery = Delivery(tag: nat, body: Body)

  datatype Verdict = Ack | Nack

  /** Where a worker is. `since` is the time of its SETNX and `due` the latest time its current
      phase may end; `cancelled` when it gives up because its context is done. */
  datatype Worker =
    | Idle
    | Acquiring(d: Delivery)
    | Sending(d: Delivery, attempt: int, since: nat, due: nat)
    | Sleeping(d: Delivery, attempt: int, since: nat, due: nat)
    | Releasing(d: Delivery, since: nat, due: nat, cancelled: bool)
    | Settling(d: Delivery, verdict: Verdict)

  /** An idempotency key in Redis: when it was set, and (auxiliary) which worker may still delete it. */
  datatype Key = Key(holder: Option<nat>, setAt: nat)

  type Keys = map<string, Key>

  /** A `Send` that returned nil, with the time its worker had acquired the key. */
  datatype Sent = Sent(paymentID: string, acquiredAt: nat)

  datatype State = State(
    now: nat,
    queue: multiset<Delivery>,
    jobs: multiset<Delivery>,
    workers: seq<Worker>,
    keys: Keys,
    sent: seq<Sent>,
    published: multiset<Delivery>,
    acked: multiset<Delivery>,
    dlq: multiset<Delivery>)

  datatype Step =
    | Tick(to: nat)
    | Expire(paymentID: string)
    | Publish(d: Delivery)
    | Dispatch(d: Delivery)
    | Take(w: nat, d: Delivery)
    | SetNX(w: nat, fault: Fault)
    | SendOk(w: nat)
    | SendFail(w: nat, sleep: int)
    | Wake(w: nat)
    | Cancel(w: nat)
    | Del(w: nat, applied: bool)
    | Settle(w: nat, reaches: bool)
    | Crash(w: nat)

  /** `handle` parses the body; a malformed one or an empty payment id is nacked at once. */
  predicate Processable(d: Delivery) {
    d.body.Event? && d.body.paymentID != ""
  }

  function Handle(d: Delivery): Worker {
    if Processable(d) then Acquiring(d) else Settling(d, Nack)
  }

  // ---------- the idempotency store ----------

  /** `Acquire`: SETNX. The reply is (acquired, error). */
  function AcquireReply(keys: Keys, id: string, fault: Fault): (bool, bool) {
    if fault != NoFault then (false, true) else (id !in keys, false)
  }

  /** The keys after SETNX by worker `w`: set when absent, unless the command was not applied.
      Only a worker that was told so becomes the holder. */
  function AcquireKeys(keys: Keys, id: string, fault: Fault, w: nat, now: nat): Keys {
    if fault == NotApplied || id in keys then keys
    else keys[id := Key(if fault == NoFault then Some(w) else None, now)]
  }

  /** The keys after DEL: deleted whoever set the key, there is no ownership check. */
  function ReleaseKeys(keys: Keys, id: string, applied: bool): Keys {
    if applied then keys - {id} else keys
  }

  /** After a successful send nobody deletes the key any more. */
  function KeepKey(keys: Keys, id: string): Keys {
    if id in keys then keys[id := keys[id].(holder := None)] else keys
  }

  // ---------- one worker ----------

  /** Between a successful SETNX and its DEL or successful send. */
  predicate Holding(p: Worker) {
    p.Sending? || p.Sleeping? || p.Releasing?
  }

  predicate Holds(p: Worker, id: string) {
    Holding(p) && p.d.body == Event(id)
  }

  function ID(d: Delivery): string {
    if d.body.Event? then d.body.paymentID else ""
  }

  /** Where `Process` goes after SETNX: send, skip a duplicate (ack), or give up (nack).
      A policy without attempts "succeeds" without sending. */
  function AfterAcquire(c: Config, s: State, d: Delivery, fault: Fault): Worker {
    var (acquired, err) := AcquireReply(s.keys, ID(d), fault);
    if err then Settling(d, Nack)
    else if !acquired || c.policy.maxAttempts < 1 then Settling(d, Ack)
    else Sending(d, 1, s.now, s.now + c.sendMax)
  }

  /** A failed attempt releases after the last one, and otherwise backs off for `sleep`
      (a timer set to a negative duration fires at once). */
  function AfterFailure(c: Config, s: State, p: Worker, sleep: int): Worker
    requires p.Sending?
  {
    if p.attempt >= c.policy.maxAttempts then Releasing(p.d, p.since, s.now + c.delMax, false)
    else Sleeping(p.d, p.attempt, p.since, s.now + if sleep < 0 then 0 else sleep)
  }

  /** A worker whose context is done holds on to nothing: its client refuses to send the DEL. */
  predicate NeedsKey(p: Worker) {
    Holding(p) && !(p.Releasing? && p.cancelled)
  }

  /** The sleeps the policy may draw after a failed attempt; where the draw would panic,
      the process dies instead (`Crash`). */
  ghost predicate PossibleSleep(p: Policy, attempt: int, sleep: int)
    requires attempt >= 1
  {
    !JitterPanics(p, attempt) && exists draw: int :: sleep == Sleep(p, attempt, draw)
  }

  // ---------- the step relation ----------

  ghost predicate Enabled(c: Config, s: State, a: Step) {
    match a
    case Tick(to) => s.now <= to
    case Expire(id) => id in s.keys
    case Publish(d) => true
    case Dispatch(d) => d in s.queue
    case Take(w, d) => w < |s.workers| && s.workers[w].Idle? && d in s.jobs
    case SetNX(w, _) => w < |s.workers| && s.workers[w].Acquiring?
    case SendOk(w) => w < |s.workers| && s.workers[w].Sending?
    case SendFail(w, sleep) =>
      && w < |s.workers| && s.workers[w].Sending? && s.workers[w].attempt >= 1
      && (s.workers[w].attempt < c.policy.maxAttempts ==> PossibleSleep(c.policy, s.workers[w].attempt, sleep))
    case Wake(w) => w < |s.workers| && s.workers[w].Sleeping?
    case Cancel(w) => w < |s.workers| && s.workers[w].Sleeping?
    case Del(w, applied) => w < |s.workers| && s.workers[w].Releasing? && (applied ==> !s.workers[w].cancelled)
    case Settle(w, _) => w < |s.workers| && s.workers[w].Settling?
    case Crash(w) => w < |s.workers| && !s.workers[w].Idle?
  }

  ghost function Apply(c: Config, s: State, a: Step): State
    requires Enabled(c, s, a)
  {
    match a
    case Tick(to) => s.(now := to)
    case Expire(id) => s.(keys := s.keys - {id})
    case Publish(d) => s.(queue := s.queue + multiset{d}, published := s.published + multiset{d})
    case Dispatch(d) => s.(queue := s.queue - multiset{d}, jobs := s.jobs + multiset{d})
    case Take(w, d) => s.(jobs := s.jobs - multiset{d}, workers := s.workers[w := Handle(d)])
    case SetNX(w, fault) =>
      var d := s.workers[w].d;
      s.(workers := s.workers[w := AfterAcquire(c, s, d, fault)],
         keys := AcquireKeys(s.keys, ID(d), fault, w, s.now))
    case SendOk(w) =>
      var p := s.workers[w];
      s.(workers := s.workers[w := Settling(p.d, Ack)],
         keys := KeepKey(s.keys, ID(p.d)),
         sent := s.sent + [Sent(ID(p.d), p.since)])
    case SendFail(w, sleep) =>
      s.(workers := s.workers[w := AfterFailure(c, s, s.workers[w], sleep)])
    case Wake(w) =>
      var p := s.workers[w];
      s.(workers := s.workers[w := Sending(p.d, p.attempt + 1, p.since, s.now + c.sendMax)])
    case Cancel(w) =>
      var p := s.workers[w];
      s.(workers := s.workers[w := Releasing(p.d, p.since, s.now + c.delMax, true)])
    case Del(w, applied) =>
      var p := s.workers[w];
      s.(workers := s.workers[w := Settling(p.d, Nack)], keys := ReleaseKeys(s.keys, ID(p.d), applied))
    case Settle(w, reaches) =>
      var p := s.workers[w];
      var idle := s.(workers := s.workers[w := Idle]);
      if !reaches then idle.(queue := s.queue + multiset{p.d})
      else if p.verdict == Ack then idle.(acked := s.acked + multiset{p.d})
      else idle.(dlq := s.dlq + multiset{p.d})
    case Crash(w) =>
      s.(workers := s.workers[w := Idle], queue := s.queue + multiset{s.workers[w].d})
  }

  /** The steps of a worker, as opposed to those of its surroundings. */
  predicate ByWorker(a: Step) {
    !a.Tick? && !a.Expire? && !a.Publish? && !a.Dispatch?
  }

  /** Nothing taken, sent or settled yet; the keys may hold anything nobody holds. */
  predicate Init(s: State) {
    && (forall w :: 0 <= w < |s.workers| ==> s.workers[w].Idle?)
    && (forall id :: id in s.keys ==> s.keys[id].holder.None?)
    && s.sent == []
    && s.queue == s.jobs == s.published == s.acked == s.dlq == multiset{}
  }

  // ---------- runs ----------

  ghost predicate Follows(c: Config, s: State, a: Step, s': State) {
    Enabled(c, s, a) && s' == Apply(c, s, a)
  }

  /** `states[i+1]` follows from `states[i]` by `steps[i]`. */
  ghost predicate StepAt(c: Config, states: seq<State>, steps: seq<Step>, i: nat)
    requires |states| == |steps| + 1 && i < |steps|
  {
    Follows(c, states[i], steps[i], states[i + 1])
  }

  ghost predicate Behavior(c: Config, states: seq<State>, steps: seq<Step>) {
    && |states| == |steps| + 1
    && Init(states[0])
    && forall i: nat :: i < |steps| ==> StepAt(c, states, steps, i)
  }

  predicate NoExpiry(steps: seq<Step>) {
    forall k :: 0 <= k < |steps| ==> !steps[k].Expire?
  }

  /** The steps are enabled one after the other from `s` on. */
  ghost predicate CanRun(c: Config, s: State, steps: seq<Step>)
    decreases |steps|
  {
    steps == [] || (Enabled(c, s, steps[0]) && CanRun(c, Apply(c, s, steps[0]), steps[1..]))
  }

  ghost function Run(c: Config, s: State, steps: seq<Step>): State
    requires CanRun(c, s, steps)
    decreases |steps|
  {
    if steps == [] then s else Run(c, Apply(c, s, steps[0]), steps[1..])
  }

  lemma RunCons(c: Config, s: State, a: Step, rest: seq<Step>)
    requires Enabled(c, s, a) && CanRun(c, Apply(c, s, a), rest)
    ensures CanRun(c, s, [a] + rest) && Run(c, s, [a] + rest) == Run(c, Apply(c, s, a), rest)
  {
    assert ([a] + rest)[1..] == rest;
  }

  lemma RunNone(c: Config, s: State)
    ensures CanRun(c, s, []) && Run(c, s, []) == s
  {
  }
}
