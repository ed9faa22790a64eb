/**
 Whole runs of the event bus, and the gRPC stream that subscribes, forwards and unsubscribes.
 */
module OrderStream {
  import opened EventBus

  // ---------- runs ----------

  ghost predicate CanApply(b: Bus, op: Op) {
    && (op.Unsub? || op.Recv? ==> op.ch < |b.chans|)
    && (forall s :: s in b.registry ==> s.ch < |b.chans|)
  }

  ghost predicate Follows(b: Bus, op: Op, b': Bus) {
    CanApply(b, op) && b' == ApplyOp(b, op)
  }

  ghost predicate StepAt(buses: seq<Bus>, ops: seq<Op>, i: nat)
    requires |buses| == |ops| + 1 && i < |ops|
  {
    Follows(buses[i], ops[i], buses[i + 1])
  }

  ghost predicate Runs(buses: seq<Bus>, ops: seq<Op>) {
    && |buses| == |ops| + 1 && buses[0] == Bus([], [])
    && forall i: nat :: i < |ops| ==> StepAt(buses, ops, i)
  }

  /** Operation `j` is the Subscribe that returned channel `ch` for `id`. */
  ghost predicate Returned(buses: seq<Bus>, ops: seq<Op>, j: nat, id: string, ch: nat)
    requires |buses| == |ops| + 1
  {
    j < |ops| && ops[j] == Sub(id) && |buses[j].chans| == ch
  }

  ghost predicate MatchedUnsubscribe(buses: seq<Bus>, ops: seq<Op>, i: nat)
    requires |buses| == |ops| + 1 && i < |ops|
  {
    ops[i].Unsub? ==>
      && (exists j: nat :: j < i && Returned(buses, ops, j, ops[i].id, ops[i].ch))
      && (forall k :: 0 <= k < |ops| && k != i && ops[k].Unsub? ==> ops[k].ch != ops[i].ch)
  }

  /** Every Unsubscribe is for a channel Subscribe returned for the same id, at most once each. */
  ghost predicate Disciplined(buses: seq<Bus>, ops: seq<Op>)
    requires |buses| == |ops| + 1
  {
    forall i: nat :: i < |ops| ==> MatchedUnsubscribe(buses, ops, i)
  }

  ghost predicate Unsubscribed(ops: seq<Op>, n: nat, ch: nat)
    requires n <= |ops|
  {
    exists k :: 0 <= k < n && ops[k].Unsub? && ops[k].ch == ch
  }

  /** A returned channel stays registered under its id until it is unsubscribed. */
  ghost predicate Tracked(buses: seq<Bus>, ops: seq<Op>, n: nat)
    requires |buses| == |ops| + 1 && n <= |ops|
  {
    forall j: nat, id, ch: nat :: j < n && Returned(buses, ops, j, id, ch) ==>
      ch < |buses[n].chans| && (Subscription(id, ch) in buses[n].registry || Unsubscribed(ops, n, ch))
  }

  lemma TrackedStep(buses: seq<Bus>, ops: seq<Op>, n: nat)
    requires Runs(buses, ops) && Disciplined(buses, ops) && n < |ops|
    requires WellFormed(buses[n]) && Tracked(buses, ops, n)
    ensures WellFormed(buses[n + 1]) && CanApply(buses[n], ops[n]) && !Panics(buses[n], ops[n]) && Tracked(buses, ops, n + 1)
  {
    var b, op, b' := buses[n], ops[n], buses[n + 1];
    assert StepAt(buses, ops, n) && MatchedUnsubscribe(buses, ops, n);
    match op {
      case Sub(_) =>
      case Unsub(id, ch) =>
        var j: nat :| j < n && Returned(buses, ops, j, id, ch);
        assert Subscription(id, ch) in b.registry;
        UnsubKeepsWellFormed(b, id, ch);
        WithoutMembers(b.registry, Subscription(id, ch));
      case Notify(payload) => NotifyKeepsWellFormed(b, payload);
      case Recv(_) =>
    }
    forall j: nat, id, ch: nat | j < n + 1 && Returned(buses, ops, j, id, ch)
      ensures ch < |b'.chans| && (Subscription(id, ch) in b'.registry || Unsubscribed(ops, n + 1, ch))
    {
      if j < n && Subscription(id, ch) !in b.registry {
        assert Unsubscribed(ops, n, ch);
      } else if op.Unsub? && op.ch == ch {
        assert ops[n].Unsub? && ops[n].ch == ch;
      } else if j == n {
        assert b'.registry[|b.registry|] == Subscription(id, ch);
      } else if op.Sub? {
        assert Subscription(id, ch) in b.registry;
      }
    }
  }

  lemma {:induction false} RunIsWellFormed(buses: seq<Bus>, ops: seq<Op>, n: nat)
    requires Runs(buses, ops) && Disciplined(buses, ops) && n <= |ops|
    ensures WellFormed(buses[n]) && Tracked(buses, ops, n)
  {
    if n == 0 {
    } else {
      RunIsWellFormed(buses, ops, n - 1);
      TrackedStep(buses, ops, n - 1);
    }
  }

  /** In a disciplined run nothing is ever sent on, and nothing closes, a closed channel. */
  lemma DisciplinedRunNeverPanics(buses: seq<Bus>, ops: seq<Op>, n: nat)
    requires Runs(buses, ops) && Disciplined(buses, ops) && n < |ops|
    ensures WellFormed(buses[n]) && CanApply(buses[n], ops[n]) && !Panics(buses[n], ops[n])
  {
    RunIsWellFormed(buses, ops, n);
    assert StepAt(buses, ops, n);
    TrackedStep(buses, ops, n);
  }

  /** Unsubscribing a channel under another id than it was subscribed for makes the next
      notification send on a closed channel. */
  lemma MismatchedUnsubscribePanics(id: string, other: string, status: string)
      returns (buses: seq<Bus>, ops: seq<Op>)
    requires id != other && ':' !in id
    ensures Runs(buses, ops) && |ops| == 2 && ops == [Sub(id), Unsub(other, 0)]
    ensures CanApply(buses[2], Notify(Payload(id, status))) && Panics(buses[2], Notify(Payload(id, status)))
  {
    ops := [Sub(id), Unsub(other, 0)];
    var b1 := ApplyOp(Bus([], []), ops[0]);
    assert b1.registry == [Subscription(id, 0)];
    WithoutMembers(b1.registry, Subscription(other, 0));
    var b2 := ApplyOp(b1, ops[1]);
    buses := [Bus([], []), b1, b2];
    PayloadRoundTripIff(id, status);
    assert Subscription(id, 0) in b1.registry;
    assert Subscription(id, 0) in b2.registry;
  }

  // ---------- what a subscriber sees ----------

  /** The offers that found room. */
  function Kept(log: seq<Offer>): seq<Event> {
    if log == [] then []
    else Kept(log[..|log| - 1]) + if log[|log| - 1].backlog < CAPACITY then [log[|log| - 1].event] else []
  }

  function Events(log: seq<Offer>): seq<Event> {
    if log == [] then [] else Events(log[..|log| - 1]) + [log[|log| - 1].event]
  }

  /** What was received followed by the buffer is everything offered, in order, except what
      was offered to a full buffer. */
  ghost predicate Faithful(c: Channel) {
    && c.received + c.buf == Kept(c.log)
    && |c.buf| <= CAPACITY
    && forall i :: 0 <= i < |c.log| ==> c.log[i].backlog <= CAPACITY
  }

  lemma OfferedFaithful(c: Channel, e: Event)
    requires Faithful(c)
    ensures Faithful(Offered(c, e)) && Events(Offered(c, e).log) == Events(c.log) + [e]
  {
    var longer := Offered(c, e).log;
    assert longer[..|c.log|] == c.log;
    assert c.received + (c.buf + [e]) == (c.received + c.buf) + [e];
  }

  lemma TakenFaithful(c: Channel)
    requires Faithful(c)
    ensures Faithful(Taken(c))
  {
    if c.buf != [] {
      assert (c.received + [c.buf[0]]) + c.buf[1..] == c.received + c.buf;
    }
  }

  ghost predicate AllFaithful(b: Bus) {
    forall k :: 0 <= k < |b.chans| ==> Faithful(b.chans[k])
  }

  lemma FaithfulStep(b: Bus, op: Op)
    requires CanApply(b, op) && WellFormed(b) && AllFaithful(b)
    ensures AllFaithful(ApplyOp(b, op))
  {
    var b' := ApplyOp(b, op);
    forall k: nat | k < |b'.chans|
      ensures Faithful(b'.chans[k])
    {
      match op {
        case Sub(_) => assert k < |b.chans| || Kept(b'.chans[k].log) == [];
        case Unsub(_, _) => assert Faithful(b.chans[k]);
        case Recv(_) => TakenFaithful(b.chans[k]);
        case Notify(payload) =>
          NotifyKeepsWellFormed(b, payload);
          if Parse(payload).Some? {
            OfferedFaithful(b.chans[k], Parse(payload).value);
          }
      }
    }
  }

  lemma {:induction false} RunIsFaithful(buses: seq<Bus>, ops: seq<Op>, n: nat)
    requires Runs(buses, ops) && Disciplined(buses, ops) && n <= |ops|
    ensures AllFaithful(buses[n])
  {
    if n == 0 {
    } else {
      RunIsWellFormed(buses, ops, n - 1);
      RunIsFaithful(buses, ops, n - 1);
      assert StepAt(buses, ops, n - 1);
      FaithfulStep(buses[n - 1], ops[n - 1]);
    }
  }

  lemma {:induction false} ChannelsGrow(buses: seq<Bus>, ops: seq<Op>, i: nat, n: nat)
    requires Runs(buses, ops) && i <= n <= |ops|
    ensures |buses[i].chans| <= |buses[n].chans|
  {
    if i == n {
    } else {
      ChannelsGrow(buses, ops, i, n - 1);
      assert StepAt(buses, ops, n - 1);
    }
  }

  lemma RegisteredBefore(b: Bus, op: Op, s: Subscription)
    requires CanApply(b, op) && s in ApplyOp(b, op).registry
    ensures s in b.registry || (op.Sub? && s.ch == |b.chans|)
  {
    if op.Unsub? {
      WithoutMembers(b.registry, Subscription(op.id, op.ch));
    }
  }

  lemma OnlyOwnId(b: Bus, id: string, ch: nat, other: string)
    requires WellFormed(b) && Subscription(id, ch) in b.registry
    ensures Subscription(other, ch) in b.registry <==> other == id
  {
  }

  /** The events dispatched for `id` by a stretch of operations. */
  function DispatchedFor(ops: seq<Op>, id: string): seq<Event> {
    if ops == [] then []
    else
      var last := ops[|ops| - 1];
      DispatchedFor(ops[..|ops| - 1], id) +
      if last.Notify? && Parse(last.payload).Some? && Parse(last.payload).value.orderID == id
      then [Parse(last.payload).value] else []
  }

  /** One operation offers a registered channel the event it dispatches for the channel's id, if any. */
  lemma OfferedByStep(b: Bus, op: Op, id: string, ch: nat)
    requires CanApply(b, op) && WellFormed(b) && AllFaithful(b)
    requires Subscription(id, ch) in b.registry
    ensures ch < |ApplyOp(b, op).chans|
    ensures Events(ApplyOp(b, op).chans[ch].log) == Events(b.chans[ch].log) + DispatchedFor([op], id)
  {
    assert [op][..0] == [];
    if op.Notify? && Parse(op.payload).Some? {
      var e := Parse(op.payload).value;
      NotifyKeepsWellFormed(b, op.payload);
      OfferedFaithful(b.chans[ch], e);
      OnlyOwnId(b, id, ch, e.orderID);
    }
  }

  lemma DispatchedSnoc(ops: seq<Op>, i: nat, n: nat, id: string)
    requires i < n <= |ops|
    ensures DispatchedFor(ops[i..n], id) == DispatchedFor(ops[i..n - 1], id) + DispatchedFor([ops[n - 1]], id)
  {
    assert [ops[n - 1]][..0] == [];
    assert ops[i..n][..n - 1 - i] == ops[i..n - 1];
  }

  /** The run just before operation `n`, and just after Subscribe `j`. */
  lemma SoFar(buses: seq<Bus>, ops: seq<Op>, j: nat, n: nat, id: string, ch: nat)
    requires Runs(buses, ops) && Disciplined(buses, ops) && j + 1 < n <= |ops| && Returned(buses, ops, j, id, ch)
    requires Subscription(id, ch) in buses[n].registry
    ensures WellFormed(buses[n - 1]) && AllFaithful(buses[n - 1]) && Follows(buses[n - 1], ops[n - 1], buses[n])
    ensures Subscription(id, ch) in buses[n - 1].registry
  {
    RunIsWellFormed(buses, ops, n - 1);
    RunIsFaithful(buses, ops, n - 1);
    assert StepAt(buses, ops, j);
    assert StepAt(buses, ops, n - 1);
    ChannelsGrow(buses, ops, j + 1, n - 1);
    RegisteredBefore(buses[n - 1], ops[n - 1], Subscription(id, ch));
  }

  lemma JustSubscribed(buses: seq<Bus>, ops: seq<Op>, j: nat, id: string, ch: nat)
    requires Runs(buses, ops) && Returned(buses, ops, j, id, ch)
    ensures ch < |buses[j + 1].chans| && Events(buses[j + 1].chans[ch].log) == DispatchedFor(ops[j + 1..j + 1], id)
  {
    assert StepAt(buses, ops, j);
    assert ops[j + 1..j + 1] == [];
  }

  lemma OfferedNext(b: Bus, b': Bus, ops: seq<Op>, i: nat, n: nat, id: string, ch: nat)
    requires i < n <= |ops| && Follows(b, ops[n - 1], b') && WellFormed(b) && AllFaithful(b)
    requires Subscription(id, ch) in b.registry && ch < |b.chans|
    requires Events(b.chans[ch].log) == DispatchedFor(ops[i..n - 1], id)
    ensures ch < |b'.chans| && Events(b'.chans[ch].log) == DispatchedFor(ops[i..n], id)
  {
    OfferedByStep(b, ops[n - 1], id, ch);
    DispatchedSnoc(ops, i, n, id);
  }

  /** While subscribed, a channel has been offered exactly the events dispatched for its id
      since its Subscribe. */
  lemma {:induction false} OfferedSinceSubscribe(buses: seq<Bus>, ops: seq<Op>, j: nat, n: nat, id: string, ch: nat)
    requires Runs(buses, ops) && Disciplined(buses, ops) && j < n <= |ops| && Returned(buses, ops, j, id, ch)
    requires Subscription(id, ch) in buses[n].registry
    ensures ch < |buses[n].chans| && Events(buses[n].chans[ch].log) == DispatchedFor(ops[j + 1..n], id)
  {
    if n == j + 1 {
      JustSubscribed(buses, ops, j, id, ch);
    } else {
      SoFar(buses, ops, j, n, id, ch);
      OfferedSinceSubscribe(buses, ops, j, n - 1, id, ch);
      OfferedNext(buses[n - 1], buses[n], ops, j + 1, n, id, ch);
    }
  }

  /** So what a subscriber received, followed by its buffer of at most 10, is the sequence of the events
      dispatched for its id since it subscribed, in order, without those that met a full buffer. */
  lemma StreamFidelity(buses: seq<Bus>, ops: seq<Op>, j: nat, n: nat, id: string, ch: nat)
    requires Runs(buses, ops) && Disciplined(buses, ops) && j < n <= |ops| && Returned(buses, ops, j, id, ch)
    requires Subscription(id, ch) in buses[n].registry
    ensures ch < |buses[n].chans|
    ensures var c := buses[n].chans[ch];
            && Events(c.log) == DispatchedFor(ops[j + 1..n], id)
            && c.received + c.buf == Kept(c.log) && |c.buf| <= 10
  {
    OfferedSinceSubscribe(buses, ops, j, n, id, ch);
    RunIsFaithful(buses, ops, n);
    assert Faithful(buses[n].chans[ch]);
  }

  // ---------- which events a subscriber misses ----------

  /** The operation dispatches `e` for `id` while channel `ch` has fewer than ten unread events. */
  predicate Admits(b: Bus, op: Op, id: string, ch: nat) {
    && op.Notify? && Parse(op.payload).Some? && Parse(op.payload).value.orderID == id
    && ch < |b.chans| && |b.chans[ch].buf| < 10
  }

  /** The events dispatched for `id` after Subscribe `j` and before operation `n`, but for those dispatched
      while ten events lay unread in channel `ch`. */
  function Admitted(buses: seq<Bus>, ops: seq<Op>, j: nat, n: nat, id: string, ch: nat): seq<Event>
    requires |buses| == |ops| + 1 && j < n <= |ops|
    decreases n
  {
    if n == j + 1 then []
    else
      Admitted(buses, ops, j, n - 1, id, ch) +
      if Admits(buses[n - 1], ops[n - 1], id, ch) then [Parse(ops[n - 1].payload).value] else []
  }

  /** What a channel has taken in: read and unread. */
  function Inflow(c: Channel): seq<Event> {
    c.received + c.buf
  }

  lemma InflowStep(b: Bus, op: Op, id: string, ch: nat)
    requires CanApply(b, op) && WellFormed(b) && Subscription(id, ch) in b.registry && |b.chans[ch].buf| <= 10
    ensures ch < |ApplyOp(b, op).chans| && |ApplyOp(b, op).chans[ch].buf| <= 10
    ensures Inflow(ApplyOp(b, op).chans[ch])
            == Inflow(b.chans[ch]) + if Admits(b, op, id, ch) then [Parse(op.payload).value] else []
  {
    if op.Notify? && Parse(op.payload).Some? {
      var e := Parse(op.payload).value;
      NotifyKeepsWellFormed(b, op.payload);
      OnlyOwnId(b, id, ch, e.orderID);
      assert b.chans[ch].received + (b.chans[ch].buf + [e]) == Inflow(b.chans[ch]) + [e];
    } else if op.Recv? {
      var c := b.chans[op.ch];
      assert c.buf != [] ==> (c.received + [c.buf[0]]) + c.buf[1..] == c.received + c.buf;
    }
  }

  lemma InflowBegins(buses: seq<Bus>, ops: seq<Op>, j: nat, id: string, ch: nat)
    requires Runs(buses, ops) && Returned(buses, ops, j, id, ch)
    ensures ch < |buses[j + 1].chans| && Inflow(buses[j + 1].chans[ch]) == [] && buses[j + 1].chans[ch].buf == []
  {
    assert StepAt(buses, ops, j);
  }

  /** A subscriber misses an event of its id only if ten events lay unread when it was dispatched: what it
      has received, followed by its buffer, is every other event dispatched since it subscribed, in order. */
  lemma {:induction false} MissesOnlyWhenFull(buses: seq<Bus>, ops: seq<Op>, j: nat, n: nat, id: string, ch: nat)
    requires Runs(buses, ops) && Disciplined(buses, ops) && j < n <= |ops| && Returned(buses, ops, j, id, ch)
    requires Subscription(id, ch) in buses[n].registry
    ensures ch < |buses[n].chans| && |buses[n].chans[ch].buf| <= 10
    ensures buses[n].chans[ch].received + buses[n].chans[ch].buf == Admitted(buses, ops, j, n, id, ch)
  {
    if n == j + 1 {
      InflowBegins(buses, ops, j, id, ch);
    } else {
      SoFar(buses, ops, j, n, id, ch);
      MissesOnlyWhenFull(buses, ops, j, n - 1, id, ch);
      InflowStep(buses[n - 1], ops[n - 1], id, ch);
    }
  }

  // ---------- after the Unsubscribe ----------

  /** Nothing is offered to a closed channel; its reader may still drain it. */
  lemma ClosedIsLeftAlone(b: Bus, op: Op, ch: nat)
    requires CanApply(b, op) && WellFormed(b) && ch < |b.chans| && b.chans[ch].closed
    ensures var b' := ApplyOp(b, op); ch < |b'.chans| && b'.chans[ch].closed && b'.chans[ch].log == b.chans[ch].log
    ensures Inflow(ApplyOp(b, op).chans[ch]) == Inflow(b.chans[ch])
  {
    if op.Notify? {
      NotifyKeepsWellFormed(b, op.payload);
    } else if op.Recv? {
      var c := b.chans[op.ch];
      assert c.buf != [] ==> (c.received + [c.buf[0]]) + c.buf[1..] == c.received + c.buf;
    }
  }

  lemma {:induction false} LogEndsAtUnsubscribe(buses: seq<Bus>, ops: seq<Op>, u: nat, n: nat)
    requires Runs(buses, ops) && Disciplined(buses, ops) && u < n <= |ops| && ops[u].Unsub?
    ensures var ch := ops[u].ch;
            && ch < |buses[u].chans| && ch < |buses[n].chans|
            && buses[n].chans[ch].closed && buses[n].chans[ch].log == buses[u].chans[ch].log
            && Inflow(buses[n].chans[ch]) == Inflow(buses[u].chans[ch])
  {
    assert StepAt(buses, ops, n - 1);
    if n == u + 1 {
    } else {
      LogEndsAtUnsubscribe(buses, ops, u, n - 1);
      RunIsWellFormed(buses, ops, n - 1);
      ClosedIsLeftAlone(buses[n - 1], ops[n - 1], ops[u].ch);
    }
  }

  /** A channel is returned by one Subscribe only. */
  lemma ReturnedOnce(buses: seq<Bus>, ops: seq<Op>, i: nat, j: nat, id: string, other: string, ch: nat)
    requires Runs(buses, ops) && Returned(buses, ops, i, id, ch) && Returned(buses, ops, j, other, ch)
    ensures i == j && id == other
  {
    assert StepAt(buses, ops, i) && StepAt(buses, ops, j);
    if i < j {
      ChannelsGrow(buses, ops, i + 1, j);
    } else if j < i {
      ChannelsGrow(buses, ops, j + 1, i);
    }
  }

  /** In a disciplined run the Unsubscribe of a channel finds it registered under its id. */
  lemma RegisteredUntilUnsubscribe(buses: seq<Bus>, ops: seq<Op>, j: nat, u: nat, id: string, ch: nat)
    requires Runs(buses, ops) && Disciplined(buses, ops) && Returned(buses, ops, j, id, ch)
    requires u < |ops| && ops[u].Unsub? && ops[u].ch == ch
    ensures j < u && ops[u].id == id && Subscription(id, ch) in buses[u].registry
  {
    assert MatchedUnsubscribe(buses, ops, u);
    var i: nat :| i < u && Returned(buses, ops, i, ops[u].id, ch);
    ReturnedOnce(buses, ops, i, j, ops[u].id, id, ch);
    RunIsWellFormed(buses, ops, u);
  }

  /** For a channel since closed, received and buffer are the events dispatched for its id between its
      Subscribe and its Unsubscribe, in order, without those that met a full buffer. */
  lemma ClosedStreamFidelity(buses: seq<Bus>, ops: seq<Op>, j: nat, u: nat, n: nat, id: string, ch: nat)
    requires Runs(buses, ops) && Disciplined(buses, ops) && Returned(buses, ops, j, id, ch)
    requires u < n <= |ops| && ops[u].Unsub? && ops[u].ch == ch
    ensures j < u && ch < |buses[n].chans|
    ensures var c := buses[n].chans[ch];
            && c.closed && Events(c.log) == DispatchedFor(ops[j + 1..u], id)
            && c.received + c.buf == Kept(c.log) && |c.buf| <= 10
            && c.received + c.buf == Admitted(buses, ops, j, u, id, ch)
  {
    RegisteredUntilUnsubscribe(buses, ops, j, u, id, ch);
    OfferedSinceSubscribe(buses, ops, j, u, id, ch);
    MissesOnlyWhenFull(buses, ops, j, u, id, ch);
    LogEndsAtUnsubscribe(buses, ops, u, n);
    RunIsFaithful(buses, ops, n);
    assert Faithful(buses[n].chans[ch]);
  }

  // ---------- the gRPC stream ----------

  /** What the stream's select meets next: an event ready to be sent (with the outcome of `stream.Send`) or
      the client going away; and what goes on meanwhile: a dispatch by the listener goroutine, another
      stream that subscribes, and the `k`-th of the other streams leaving. */
  datatype Turn = Notified(payload: string) | Joins(id: string) | Quits(k: nat) | Ready(sendOk: bool) | Disconnected

  datatype Status = OK | InvalidArgument | Internal

  /** Everything received has been sent, but for the last event when its send failed. */
  ghost predicate Forwarded(mine: Channel, id: string, sent: seq<Event>, status: Status) {
    && Faithful(mine)
    && (forall k :: 0 <= k < |mine.log| ==> mine.log[k].event.orderID == id)
    && status != InvalidArgument
    && if status == Internal then mine.received != [] && sent == mine.received[..|mine.received| - 1]
       else sent == mine.received
  }

  /** A stream in its loop beside the `others`, with everything it took out forwarded. */
  ghost predicate Streams(b: Bus, others: seq<Subscription>, id: string, ch: nat, sent: seq<Event>, status: Status) {
    && Subscription(id, ch) in b.registry && Without(b.registry, Subscription(id, ch)) == others
    && ch < |b.chans| && Forwarded(b.chans[ch], id, sent, status)
  }

  ghost predicate Streaming(bus: PgEventBus, others: seq<Subscription>, id: string, ch: nat, sent: seq<Event>, status: Status)
    reads bus, bus.Arrays()
  {
    bus.Valid() && Streams(bus.Abs(), others, id, ch, sent, status)
  }

  /** A subscription to a channel still to be made is not registered yet. */
  lemma NewIsNew(b: Bus, id: string)
    requires WellFormed(b)
    ensures var mine := Subscription(id, |b.chans|);
            mine in b.registry + [mine] && Without(b.registry + [mine], mine) == b.registry
  {
    var mine := Subscription(id, |b.chans|);
    assert (b.registry + [mine])[|b.registry|] == mine;
    assert mine !in b.registry;
    WithoutSnoc(b.registry, mine, mine);
    WithoutAbsent(b.registry, mine);
  }

  lemma StreamStarts(b: Bus, id: string)
    requires WellFormed(b)
    ensures Streams(ApplyOp(b, Sub(id)), b.registry, id, |b.chans|, [], OK)
  {
    NewIsNew(b, id);
    assert Kept([]) == [];
  }

  lemma OfferIsForwarded(mine: Channel, e: Event, sent: seq<Event>, status: Status)
    requires Forwarded(mine, e.orderID, sent, status)
    ensures Forwarded(Offered(mine, e), e.orderID, sent, status)
  {
    OfferedFaithful(mine, e);
  }

  /** A notification meanwhile leaves the stream as it was. */
  lemma StreamListens(b: Bus, payload: string, others: seq<Subscription>, id: string, ch: nat, sent: seq<Event>, status: Status)
    requires WellFormed(b) && Streams(b, others, id, ch, sent, status)
    ensures Streams(ApplyOp(b, Notify(payload)), others, id, ch, sent, status)
  {
    NotifyKeepsWellFormed(b, payload);
    if Parse(payload).Some? {
      var e := Parse(payload).value;
      OnlyOwnId(b, id, ch, e.orderID);
      if e.orderID == id {
        OfferIsForwarded(b.chans[ch], e, sent, status);
      }
    }
  }

  /** So does another stream that subscribes, */
  lemma StreamBesideNew(b: Bus, other: string, others: seq<Subscription>, id: string, ch: nat, sent: seq<Event>, status: Status)
    requires WellFormed(b) && Streams(b, others, id, ch, sent, status)
    ensures Streams(ApplyOp(b, Sub(other)), others + [Subscription(other, |b.chans|)], id, ch, sent, status)
  {
    WithoutSnoc(b.registry, Subscription(other, |b.chans|), Subscription(id, ch));
    var i :| 0 <= i < |b.registry| && b.registry[i] == Subscription(id, ch);
    assert ApplyOp(b, Sub(other)).registry[i] == Subscription(id, ch);
  }

  lemma {:induction false} WithoutCommutes<T>(s: seq<T>, x: T, y: T)
    ensures Without(Without(s, x), y) == Without(Without(s, y), x)
  {
    if s == [] {
    } else {
      var init, last := s[..|s| - 1], s[|s| - 1];
      WithoutCommutes(init, x, y);
      WithoutSnoc(Without(init, x), last, y);
      WithoutSnoc(Without(init, y), last, x);
    }
  }

  /** The channels of two subscriptions differ. */
  lemma OtherChannel(b: Bus, s: Subscription, t: Subscription)
    requires WellFormed(b) && s in b.registry && t in b.registry && s != t
    ensures s.ch != t.ch
  {
    var i :| 0 <= i < |b.registry| && b.registry[i] == s;
    var j :| 0 <= j < |b.registry| && b.registry[j] == t;
  }

  /** and one that leaves. */
  lemma StreamBesideGone(b: Bus, gone: Subscription, others: seq<Subscription>, id: string, ch: nat, sent: seq<Event>, status: Status)
    requires WellFormed(b) && Streams(b, others, id, ch, sent, status) && gone in others
    ensures gone in b.registry && gone.ch < |b.chans|
    ensures forall s :: s in b.registry && s.ch == gone.ch ==> s.orderID == gone.orderID
    ensures Streams(ApplyOp(b, Unsub(gone.orderID, gone.ch)), Without(others, gone), id, ch, sent, status)
  {
    var mine := Subscription(id, ch);
    WithoutMembers(b.registry, mine);
    WithoutMembers(b.registry, gone);
    WithoutCommutes(b.registry, mine, gone);
    OtherChannel(b, mine, gone);
    forall s | s in b.registry && s.ch == gone.ch
      ensures s.orderID == gone.orderID
    {
      if s != gone {
        OtherChannel(b, s, gone);
      }
    }
  }

  /** Unsubscribing leaves the other subscriptions, and what was forwarded. */
  lemma StreamEnds(b: Bus, others: seq<Subscription>, id: string, ch: nat, sent: seq<Event>, status: Status)
    requires WellFormed(b) && Streams(b, others, id, ch, sent, status)
    ensures var b' := ApplyOp(b, Unsub(id, ch));
            b'.registry == others && |b'.chans| == |b.chans| && b'.chans[ch].closed && Forwarded(b'.chans[ch], id, sent, status)
    ensures forall s :: s in b.registry && s.ch == ch ==> s.orderID == id
  {
    forall s | s in b.registry && s.ch == ch
      ensures s.orderID == id
    {
      OnlyOwnId(b, id, ch, s.orderID);
    }
  }

  /** The event of a payload for `id`, cut at the first colon. */
  function EventFor(payload: string, id: string): seq<Event> {
    if |id| < |payload| && payload[..|id|] == id && ':' !in id && payload[|id|] == ':'
    then [Event(id, payload[|id| + 1..])] else []
  }

  lemma ParseFor(payload: string, id: string)
    ensures EventFor(payload, id) ==
            if Parse(payload).Some? && Parse(payload).value.orderID == id then [Parse(payload).value] else []
  {
    var i := IndexOfColon(payload);
    if Parse(payload).Some? && payload[..i] == id {
      assert ':' !in id && |id| == i;
    } else if EventFor(payload, id) != [] {
      ParseCutsAt(payload, |id|);
    }
  }

  /** The listener dispatches while the stream is waiting. */
  method Listen(bus: PgEventBus, payload: string, ghost others: seq<Subscription>, id: string, ch: nat,
                sent: seq<Event>, status: Status)
    requires Streaming(bus, others, id, ch, sent, status)
    modifies bus`chans
    ensures Streaming(bus, others, id, ch, sent, status)
    ensures var buf := old(bus.chans[ch].buf);
            bus.chans[ch].buf == if |buf| < 10 then buf + EventFor(payload, id) else buf
  {
    ParseFor(payload, id);
    NotifyKeepsWellFormed(bus.Abs(), payload);
    if Parse(payload).Some? {
      OnlyOwnId(bus.Abs(), id, ch, Parse(payload).value.orderID);
    }
    StreamListens(bus.Abs(), payload, others, id, ch, sent, status);
    bus.Dispatch(payload);
  }

  /** Another stream subscribes meanwhile. */
  method Join(bus: PgEventBus, other: string, others: seq<Subscription>, id: string, ch: nat, sent: seq<Event>, status: Status)
      returns (others': seq<Subscription>)
    requires Streaming(bus, others, id, ch, sent, status)
    modifies bus, bus.Arrays()
    ensures Streaming(bus, others', id, ch, sent, status) && fresh(bus.Arrays() - old(bus.Arrays()))
    ensures others' == others + [Subscription(other, |old(bus.chans)|)] && bus.chans[ch] == old(bus.chans[ch])
  {
    StreamBesideNew(bus.Abs(), other, others, id, ch, sent, status);
    var c := bus.Subscribe(other);
    return others + [Subscription(other, c)];
  }

  /** Another stream leaves meanwhile. */
  method Quit(bus: PgEventBus, k: nat, others: seq<Subscription>, id: string, ch: nat, sent: seq<Event>, status: Status)
      returns (others': seq<Subscription>)
    requires Streaming(bus, others, id, ch, sent, status)
    modifies bus, bus.Arrays()
    ensures Streaming(bus, others', id, ch, sent, status) && fresh(bus.Arrays() - old(bus.Arrays()))
    ensures others' == (if k < |others| then Without(others, others[k]) else others) && bus.chans[ch] == old(bus.chans[ch])
  {
    if k >= |others| {
      return others;
    }
    StreamBesideGone(bus.Abs(), others[k], others, id, ch, sent, status);
    var panicked := bus.Unsubscribe(others[k].orderID, others[k].ch);
    return Without(others, others[k]);
  }

  /** The event branch of the select: take the oldest event, if there is one, and send it; a failed send
      ends the call. */
  method Forward(bus: PgEventBus, sendOk: bool, ghost others: seq<Subscription>, id: string, ch: nat, sent: seq<Event>)
      returns (sent': seq<Event>, status: Status)
    requires Streaming(bus, others, id, ch, sent, OK)
    modifies bus`chans
    ensures Streaming(bus, others, id, ch, sent', status)
    ensures var buf := old(bus.chans[ch].buf);
            if buf == [] then sent' == sent && status == OK && bus.chans[ch].buf == []
            else
              && bus.chans[ch].buf == buf[1..]
              && (if sendOk then sent' == sent + [buf[0]] && status == OK else sent' == sent && status == Internal)
  {
    TakenFaithful(bus.chans[ch]);
    sent', status := sent, OK;
    var event := bus.Receive(ch);
    if event.Some? {
      if !sendOk {
        return sent', Internal;
      }
      sent' := sent + [event.value];
    }
  }

  /** A stream as its client sees it: unread events, events sent, and how it stands. */
  datatype Flow = Flow(buf: seq<Event>, sent: seq<Event>, status: Status)

  /** What one turn does to the stream. Other streams that come and go do nothing to it. */
  function FlowAfter(id: string, f: Flow, turn: Turn): Flow {
    match turn
    case Notified(payload) => if |f.buf| < 10 then f.(buf := f.buf + EventFor(payload, id)) else f
    case Ready(sendOk) =>
      if f.buf == [] then f
      else if sendOk then Flow(f.buf[1..], f.sent + [f.buf[0]], f.status)
      else Flow(f.buf[1..], f.sent, Internal)
    case _ => f
  }

  /** The stream to the end of the script, or to where it ends: at a disconnection or a failed send. */
  function FlowOf(id: string, f: Flow, script: seq<Turn>): Flow
    decreases |script|
  {
    if script == [] || script[0].Disconnected? || f.status != OK then f
    else FlowOf(id, FlowAfter(id, f, script[0]), script[1..])
  }

  /** All events of a script for `id`. */
  function EventsOf(script: seq<Turn>, id: string): seq<Event>
    decreases |script|
  {
    if script == [] then []
    else (if script[0].Notified? then EventFor(script[0].payload, id) else []) + EventsOf(script[1..], id)
  }

  /** Every send succeeds, and the client stays. */
  predicate Smooth(script: seq<Turn>) {
    forall i :: 0 <= i < |script| ==> !script[i].Disconnected? && (script[i].Ready? ==> script[i].sendOk)
  }

  /** As long as at most ten events come in, none is dropped: they are sent in order, and the rest is unread. */
  lemma {:induction false} NothingDropped(id: string, f: Flow, script: seq<Turn>)
    requires f.status == OK && Smooth(script) && |f.buf| + |EventsOf(script, id)| <= 10
    ensures var r := FlowOf(id, f, script);
            r.status == OK && r.sent + r.buf == f.sent + f.buf + EventsOf(script, id)
    decreases |script|
  {
    if script == [] {
    } else {
      var f1 := FlowAfter(id, f, script[0]);
      var now := if script[0].Notified? then EventFor(script[0].payload, id) else [];
      assert f1.sent + f1.buf == f.sent + f.buf + now;
      NothingDropped(id, f1, script[1..]);
      assert f.sent + f.buf + now + EventsOf(script[1..], id) == f.sent + f.buf + EventsOf(script, id);
    }
  }

  /** A client that is ready as often as there are events unread has been sent all of them. */
  lemma {:induction false} ReadyDrains(id: string, f: Flow, script: seq<Turn>)
    requires f.status == OK && |f.buf| <= |script| && forall i :: 0 <= i < |script| ==> script[i] == Ready(true)
    ensures FlowOf(id, f, script) == Flow([], f.sent + f.buf, OK)
    decreases |script|
  {
    if script == [] {
    } else {
      ReadyDrains(id, FlowAfter(id, f, script[0]), script[1..]);
    }
  }

  /** A dispatched status reaches the client. */
  lemma StatusIsSent()
    ensures FlowOf("o", Flow([], [], OK), [Notified("o:Paid"), Ready(true), Disconnected]) == Flow([], [Event("o", "Paid")], OK)
  {
    var start := Flow([], [], OK);
    assert EventFor("o:Paid", "o") == [Event("o", "Paid")];
    assert FlowOf("o", start, [Notified("o:Paid"), Ready(true), Disconnected])
        == FlowOf("o", Flow([Event("o", "Paid")], [], OK), [Ready(true), Disconnected])
        == FlowOf("o", Flow([], [Event("o", "Paid")], OK), [Disconnected]);
  }

  /** The tenth unread event is kept, an eleventh is not. */
  lemma EleventhIsDropped(nine: seq<Event>, e: Event)
    requires |nine| == 9
    ensures FlowOf("o", Flow(nine, [], OK), [Notified("o:Paid")]) == Flow(nine + [Event("o", "Paid")], [], OK)
    ensures FlowOf("o", Flow(nine + [e], [], OK), [Notified("o:Paid")]) == Flow(nine + [e], [], OK)
  {
    assert EventFor("o:Paid", "o") == [Event("o", "Paid")];
    assert forall f: Flow :: FlowOf("o", f, []) == f;
    assert [Notified("o:Paid")][1..] == [];
  }

  /** One more turn of a stream that goes on. */
  lemma FlowUnfolds(id: string, f: Flow, script: seq<Turn>, i: nat)
    requires i < |script| && !script[i].Disconnected? && f.status == OK
    ensures FlowOf(id, f, script[i..]) == FlowOf(id, FlowAfter(id, f, script[i]), script[i + 1..])
  {
    assert script[i..][1..] == script[i + 1..];
  }

  /** One turn of the stream's loop, or of what goes on beside it. */
  method Proceed(bus: PgEventBus, turn: Turn, others: seq<Subscription>, id: string, ch: nat, sent: seq<Event>)
      returns (others': seq<Subscription>, sent': seq<Event>, status: Status)
    requires Streaming(bus, others, id, ch, sent, OK) && !turn.Disconnected?
    modifies bus, bus.Arrays()
    ensures Streaming(bus, others', id, ch, sent', status) && fresh(bus.Arrays() - old(bus.Arrays()))
    ensures !turn.Joins? && !turn.Quits? ==> others' == others
    ensures Flow(bus.chans[ch].buf, sent', status) == FlowAfter(id, Flow(old(bus.chans[ch].buf), sent, OK), turn)
  {
    others', sent', status := others, sent, OK;
    match turn {
      case Notified(payload) =>
        Listen(bus, payload, others, id, ch, sent, OK);
      case Joins(other) =>
        others' := Join(bus, other, others, id, ch, sent, OK);
      case Quits(k) =>
        others' := Quit(bus, k, others, id, ch, sent, OK);
      case Ready(sendOk) =>
        sent', status := Forward(bus, sendOk, others, id, ch, sent);
    }
  }

  predicate Alone(script: seq<Turn>) {
    forall i :: 0 <= i < |script| ==> !script[i].Joins? && !script[i].Quits?
  }

  /** The select loop, to a disconnection or a failed send (or the end of the script). */
  method Serve(bus: PgEventBus, others: seq<Subscription>, id: string, ch: nat, script: seq<Turn>)
      returns (sent: seq<Event>, status: Status, left: seq<Subscription>)
    requires Streaming(bus, others, id, ch, [], OK)
    modifies bus, bus.Arrays()
    ensures Streaming(bus, left, id, ch, sent, status) && fresh(bus.Arrays() - old(bus.Arrays()))
    ensures Alone(script) ==> left == others
    ensures Flow(bus.chans[ch].buf, sent, status) == FlowOf(id, Flow(old(bus.chans[ch].buf), [], OK), script)
  {
    sent, status, left := [], OK, others;
    ghost var start := Flow(bus.chans[ch].buf, [], OK);
    assert script[0..] == script;
    var i := 0;
    while i < |script| && !script[i].Disconnected? && status == OK
      invariant i <= |script| && Streaming(bus, left, id, ch, sent, status)
      invariant fresh(bus.Arrays() - old(bus.Arrays()))
      invariant Alone(script) ==> left == others
      invariant FlowOf(id, start, script) == FlowOf(id, Flow(bus.chans[ch].buf, sent, status), script[i..])
    {
      FlowUnfolds(id, Flow(bus.chans[ch].buf, sent, OK), script, i);
      left, sent, status := Proceed(bus, script[i], left, id, ch, sent);
      i := i + 1;
    }
  }

  /** The Subscribe at the beginning of a call. */
  method Begin(bus: PgEventBus, others: seq<Subscription>, id: string) returns (ch: nat)
    requires bus.Valid() && bus.registry == others
    modifies bus, bus.Arrays()
    ensures ch == |old(bus.chans)| && Streaming(bus, others, id, ch, [], OK) && bus.chans[ch].buf == []
    ensures fresh(bus.Arrays() - old(bus.Arrays()))
  {
    StreamStarts(bus.Abs(), id);
    ch := bus.Subscribe(id);
  }

  /** The deferred Unsubscribe. */
  method End(bus: PgEventBus, others: seq<Subscription>, id: string, ch: nat, sent: seq<Event>, status: Status)
    requires Streaming(bus, others, id, ch, sent, status)
    modifies bus, bus.Arrays()
    ensures bus.Valid() && bus.registry == others && bus.Arrays() <= old(bus.Arrays())
    ensures ch < |bus.chans| && bus.chans[ch].closed && bus.chans[ch].buf == old(bus.chans[ch].buf)
    ensures Forwarded(bus.chans[ch], id, sent, status)
  {
    StreamEnds(bus.Abs(), others, id, ch, sent, status);
    var panicked := bus.Unsubscribe(id, ch);
  }

  /** `SubscribeToOrderUpdates`: forwards, in order, what its buffer kept of the events dispatched for its
      id, whatever the other streams do meanwhile, and leaves no subscription of its own behind. */
  method SubscribeToOrderUpdates(bus: PgEventBus, others: seq<Subscription>, id: string, script: seq<Turn>)
      returns (sent: seq<Event>, status: Status, left: seq<Subscription>)
    requires bus.Valid() && bus.registry == others
    modifies bus, bus.Arrays()
    ensures bus.Valid() && bus.registry == left && fresh(bus.Arrays() - old(bus.Arrays()))
    ensures Alone(script) ==> left == others
    ensures id == "" ==> status == InvalidArgument && sent == [] && left == others && bus.Abs() == old(bus.Abs())
    ensures id != "" ==>
              && |bus.chans| > |old(bus.chans)|
              && bus.chans[|old(bus.chans)|].closed
              && Flow(bus.chans[|old(bus.chans)|].buf, sent, status) == FlowOf(id, Flow([], [], OK), script)
              && Forwarded(bus.chans[|old(bus.chans)|], id, sent, status)
  {
    if id == "" {
      return [], InvalidArgument, others;
    }
    var ch := Begin(bus, others, id);
    sent, status, left := Serve(bus, others, id, ch, script);
    End(bus, left, id, ch, sent, status);
  }
}
