/**
 The gRPC server: any number of concurrent SubscribeToOrderUpdates calls on one event bus. Each call
 subscribes once, takes events from its own channel and sends them, and unsubscribes that channel at
 its end. Every interleaving of such calls with the listener is a disciplined run of the bus.
 */
module OrderServer {
  import opened EventBus
  import opened OrderStream

  /** A call that has subscribed: what it has sent, whether its last send failed, and whether its
      deferred Unsubscribe has run. */
  datatype Call = Call(id: string, sent: seq<Event>, failed: bool, ended: bool)

  /** The `k`-th call to subscribe reads the `k`-th channel of the bus. */
  datatype Server = Server(bus: Bus, calls: seq<Call>)

  /** A call subscribes, takes an event and sends it (or fails to), or leaves: after a failed send, or
      because its client is gone. Or the listener dispatches a notification. */
  datatype Action = Arrives(id: string) | Takes(k: nat, sendOk: bool) | Leaves(k: nat, id: string) | Dispatches(payload: string)

  function OpOf(e: Action): Op {
    match e
    case Arrives(id) => Sub(id)
    case Takes(k, _) => Recv(k)
    case Leaves(k, id) => Unsub(id, k)
    case Dispatches(payload) => Notify(payload)
  }

  /** What the code lets happen next, by the state of the calls alone. */
  predicate Enabled(s: Server, e: Action) {
    match e
    case Arrives(id) => id != ""
    case Takes(k, _) => k < |s.calls| && !s.calls[k].ended && !s.calls[k].failed && k < |s.bus.chans| && s.bus.chans[k].buf != []
    case Leaves(k, id) => k < |s.calls| && !s.calls[k].ended && s.calls[k].id == id
    case Dispatches(_) => true
  }

  function CallsAfter(s: Server, e: Action): seq<Call>
    requires Enabled(s, e)
  {
    match e
    case Arrives(id) => s.calls + [Call(id, [], false, false)]
    case Takes(k, sendOk) =>
      var c := s.calls[k];
      s.calls[k := if sendOk then c.(sent := c.sent + [s.bus.chans[k].buf[0]]) else c.(failed := true)]
    case Leaves(k, _) => s.calls[k := s.calls[k].(ended := true)]
    case Dispatches(_) => s.calls
  }

  ghost predicate ServerStep(s: Server, e: Action, s': Server) {
    Enabled(s, e) && Follows(s.bus, OpOf(e), s'.bus) && s'.calls == CallsAfter(s, e)
  }

  // ---------- what every step keeps ----------

  /** What the call took out of its channel it has sent, but for the last event when that send failed. */
  ghost predicate Passed(c: Call, mine: Channel) {
    if c.failed then mine.received != [] && c.sent == mine.received[..|mine.received| - 1] else c.sent == mine.received
  }

  ghost predicate Inv(s: Server) {
    && WellFormed(s.bus) && |s.calls| == |s.bus.chans|
    && (forall k: nat :: k < |s.calls| ==> Passed(s.calls[k], s.bus.chans[k]))
    && (forall k: nat :: k < |s.calls| && !s.calls[k].ended ==> Subscription(s.calls[k].id, k) in s.bus.registry)
  }

  /** In such a state every event the code allows is one the bus can take, and none panics. */
  lemma NoPanic(s: Server, e: Action)
    requires Inv(s) && Enabled(s, e)
    ensures CanApply(s.bus, OpOf(e)) && !Panics(s.bus, OpOf(e))
  {
    match e
    case Dispatches(payload) => NotifyKeepsWellFormed(s.bus, payload);
    case Leaves(k, id) => UnsubKeepsWellFormed(s.bus, id, k);
    case _ =>
  }

  /** A subscribed channel is subscribed under one id only. */
  lemma OneId(s: Server, k: nat)
    requires Inv(s) && k < |s.calls| && !s.calls[k].ended
    ensures forall r :: r in s.bus.registry && r.ch == k ==> r.orderID == s.calls[k].id
  {
    forall r | r in s.bus.registry && r.ch == k
      ensures r.orderID == s.calls[k].id
    {
      OnlyOwnId(s.bus, s.calls[k].id, k, r.orderID);
    }
  }

  lemma LeavesKeepsInv(s: Server, k: nat, id: string, s': Server)
    requires Inv(s) && ServerStep(s, Leaves(k, id), s')
    ensures Inv(s')
  {
    OneId(s, k);
    UnsubKeepsWellFormed(s.bus, id, k);
    WithoutMembers(s.bus.registry, Subscription(id, k));
  }

  lemma DispatchKeepsInv(s: Server, payload: string, s': Server)
    requires Inv(s) && ServerStep(s, Dispatches(payload), s')
    ensures Inv(s')
  {
    NotifyKeepsWellFormed(s.bus, payload);
    forall k: nat | k < |s'.calls|
      ensures Passed(s'.calls[k], s'.bus.chans[k])
    {
      assert Passed(s.calls[k], s.bus.chans[k]);
    }
  }

  lemma ArrivesKeepsInv(s: Server, id: string, s': Server)
    requires Inv(s) && ServerStep(s, Arrives(id), s')
    ensures Inv(s')
  {
    SubKeepsWellFormed(s.bus, id);
    assert s'.bus.registry[|s.bus.registry|] == Subscription(id, |s.bus.chans|);
    forall k: nat | k < |s'.calls| && !s'.calls[k].ended
      ensures Subscription(s'.calls[k].id, k) in s'.bus.registry
    {
      if k < |s.calls| {
        assert Subscription(s.calls[k].id, k) in s.bus.registry;
      }
    }
  }

  lemma TakesKeepsInv(s: Server, k: nat, sendOk: bool, s': Server)
    requires Inv(s) && ServerStep(s, Takes(k, sendOk), s')
    ensures Inv(s')
  {
    assert Passed(s.calls[k], s.bus.chans[k]);
    var received := s'.bus.chans[k].received;
    assert received[..|received| - 1] == s.bus.chans[k].received;
  }

  lemma InvStep(s: Server, e: Action, s': Server)
    requires Inv(s) && ServerStep(s, e, s')
    ensures Inv(s')
  {
    match e
    case Arrives(id) => ArrivesKeepsInv(s, id, s');
    case Takes(k, sendOk) => TakesKeepsInv(s, k, sendOk, s');
    case Leaves(k, id) => LeavesKeepsInv(s, k, id, s');
    case Dispatches(payload) => DispatchKeepsInv(s, payload, s');
  }

  // ---------- whole runs ----------

  ghost predicate StepIn(states: seq<Server>, events: seq<Action>, i: nat)
    requires |states| == |events| + 1 && i < |events|
  {
    ServerStep(states[i], events[i], states[i + 1])
  }

  ghost predicate ServerRun(states: seq<Server>, events: seq<Action>) {
    && |states| == |events| + 1 && states[0] == Server(Bus([], []), [])
    && forall i: nat :: i < |events| ==> StepIn(states, events, i)
  }

  lemma {:induction false} InvHolds(states: seq<Server>, events: seq<Action>, n: nat)
    requires ServerRun(states, events) && n < |states|
    ensures Inv(states[n])
  {
    if n == 0 {
    } else {
      InvHolds(states, events, n - 1);
      assert StepIn(states, events, n - 1);
      InvStep(states[n - 1], events[n - 1], states[n]);
    }
  }

  /** However the calls interleave, no send and no close ever hits a closed channel. */
  lemma ServerNeverPanics(states: seq<Server>, events: seq<Action>, n: nat, next: Action)
    requires ServerRun(states, events) && n < |states| && Enabled(states[n], next)
    ensures CanApply(states[n].bus, OpOf(next)) && !Panics(states[n].bus, OpOf(next))
  {
    InvHolds(states, events, n);
    NoPanic(states[n], next);
  }

  function Buses(states: seq<Server>): seq<Bus> {
    seq(|states|, (i: nat) requires i < |states| => states[i].bus)
  }

  function Ops(events: seq<Action>): seq<Op> {
    seq(|events|, (i: nat) requires i < |events| => OpOf(events[i]))
  }

  /** Each call goes back to one Subscribe, which returned its channel. */
  lemma {:induction false} Born(states: seq<Server>, events: seq<Action>, n: nat, k: nat) returns (j: nat)
    requires ServerRun(states, events) && n < |states| && k < |states[n].calls|
    ensures j < n && events[j] == Arrives(states[n].calls[k].id) && |states[j].bus.chans| == k
  {
    if n == 0 {
      assert false;
    } else {
      InvHolds(states, events, n - 1);
      assert StepIn(states, events, n - 1);
      if k < |states[n - 1].calls| {
        j := Born(states, events, n - 1, k);
      } else {
        j := n - 1;
      }
    }
  }

  lemma EndedStep(s: Server, e: Action, s': Server, k: nat)
    requires ServerStep(s, e, s') && k < |s.calls| && s.calls[k].ended
    ensures k < |s'.calls| && s'.calls[k] == s.calls[k]
  {
  }

  /** A call that has ended does not come back. */
  lemma {:induction false} EndedStays(states: seq<Server>, events: seq<Action>, i: nat, n: nat, k: nat)
    requires ServerRun(states, events) && i <= n < |states| && k < |states[i].calls| && states[i].calls[k].ended
    ensures k < |states[n].calls| && states[n].calls[k] == states[i].calls[k]
  {
    if i == n {
    } else {
      EndedStays(states, events, i, n - 1, k);
      assert StepIn(states, events, n - 1);
      EndedStep(states[n - 1], events[n - 1], states[n], k);
    }
  }

  lemma LeavesOnce(states: seq<Server>, events: seq<Action>, i: nat, j: nat)
    requires ServerRun(states, events) && i < j < |events| && events[i].Leaves? && events[j].Leaves?
    ensures events[i].k != events[j].k
  {
    assert StepIn(states, events, i) && StepIn(states, events, j);
    if events[i].k == events[j].k {
      EndedStays(states, events, i + 1, j, events[i].k);
      assert false;
    }
  }

  lemma UnsubscribesMatch(states: seq<Server>, events: seq<Action>, i: nat)
    requires ServerRun(states, events) && i < |events|
    ensures MatchedUnsubscribe(Buses(states), Ops(events), i)
  {
    if events[i].Leaves? {
      assert StepIn(states, events, i);
      var j := Born(states, events, i, events[i].k);
      assert Returned(Buses(states), Ops(events), j, events[i].id, events[i].k);
      forall m | 0 <= m < |events| && m != i && Ops(events)[m].Unsub?
        ensures Ops(events)[m].ch != Ops(events)[i].ch
      {
        if m < i {
          LeavesOnce(states, events, m, i);
        } else {
          LeavesOnce(states, events, i, m);
        }
      }
    }
  }

  /** Every interleaving of any number of calls is a disciplined run of the bus. */
  lemma ServerIsDisciplined(states: seq<Server>, events: seq<Action>)
    requires ServerRun(states, events)
    ensures Runs(Buses(states), Ops(events)) && Disciplined(Buses(states), Ops(events))
  {
    forall i: nat | i < |events|
      ensures StepAt(Buses(states), Ops(events), i)
    {
      assert StepIn(states, events, i);
    }
    forall i: nat | i < |events|
      ensures MatchedUnsubscribe(Buses(states), Ops(events), i)
    {
      UnsubscribesMatch(states, events, i);
    }
  }

  /** When the call left, if it has. */
  lemma {:induction false} LeftAt(states: seq<Server>, events: seq<Action>, n: nat, k: nat) returns (u: nat)
    requires ServerRun(states, events) && n < |states| && k < |states[n].calls| && states[n].calls[k].ended
    ensures u < n && events[u].Leaves? && events[u].k == k
  {
    if n == 0 {
      assert false;
    } else {
      assert StepIn(states, events, n - 1);
      if k < |states[n - 1].calls| && states[n - 1].calls[k].ended {
        u := LeftAt(states, events, n - 1, k);
      } else {
        u := n - 1;
      }
    }
  }

  /** The events a call was offered: those dispatched for its id from its Subscribe to its end. */
  ghost predicate OfferedBetween(states: seq<Server>, events: seq<Action>, n: nat, k: nat, j: nat, u: nat)
    requires |states| == |events| + 1 && n < |states| && k < |states[n].calls| && k < |states[n].bus.chans|
    requires j < u <= |events|
  {
    && events[j] == Arrives(states[n].calls[k].id)
    && Events(states[n].bus.chans[k].log) == DispatchedFor(Ops(events)[j + 1..u], states[n].calls[k].id)
    && states[n].bus.chans[k].received + states[n].bus.chans[k].buf
       == Admitted(Buses(states), Ops(events), j, u, states[n].calls[k].id, k)
    && (if states[n].calls[k].ended then u < n && events[u].Leaves? && events[u].k == k else u == n)
  }

  lemma Offered(states: seq<Server>, events: seq<Action>, n: nat, k: nat) returns (j: nat, u: nat)
    requires ServerRun(states, events) && n < |states| && k < |states[n].calls| && k < |states[n].bus.chans|
    ensures j < u <= n && OfferedBetween(states, events, n, k, j, u) && Faithful(states[n].bus.chans[k])
  {
    var buses, ops := Buses(states), Ops(events);
    ServerIsDisciplined(states, events);
    InvHolds(states, events, n);
    j := Born(states, events, n, k);
    assert Returned(buses, ops, j, states[n].calls[k].id, k);
    if states[n].calls[k].ended {
      u := LeftAt(states, events, n, k);
      ClosedStreamFidelity(buses, ops, j, u, n, states[n].calls[k].id, k);
    } else {
      u := n;
      StreamFidelity(buses, ops, j, n, states[n].calls[k].id, k);
      MissesOnlyWhenFull(buses, ops, j, n, states[n].calls[k].id, k);
    }
    RunIsFaithful(buses, ops, n);
    assert Faithful(buses[n].chans[k]);
  }

  /** For every call, in every interleaving: what it has sent (and the event its failed send lost, if any)
      followed by what is left in its buffer is the sequence of the events dispatched for its id from its
      Subscribe to its end, in order, without those dispatched while ten lay unread. */
  lemma EveryClientIsServed(states: seq<Server>, events: seq<Action>, n: nat, k: nat) returns (j: nat, u: nat)
    requires ServerRun(states, events) && n < |states| && k < |states[n].calls|
    ensures k < |states[n].bus.chans| && j < u <= n && OfferedBetween(states, events, n, k, j, u)
    ensures var call, mine := states[n].calls[k], states[n].bus.chans[k];
            && (if call.failed then |mine.received| == |call.sent| + 1 && call.sent <= mine.received else call.sent == mine.received)
            && mine.received + mine.buf == Admitted(Buses(states), Ops(events), j, u, call.id, k)
            && mine.received + mine.buf == Kept(mine.log) && |mine.buf| <= 10
  {
    InvHolds(states, events, n);
    assert Passed(states[n].calls[k], states[n].bus.chans[k]);
    j, u := Offered(states, events, n, k);
  }
}
