/**
 What every step of the order protocol keeps: histories only grow, leave Pending for good,
 and every status read, cached or shown is one the row really had at the time of its read.
 */
module OrderHistory {
  import opened Faults
  import opened Orders
  import opened OrderProtocol

  // ---------- rows ----------

  ghost predicate RowOK(r: Row, now: nat) {
    && r.log != [] && r.log[0].status == Pending
    && (forall i :: 1 <= i < |r.log| ==> r.log[i].status != Pending)
    && (forall i, j :: 0 <= i < j < |r.log| ==> r.log[i].at <= r.log[j].at)
    && (forall i :: 0 <= i < |r.log| ==> r.log[i].at <= now)
  }

  ghost predicate RowsOK(s: State) {
    forall id :: id in s.rows ==> RowOK(s.rows[id], s.now)
  }

  /** A row is unchanged or has one more status, written now and not Pending. */
  ghost predicate RowGrows(r: Row, r': Row, now: nat) {
    && r'.key == r.key && r'.amount == r.amount
    && (r'.log == r.log ||
        (|r'.log| == |r.log| + 1 && r'.log[..|r.log|] == r.log && r'.log[|r.log|].at == now && r'.log[|r.log|].status != Pending))
  }

  ghost predicate RowsGrow(s: State, s': State) {
    && s.now <= s'.now
    && forall id :: id in s.rows ==> id in s'.rows && RowGrows(s.rows[id], s'.rows[id], s.now)
  }

  lemma InsertGrows(ttl: int, s: State, p: nat, id: string, fault: Fault)
    requires RowsOK(s) && Enabled(s, InsertRow(p, id, fault))
    ensures RowsGrow(s, Apply(ttl, s, InsertRow(p, id, fault))) && RowsOK(Apply(ttl, s, InsertRow(p, id, fault)))
  {
  }

  lemma AppendGrows(r: Row, status: Status, now: nat)
    requires RowOK(r, now) && status != Pending
    ensures var r' := r.(log := r.log + [Write(now, status)]); RowOK(r', now) && RowGrows(r, r', now)
  {
  }

  lemma UpdateGrows(ttl: int, s: State, p: nat, fault: Fault)
    requires RowsOK(s) && Enabled(s, Update(p, fault))
    ensures RowsGrow(s, Apply(ttl, s, Update(p, fault))) && RowsOK(Apply(ttl, s, Update(p, fault)))
  {
    var id, status := s.procs[p].id, StatusToWrite(s.procs[p]);
    assert Apply(ttl, s, Update(p, fault)).rows == Written(s, id, status, fault);
    forall i | i in s.rows
      ensures RowOK(Written(s, id, status, fault)[i], s.now) && RowGrows(s.rows[i], Written(s, id, status, fault)[i], s.now)
    {
      AppendGrows(s.rows[i], status, s.now);
    }
  }

  lemma OthersKeepRows(ttl: int, s: State, a: Step)
    requires Enabled(s, a) && !a.InsertRow? && !a.Update?
    ensures Apply(ttl, s, a).rows == s.rows && s.now <= Apply(ttl, s, a).now
  {
    match a
    case Tick(_) =>
    case Evict(_) =>
    case DirectPayment(_, _) =>
    case Serve(_, _) =>
    case Start(_, _) =>
    case LookupKey(_, _) =>
    case CallGateway(_) =>
    case Receive(_) =>
    case Timeout(_) =>
    case Delete(_, _) =>
    case Set(_, _) =>
    case CacheGet(_, _) =>
    case Read(_, _) =>
    case Crash(_) =>
  }

  lemma RowsStep(ttl: int, s: State, a: Step)
    requires RowsOK(s) && Enabled(s, a)
    ensures RowsGrow(s, Apply(ttl, s, a)) && RowsOK(Apply(ttl, s, a))
  {
    match a
    case InsertRow(p, id, fault) => InsertGrows(ttl, s, p, id, fault);
    case Update(p, fault) => UpdateGrows(ttl, s, p, fault);
    case _ =>
      OthersKeepRows(ttl, s, a);
      forall id | id in s.rows
        ensures RowOK(s.rows[id], Apply(ttl, s, a).now)
      {
        assert RowOK(s.rows[id], s.now);
      }
  }

  /** The traffic with the payment service. */
  lemma OthersKeepGateway(ttl: int, s: State, a: Step)
    requires Enabled(s, a) && !a.Serve?
    ensures Apply(ttl, s, a).replies == s.replies
    ensures !a.CallGateway? ==> Apply(ttl, s, a).rpcs == s.rpcs
  {
    match a
    case Tick(_) =>
    case Evict(_) =>
    case DirectPayment(_, _) =>
    case Start(_, _) =>
    case LookupKey(_, _) =>
    case InsertRow(_, _, _) =>
    case CallGateway(_) =>
    case Receive(_) =>
    case Timeout(_) =>
    case Update(_, _) =>
    case Delete(_, _) =>
    case Set(_, _) =>
    case CacheGet(_, _) =>
    case Read(_, _) =>
    case Crash(_) =>
  }

  // ---------- snapshots ----------

  /** The snapshot's status was the row's from its write until, at least, the time it was read. */
  ghost predicate SnapOK(s: State, id: string, snap: Snapshot) {
    && id in s.rows
    && 1 <= snap.version <= |s.rows[id].log|
    && s.rows[id].log[snap.version - 1].status == snap.status
    && s.rows[id].log[snap.version - 1].at <= snap.readAt <= s.now
    && (snap.version < |s.rows[id].log| ==> snap.readAt <= s.rows[id].log[snap.version].at)
  }

  lemma SnapStays(s: State, s': State, id: string, snap: Snapshot)
    requires RowsGrow(s, s') && SnapOK(s, id, snap)
    ensures SnapOK(s', id, snap)
  {
    var log, log' := s.rows[id].log, s'.rows[id].log;
    assert RowGrows(s.rows[id], s'.rows[id], s.now);
    assert log' == log || log'[..|log|][snap.version - 1] == log'[snap.version - 1];
    assert log' == log || snap.version == |log| || log'[..|log|][snap.version] == log'[snap.version];
  }

  ghost predicate ProcOK(s: State, p: Proc) {
    && (Creating(p) || InBetween(p) ==> p.id in s.rows || (p.Invalidate? && !p.creates))
    && (p.Fill? || p.SetPaid? ==> SnapOK(s, p.id, p.snap))
    && (p.SetPaid? ==> p.snap.status == Paid)
  }

  ghost predicate ProcsOK(s: State) {
    forall p :: 0 <= p < |s.procs| ==> ProcOK(s, s.procs[p])
  }

  ghost predicate CacheOK(s: State) {
    forall id :: id in s.cache ==> SnapOK(s, id, s.cache[id].snap) && s.cache[id].setAt <= s.now
  }

  ghost predicate SeenOK(s: State) {
    forall i :: 0 <= i < |s.seen| ==> SnapOK(s, s.seen[i].id, s.seen[i].snap) && s.seen[i].at <= s.now
  }

  ghost predicate Inv(s: State) {
    RowsOK(s) && ProcsOK(s) && CacheOK(s) && SeenOK(s)
  }

  lemma ProcStays(s: State, s': State, p: Proc)
    requires RowsGrow(s, s') && ProcOK(s, p)
    ensures ProcOK(s', p)
  {
    if p.Fill? || p.SetPaid? {
      SnapStays(s, s', p.id, p.snap);
    }
  }

  predicate ByProc(a: Step) {
    !a.Tick? && !a.Evict? && !a.DirectPayment? && !a.Serve?
  }

  /** Only the acting process moves. */
  lemma OnlyActorMoves(ttl: int, s: State, a: Step)
    requires Enabled(s, a)
    ensures var s' := Apply(ttl, s, a);
            if ByProc(a) then a.p < |s.procs| == |s'.procs| && s'.procs == s.procs[a.p := s'.procs[a.p]]
            else s'.procs == s.procs
  {
  }

  /** A snapshot taken now is sound. */
  lemma PresentIsOK(s: State, id: string)
    requires RowsOK(s) && id in s.rows
    ensures s.rows[id].log != [] && SnapOK(s, id, SnapshotOf(s.rows[id], s.now))
  {
    assert RowOK(s.rows[id], s.now);
  }

  lemma AfterUpdateOK(s: State, s': State, p: nat, fault: Fault)
    requires p < |s.procs| && ProcOK(s, s.procs[p]) && Updating(s.procs[p])
    requires RowsOK(s') && s'.now == s.now && s'.rows.Keys == s.rows.Keys
    requires s.procs[p].PayRow? && fault == NoFault && s.procs[p].id in s'.rows && s'.rows[s.procs[p].id].log != []
             ==> Current(s'.rows[s.procs[p].id]) == Paid
    ensures ProcOK(s', AfterUpdate(s, p, s'.rows, fault))
  {
    if s.procs[p].id in s'.rows {
      PresentIsOK(s', s.procs[p].id);
    }
  }

  lemma UpdaterMoves(ttl: int, s: State, p: nat, fault: Fault)
    requires Enabled(s, Update(p, fault))
    ensures var s' := Apply(ttl, s, Update(p, fault));
            && p < |s'.procs| && s'.procs[p] == AfterUpdate(s, p, s'.rows, fault) && s'.now == s.now
            && s'.rows.Keys == s.rows.Keys
  {
  }

  lemma UpdaterOK(ttl: int, s: State, p: nat, fault: Fault)
    requires Inv(s) && Enabled(s, Update(p, fault))
    ensures ProcOK(Apply(ttl, s, Update(p, fault)), Apply(ttl, s, Update(p, fault)).procs[p])
  {
    UpdateGrows(ttl, s, p, fault);
    UpdaterMoves(ttl, s, p, fault);
    AfterUpdateOK(s, Apply(ttl, s, Update(p, fault)), p, fault);
  }

  lemma ReaderOK(ttl: int, s: State, p: nat, fails: bool)
    requires Inv(s) && Enabled(s, Read(p, fails))
    ensures ProcOK(Apply(ttl, s, Read(p, fails)), Apply(ttl, s, Read(p, fails)).procs[p])
  {
    if s.procs[p].id in s.rows {
      PresentIsOK(s, s.procs[p].id);
    }
  }

  predicate Ends(a: Step) {
    a.Delete? || a.Set? || a.Crash? || a.CacheGet? || a.LookupKey? || a.Start?
  }

  /** Beginning and ending a call leaves nothing half done. */
  predicate Quiet(p: Proc) {
    !Creating(p) && !InBetween(p) && !p.Fill?
  }

  lemma EnderIsQuiet(ttl: int, s: State, a: Step)
    requires Enabled(s, a) && Ends(a)
    ensures a.p < |Apply(ttl, s, a).procs| && Quiet(Apply(ttl, s, a).procs[a.p])
  {
    match a
    case Delete(_, _) =>
    case Set(_, _) =>
    case Crash(_) =>
    case CacheGet(_, _) =>
    case LookupKey(_, _) =>
    case Start(_, _) =>
  }

  lemma EnderWritesNothing(ttl: int, s: State, a: Step)
    requires Enabled(s, a) && Ends(a)
    ensures a.p < |Apply(ttl, s, a).procs|
    ensures var p := Apply(ttl, s, a).procs[a.p];
            && !p.CancelRow? && (p.MarkRow? ==> a.Start? && a.op == MarkPaid(p.id))
            && (p.Lookup? || p.Insert? ==> p.amount > 0 || (a.LookupKey? && p.amount == s.procs[a.p].amount))
  {
    match a
    case Delete(_, _) =>
    case Set(_, _) =>
    case Crash(_) =>
    case CacheGet(_, _) =>
    case LookupKey(_, _) =>
    case Start(_, _) =>
  }

  predicate Creates(a: Step) {
    a.InsertRow? || a.CallGateway? || a.Receive? || a.Timeout?
  }

  /** The steps up to the gateway's reply lead to a creator's next command, or end the call. */
  lemma CreatorGoesOn(ttl: int, s: State, a: Step)
    requires Enabled(s, a) && Creates(a)
    ensures a.p < |Apply(ttl, s, a).procs|
    ensures var p := Apply(ttl, s, a).procs[a.p];
            && (p.Idle? || p.Call? || p.Await? || p.PayRow? || p.FailDeclined? || p.FailAfterError?)
            && (p.PayRow? ==> a.Receive? && p.id in s.replies && s.replies[p.id] == Authorized)
  {
  }

  lemma CreatorHasRow(ttl: int, s: State, a: Step)
    requires ProcsOK(s) && Enabled(s, a) && Creates(a)
    ensures a.p < |Apply(ttl, s, a).procs|
    ensures Creating(Apply(ttl, s, a).procs[a.p]) ==> Apply(ttl, s, a).procs[a.p].id in Apply(ttl, s, a).rows
  {
    assert ProcOK(s, s.procs[a.p]);
  }

  lemma CreatorOK(ttl: int, s: State, a: Step)
    requires Inv(s) && Enabled(s, a) && Creates(a)
    ensures a.p < |Apply(ttl, s, a).procs| && ProcOK(Apply(ttl, s, a), Apply(ttl, s, a).procs[a.p])
  {
    CreatorGoesOn(ttl, s, a);
    CreatorHasRow(ttl, s, a);
  }

  lemma ActorOK(ttl: int, s: State, a: Step)
    requires Inv(s) && Enabled(s, a) && ByProc(a)
    ensures a.p < |Apply(ttl, s, a).procs| && ProcOK(Apply(ttl, s, a), Apply(ttl, s, a).procs[a.p])
  {
    if Ends(a) {
      EnderIsQuiet(ttl, s, a);
    } else if a.Update? {
      UpdaterOK(ttl, s, a.p, a.fault);
    } else if a.Read? {
      ReaderOK(ttl, s, a.p, a.fails);
    } else {
      CreatorOK(ttl, s, a);
    }
  }

  lemma ProcsStep(ttl: int, s: State, a: Step)
    requires Inv(s) && Enabled(s, a)
    ensures ProcsOK(Apply(ttl, s, a))
  {
    var s' := Apply(ttl, s, a);
    RowsStep(ttl, s, a);
    OnlyActorMoves(ttl, s, a);
    if ByProc(a) {
      ActorOK(ttl, s, a);
    }
    forall p | 0 <= p < |s'.procs|
      ensures ProcOK(s', s'.procs[p])
    {
      assert ProcOK(s, s.procs[p]);
      ProcStays(s, s', s.procs[p]);
    }
  }

  lemma OthersKeepCache(ttl: int, s: State, a: Step)
    requires Enabled(s, a) && !a.Set? && !a.Delete? && !a.Evict?
    ensures Apply(ttl, s, a).cache == s.cache
  {
    match a
    case Tick(_) =>
    case DirectPayment(_, _) =>
    case Serve(_, _) =>
    case Start(_, _) =>
    case LookupKey(_, _) =>
    case InsertRow(_, _, _) =>
    case CallGateway(_) =>
    case Receive(_) =>
    case Timeout(_) =>
    case Update(_, _) =>
    case CacheGet(_, _) =>
    case Read(_, _) =>
    case Crash(_) =>
  }

  /** A slot is kept or was just set from the acting process's snapshot. */
  lemma CacheChanges(ttl: int, s: State, a: Step, id: string)
    requires Enabled(s, a) && id in Apply(ttl, s, a).cache
    ensures var slot := Apply(ttl, s, a).cache[id];
            || (id in s.cache && s.cache[id] == slot)
            || (a.Set? && s.procs[a.p].id == id && slot.snap == s.procs[a.p].snap && slot.setAt == s.now
                && id in s.rows && (slot.late <==> slot.snap.version < |s.rows[id].log|))
  {
    if !a.Set? && !a.Delete? && !a.Evict? {
      OthersKeepCache(ttl, s, a);
    }
  }

  /** What is shown comes from the cache or from the acting process's own read. */
  lemma SeenChanges(ttl: int, s: State, a: Step)
    requires Enabled(s, a)
    ensures var s' := Apply(ttl, s, a);
            || s'.seen == s.seen
            || (a.Set? && s.procs[a.p].Fill? && s'.seen == s.seen + [Seen(s.procs[a.p].id, s.procs[a.p].snap, s.now)])
            || (a.CacheGet? && s.procs[a.p].id in s.cache && LiveEntry(ttl, s.cache[s.procs[a.p].id], s.now)
                && s'.seen == s.seen + [Seen(s.procs[a.p].id, s.cache[s.procs[a.p].id].snap, s.now)])
  {
    match a
    case Tick(_) =>
    case Evict(_) =>
    case DirectPayment(_, _) =>
    case Serve(_, _) =>
    case Start(_, _) =>
    case LookupKey(_, _) =>
    case InsertRow(_, _, _) =>
    case CallGateway(_) =>
    case Receive(_) =>
    case Timeout(_) =>
    case Update(_, _) =>
    case Delete(_, _) =>
    case Set(_, _) =>
    case CacheGet(_, _) =>
    case Read(_, _) =>
    case Crash(_) =>
  }

  lemma SeenEntryStep(ttl: int, s: State, a: Step, i: nat)
    requires Inv(s) && Enabled(s, a) && RowsGrow(s, Apply(ttl, s, a)) && i < |Apply(ttl, s, a).seen|
    ensures var s' := Apply(ttl, s, a); SnapOK(s', s'.seen[i].id, s'.seen[i].snap) && s'.seen[i].at <= s'.now
  {
    var s' := Apply(ttl, s, a);
    SeenChanges(ttl, s, a);
    if i < |s.seen| {
      SnapStays(s, s', s.seen[i].id, s.seen[i].snap);
    } else if a.Set? {
      assert ProcOK(s, s.procs[a.p]);
      SnapStays(s, s', s.procs[a.p].id, s.procs[a.p].snap);
    } else {
      SnapStays(s, s', s.procs[a.p].id, s.cache[s.procs[a.p].id].snap);
    }
  }

  lemma SeenStep(ttl: int, s: State, a: Step)
    requires Inv(s) && Enabled(s, a) && RowsGrow(s, Apply(ttl, s, a))
    ensures SeenOK(Apply(ttl, s, a))
  {
    forall i | 0 <= i < |Apply(ttl, s, a).seen|
      ensures var s' := Apply(ttl, s, a); SnapOK(s', s'.seen[i].id, s'.seen[i].snap) && s'.seen[i].at <= s'.now
    {
      SeenEntryStep(ttl, s, a, i);
    }
  }

  lemma InvStep(ttl: int, s: State, a: Step)
    requires Inv(s) && Enabled(s, a)
    ensures Inv(Apply(ttl, s, a))
  {
    var s' := Apply(ttl, s, a);
    RowsStep(ttl, s, a);
    ProcsStep(ttl, s, a);
    if a.Set? {
      assert ProcOK(s, s.procs[a.p]);
      SnapStays(s, s', s.procs[a.p].id, s.procs[a.p].snap);
    }
    forall id | id in s'.cache
      ensures SnapOK(s', id, s'.cache[id].snap) && s'.cache[id].setAt <= s'.now
    {
      CacheChanges(ttl, s, a, id);
      if id in s.cache {
        SnapStays(s, s', id, s.cache[id].snap);
      }
    }
    SeenStep(ttl, s, a);
  }

  lemma {:induction false} InvHolds(ttl: int, states: seq<State>, steps: seq<Step>, n: nat)
    requires Behavior(ttl, states, steps) && n < |states|
    ensures Inv(states[n])
  {
    if n == 0 {
    } else {
      InvHolds(ttl, states, steps, n - 1);
      assert StepAt(ttl, states, steps, n - 1);
      InvStep(ttl, states[n - 1], steps[n - 1]);
    }
  }

  /** Key and amount stay, and the history is continued. */
  predicate Continues(r: Row, r': Row) {
    r'.key == r.key && r'.amount == r.amount && r.log <= r'.log
  }

  /** Along every run a row stays in the table, with its key and its amount, and its history only grows. */
  lemma {:induction false} HistoriesGrow(ttl: int, states: seq<State>, steps: seq<Step>, i: nat, n: nat, id: string)
    requires Behavior(ttl, states, steps) && i <= n < |states| && id in states[i].rows
    ensures id in states[n].rows && Continues(states[i].rows[id], states[n].rows[id])
  {
    if i == n {
    } else {
      HistoriesGrow(ttl, states, steps, i, n - 1, id);
      InvHolds(ttl, states, steps, n - 1);
      assert StepAt(ttl, states, steps, n - 1);
      RowsStep(ttl, states[n - 1], steps[n - 1]);
      assert RowGrows(states[n - 1].rows[id], states[n].rows[id], states[n - 1].now);
    }
  }

  // ---------- bounded staleness ----------

  /** `status` was the row's status at time `t`. */
  ghost predicate HeldAt(r: Row, status: Status, t: nat) {
    exists v :: 0 <= v < |r.log| && r.log[v].status == status && r.log[v].at <= t
                && (v + 1 < |r.log| ==> t <= r.log[v + 1].at)
  }

  /** Between the read of a filler (or the creator's Paid update) and its Set at most `gap` passes. */
  ghost predicate Prompt(gap: nat, s: State, a: Step) {
    a.Tick? ==> forall p :: 0 <= p < |s.procs| && (s.procs[p].Fill? || s.procs[p].SetPaid?) ==> a.to <= s.procs[p].snap.readAt + gap
  }

  ghost predicate Timed(ttl: int, gap: nat, s: State) {
    && (forall p :: 0 <= p < |s.procs| && (s.procs[p].Fill? || s.procs[p].SetPaid?) ==> s.now <= s.procs[p].snap.readAt + gap)
    && (forall id :: id in s.cache ==> s.cache[id].setAt <= s.cache[id].snap.readAt + gap)
    && (forall i :: 0 <= i < |s.seen| ==> s.seen[i].at < s.seen[i].snap.readAt + ttl + gap)
  }

  /** A process that comes to hold a snapshot has just taken it. */
  lemma FreshSnap(ttl: int, s: State, a: Step)
    requires Enabled(s, a) && ByProc(a)
    ensures a.p < |Apply(ttl, s, a).procs|
    ensures var p := Apply(ttl, s, a).procs[a.p];
            p.Fill? || p.SetPaid? ==> p.snap.readAt == s.now && (a.Read? || a.Update?)
  {
    if Ends(a) {
      EnderIsQuiet(ttl, s, a);
    } else if a.Read? || a.Update? {
    } else {
      CreatorGoesOn(ttl, s, a);
    }
  }

  lemma TimeStops(ttl: int, s: State, a: Step)
    requires Enabled(s, a)
    ensures !a.Tick? ==> Apply(ttl, s, a).now == s.now
  {
  }

  lemma TimedStep(ttl: int, gap: nat, s: State, a: Step)
    requires ttl > 0 && Timed(ttl, gap, s) && Enabled(s, a) && Prompt(gap, s, a)
    ensures Timed(ttl, gap, Apply(ttl, s, a))
  {
    var s' := Apply(ttl, s, a);
    OnlyActorMoves(ttl, s, a);
    if ByProc(a) {
      FreshSnap(ttl, s, a);
    }
    TimeStops(ttl, s, a);
    SeenChanges(ttl, s, a);
    forall id | id in s'.cache
      ensures s'.cache[id].setAt <= s'.cache[id].snap.readAt + gap
    {
      CacheChanges(ttl, s, a, id);
      if a.Set? {
        assert s.procs[a.p].Fill? || s.procs[a.p].SetPaid?;
      }
    }
  }

  lemma {:induction false} TimedHolds(ttl: int, gap: nat, states: seq<State>, steps: seq<Step>, n: nat)
    requires ttl > 0 && Behavior(ttl, states, steps) && n < |states|
    requires forall i :: 0 <= i < |steps| ==> Prompt(gap, states[i], steps[i])
    ensures Timed(ttl, gap, states[n])
  {
    if n == 0 {
    } else {
      TimedHolds(ttl, gap, states, steps, n - 1);
      assert StepAt(ttl, states, steps, n - 1);
      TimedStep(ttl, gap, states[n - 1], steps[n - 1]);
    }
  }

  /** A status is read no later than it is shown. */
  ghost predicate ShownAfterRead(s: State) {
    forall i :: 0 <= i < |s.seen| ==> s.seen[i].snap.readAt <= s.seen[i].at
  }

  lemma ShownAfterReadStep(ttl: int, s: State, a: Step)
    requires Inv(s) && ShownAfterRead(s) && Enabled(s, a)
    ensures ShownAfterRead(Apply(ttl, s, a))
  {
    SeenChanges(ttl, s, a);
    if a.Set? {
      assert ProcOK(s, s.procs[a.p]);
    }
  }

  lemma {:induction false} ReadBeforeShown(ttl: int, states: seq<State>, steps: seq<Step>, n: nat)
    requires Behavior(ttl, states, steps) && n < |states|
    ensures ShownAfterRead(states[n])
  {
    if n == 0 {
    } else {
      ReadBeforeShown(ttl, states, steps, n - 1);
      InvHolds(ttl, states, steps, n - 1);
      assert StepAt(ttl, states, steps, n - 1);
      ShownAfterReadStep(ttl, states[n - 1], steps[n - 1]);
    }
  }

  /** In every interleaving and under every cache failure, a status GetOrder returned at time t
      is one the row really had at some time after t - ttl - gap. */
  lemma BoundedStaleness(ttl: int, gap: nat, states: seq<State>, steps: seq<Step>, n: nat, i: nat)
    requires ttl > 0 && Behavior(ttl, states, steps) && n < |states| && i < |states[n].seen|
    requires forall k :: 0 <= k < |steps| ==> Prompt(gap, states[k], steps[k])
    ensures var r := states[n].seen[i];
            && r.id in states[n].rows
            && exists t: nat :: r.at - ttl - gap < t <= r.at && HeldAt(states[n].rows[r.id], r.snap.status, t)
  {
    InvHolds(ttl, states, steps, n);
    TimedHolds(ttl, gap, states, steps, n);
    var r := states[n].seen[i];
    ReadBeforeShown(ttl, states, steps, n);
    var log, v := states[n].rows[r.id].log, r.snap.version - 1;
    assert log[v].status == r.snap.status && log[v].at <= r.snap.readAt;
    assert HeldAt(states[n].rows[r.id], r.snap.status, r.snap.readAt);
  }
}
