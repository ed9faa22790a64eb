/**
 When a cached order can be behind its row. The invariant holds in every run, and its three
 exceptions are a writer that has not invalidated yet, an invalidation lost since the entry was
 set, and a Set that a database write had overtaken. Without a writer in between they are exact.
 */
module OrderCoherence {
  import opened Faults
  import opened OrderProtocol
  import opened OrderHistory

  ghost predicate WriterInBetween(s: State, id: string) {
    exists p :: 0 <= p < |s.procs| && InBetween(s.procs[p]) && s.procs[p].id == id
  }

  predicate Stale(s: State, id: string) {
    Behind(s.rows, s.cache, id)
  }

  ghost predicate Excused(s: State, id: string)
    requires id in s.cache
  {
    s.cache[id].late || id in s.dirty || WriterInBetween(s, id)
  }

  /** A stale entry has an excuse, and the first two excuses are only given to stale entries. */
  ghost predicate Explained(s: State, id: string) {
    && (Stale(s, id) ==> Excused(s, id))
    && (id in s.dirty ==> Stale(s, id))
    && (id in s.cache && s.cache[id].late ==> Stale(s, id))
  }

  /** The step puts a new entry for `id`. */
  predicate Puts(s: State, a: Step, id: string) {
    a.Set? && Mine(s, a.p) && (s.procs[a.p].Fill? || s.procs[a.p].SetPaid?) && s.procs[a.p].id == id && a.fault != NotApplied
  }

  lemma EntryKept(ttl: int, s: State, a: Step, id: string)
    requires Enabled(s, a) && id in Apply(ttl, s, a).cache && !Puts(s, a, id)
    ensures id in s.cache && Apply(ttl, s, a).cache[id] == s.cache[id]
  {
    if !a.Set? && !a.Delete? && !a.Evict? {
      OthersKeepCache(ttl, s, a);
    }
  }

  lemma DirtStays(ttl: int, s: State, a: Step, id: string)
    requires Enabled(s, a) && id in s.dirty && id in Apply(ttl, s, a).cache && !Puts(s, a, id)
    ensures id in Apply(ttl, s, a).dirty
  {
  }

  /** An entry that stays in place stays behind. */
  lemma StaleStays(ttl: int, s: State, a: Step, id: string)
    requires RowsOK(s) && Enabled(s, a) && Stale(s, id) && id in Apply(ttl, s, a).cache && !Puts(s, a, id)
    ensures Stale(Apply(ttl, s, a), id)
  {
    EntryKept(ttl, s, a, id);
    RowsStep(ttl, s, a);
    assert RowGrows(s.rows[id], Apply(ttl, s, a).rows[id], s.now);
  }

  /** A row written behind a cached entry leaves its writer about to invalidate, or the entry dirty. */
  lemma WriteIsFollowedUp(ttl: int, s: State, p: nat, fault: Fault, id: string)
    requires Enabled(s, Update(p, fault)) && id in s.rows
    requires Apply(ttl, s, Update(p, fault)).rows[id] != s.rows[id] && Stale(Apply(ttl, s, Update(p, fault)), id)
    ensures var s' := Apply(ttl, s, Update(p, fault)); id in s'.dirty || WriterInBetween(s', id)
  {
    var s' := Apply(ttl, s, Update(p, fault));
    assert s.procs[p].id == id;
    if id !in s'.dirty {
      assert p < |s'.procs| && InBetween(s'.procs[p]) && s'.procs[p].id == id;
    }
  }

  /** A writer leaves the window between write and invalidation only through a command that
      removes or replaces the entry, or leaves it dirty. */
  lemma WindowCloses(ttl: int, s: State, a: Step, p: nat)
    requires Enabled(s, a) && p < |s.procs| && InBetween(s.procs[p]) && Stale(s, s.procs[p].id)
    ensures var id, s' := s.procs[p].id, Apply(ttl, s, a);
            || (p < |s'.procs| && s'.procs[p] == s.procs[p])
            || id in s'.dirty
            || id !in s'.cache
            || Puts(s, a, id)
  {
    OnlyActorMoves(ttl, s, a);
  }

  lemma PutIsExplained(ttl: int, s: State, a: Step, id: string)
    requires Enabled(s, a) && Puts(s, a, id)
    ensures Explained(Apply(ttl, s, a), id)
  {
  }

  /** The step loses an invalidation of `id`: a Delete, or the creator's Set, without effect,
      an update applied behind a reported error, or a crash before the invalidation. */
  predicate LosesInvalidation(s: State, a: Step, id: string) {
    match a
    case Delete(p, fault) => Mine(s, p) && s.procs[p].Invalidate? && s.procs[p].id == id && fault == NotApplied
    case Set(p, fault) => Mine(s, p) && s.procs[p].SetPaid? && s.procs[p].id == id && fault == NotApplied
    case Update(p, fault) =>
      Mine(s, p) && Updating(s.procs[p]) && !s.procs[p].FailAfterError? && s.procs[p].id == id && fault == AppliedWithError
    case Crash(p) => Mine(s, p) && InBetween(s.procs[p]) && s.procs[p].id == id
    case _ => false
  }

  lemma DirtyMeans(ttl: int, s: State, a: Step, id: string)
    requires Enabled(s, a) && id !in s.dirty
    ensures id in Apply(ttl, s, a).dirty <==> LosesInvalidation(s, a, id) && Stale(Apply(ttl, s, a), id)
  {
    match a
    case Tick(_) =>
    case Evict(_) =>
    case DirectPayment(_, _) =>
    case Serve(_, _) =>
    case Start(_, _) =>
    case LookupKey(_, _) =>
    case InsertRow(_, _, _) =>
    case CallGateway(_) =>
    case Receive(_) =>
    case Timeout(_) =>
    case Update(_, _) =>
    case Delete(_, _) =>
    case Set(_, _) =>
    case CacheGet(_, _) =>
    case Read(_, _) =>
    case Crash(_) =>
  }

  /** Dirt goes with the entry it is about. */
  lemma DirtGoes(ttl: int, s: State, a: Step, id: string)
    requires Enabled(s, a) && id in s.cache && (id !in Apply(ttl, s, a).cache || Puts(s, a, id))
    ensures id !in Apply(ttl, s, a).dirty
  {
    if !a.Set? && !a.Delete? && !a.Evict? {
      OthersKeepCache(ttl, s, a);
    }
  }

  lemma RowsChangeByUpdate(ttl: int, s: State, a: Step, id: string)
    requires Enabled(s, a) && id in s.rows && (id !in Apply(ttl, s, a).rows || Apply(ttl, s, a).rows[id] != s.rows[id])
    ensures a.Update?
  {
    if !a.InsertRow? && !a.Update? {
      OthersKeepRows(ttl, s, a);
    }
  }

  /** A kept entry that is behind now was excused before, or its row has just been written. */
  lemma ExcusePassesOn(ttl: int, s: State, a: Step, id: string)
    requires Inv(s) && Explained(s, id) && Enabled(s, a) && !Puts(s, a, id) && Stale(Apply(ttl, s, a), id)
    ensures Excused(Apply(ttl, s, a), id)
  {
    EntryKept(ttl, s, a, id);
    assert SnapOK(s, id, s.cache[id].snap);
    if !Stale(s, id) {
      RowsChangeByUpdate(ttl, s, a, id);
      WriteIsFollowedUp(ttl, s, a.p, a.fault, id);
    } else if id in s.dirty {
      DirtStays(ttl, s, a, id);
    } else if WriterInBetween(s, id) {
      var p :| 0 <= p < |s.procs| && InBetween(s.procs[p]) && s.procs[p].id == id;
      WindowCloses(ttl, s, a, p);
    }
  }

  lemma ExplainedStep(ttl: int, s: State, a: Step, id: string)
    requires Inv(s) && Explained(s, id) && Enabled(s, a)
    ensures Explained(Apply(ttl, s, a), id)
  {
    var s' := Apply(ttl, s, a);
    if Puts(s, a, id) {
      PutIsExplained(ttl, s, a, id);
    } else {
      if Stale(s', id) {
        ExcusePassesOn(ttl, s, a, id);
      }
      if id !in s.dirty {
        DirtyMeans(ttl, s, a, id);
      } else if id !in s'.cache {
        DirtGoes(ttl, s, a, id);
      }
      if id in s'.cache {
        EntryKept(ttl, s, a, id);
      }
      if Stale(s, id) && id in s'.cache {
        StaleStays(ttl, s, a, id);
      }
    }
  }

  lemma {:induction false} CoherenceHolds(ttl: int, states: seq<State>, steps: seq<Step>, n: nat, id: string)
    requires Behavior(ttl, states, steps) && n < |states|
    ensures Explained(states[n], id)
  {
    if n == 0 {
    } else {
      CoherenceHolds(ttl, states, steps, n - 1, id);
      InvHolds(ttl, states, steps, n - 1);
      assert StepAt(ttl, states, steps, n - 1);
      ExplainedStep(ttl, states[n - 1], steps[n - 1], id);
    }
  }

  // ---------- what the exceptions are, in terms of the run ----------

  /** The step sets a snapshot of `id` although its row has been written since the snapshot was read. */
  predicate Overtaken(s: State, a: Step, id: string) {
    Puts(s, a, id) && id in s.rows && s.procs[a.p].snap.version < |s.rows[id].log|
  }

  /** Step `j` put the entry that is still there before step `n`. */
  ghost predicate PutAt(states: seq<State>, steps: seq<Step>, j: nat, n: nat, id: string)
    requires |states| == |steps| + 1 && n < |states|
  {
    && j < n && Puts(states[j], steps[j], id)
    && (forall i :: j < i <= n ==> id in states[i].cache)
    && (forall i :: j < i < n ==> !Puts(states[i], steps[i], id))
  }

  /** Since it was put, an invalidation was lost and left the entry behind its row. */
  ghost predicate LeftBehind(states: seq<State>, steps: seq<Step>, j: nat, n: nat, id: string)
    requires |states| == |steps| + 1 && n < |states|
  {
    exists k :: j < k < n && LosesInvalidation(states[k], steps[k], id) && Stale(states[k + 1], id)
  }

  /** The first two excuses, read off the run since the present entry was put. */
  ghost predicate Accounts(states: seq<State>, steps: seq<Step>, j: nat, n: nat, id: string)
    requires |states| == |steps| + 1 && n < |states|
  {
    && PutAt(states, steps, j, n, id)
    && (states[n].cache[id].late <==> Overtaken(states[j], steps[j], id))
    && (id in states[n].dirty <==> LeftBehind(states, steps, j, n, id))
  }

  /** One step that leaves the entry in place extends the account. */
  lemma AccountGoesOn(ttl: int, states: seq<State>, steps: seq<Step>, j: nat, n: nat, id: string)
    requires |states| == |steps| + 1 && n < |steps| && Follows(ttl, states[n], steps[n], states[n + 1])
    requires Accounts(states, steps, j, n, id) && id in states[n + 1].cache && !Puts(states[n], steps[n], id)
    ensures Accounts(states, steps, j, n + 1, id)
  {
    EntryKept(ttl, states[n], steps[n], id);
    if id in states[n].dirty {
      DirtStays(ttl, states[n], steps[n], id);
    } else {
      DirtyMeans(ttl, states[n], steps[n], id);
    }
  }

  lemma {:induction false} ExcusesComeFromTheRun(ttl: int, states: seq<State>, steps: seq<Step>, n: nat, id: string) returns (j: nat)
    requires Behavior(ttl, states, steps) && n < |states| && id in states[n].cache
    ensures Accounts(states, steps, j, n, id)
  {
    if n == 0 {
      assert false;
    } else {
      var s, a := states[n - 1], steps[n - 1];
      assert StepAt(ttl, states, steps, n - 1);
      if Puts(s, a, id) {
        j := n - 1;
      } else {
        EntryKept(ttl, s, a, id);
        j := ExcusesComeFromTheRun(ttl, states, steps, n - 1, id);
        AccountGoesOn(ttl, states, steps, j, n - 1, id);
      }
    }
  }

  /** While no writer is between its write and its invalidation, a cached entry is behind its row
      if and only if its own Set had been overtaken, or an invalidation lost since left it behind. */
  lemma StaleIff(ttl: int, states: seq<State>, steps: seq<Step>, n: nat, id: string) returns (j: nat)
    requires Behavior(ttl, states, steps) && n < |states| && id in states[n].cache && !WriterInBetween(states[n], id)
    ensures PutAt(states, steps, j, n, id)
    ensures Stale(states[n], id) <==> Overtaken(states[j], steps[j], id) || LeftBehind(states, steps, j, n, id)
  {
    j := ExcusesComeFromTheRun(ttl, states, steps, n, id);
    CoherenceHolds(ttl, states, steps, n, id);
  }

  /** Conditional coherence: if no write to the order fell between the read of the present entry and
      its Set, and no invalidation was lost since that Set, the cache shows another status than the
      row only while some writer is between its write and its invalidation. */
  lemma ConditionalCoherence(ttl: int, states: seq<State>, steps: seq<Step>, n: nat, id: string) returns (j: nat)
    requires Behavior(ttl, states, steps) && n < |states| && id in states[n].cache
    ensures PutAt(states, steps, j, n, id) && id in states[n].rows && states[n].rows[id].log != []
    ensures states[n].cache[id].snap.status != Current(states[n].rows[id]) ==>
              || Overtaken(states[j], steps[j], id)
              || (exists k :: j < k < n && LosesInvalidation(states[k], steps[k], id))
              || WriterInBetween(states[n], id)
  {
    j := ExcusesComeFromTheRun(ttl, states, steps, n, id);
    InvHolds(ttl, states, steps, n);
    CoherenceHolds(ttl, states, steps, n, id);
    assert SnapOK(states[n], id, states[n].cache[id].snap);
  }
}
