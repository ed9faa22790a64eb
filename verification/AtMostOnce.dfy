/**
 At most one `Send` per payment id returns success, over any number of workers, duplicates,
 redeliveries, ambiguous Redis errors and crashes, as long as no key expires that is still needed;
 and only as long as that.
 */
module AtMostOnce {
  import opened Options
  import opened Faults
  import opened Notification

  ghost predicate WasSent(s: State, id: string) {
    exists i :: 0 <= i < |s.sent| && s.sent[i].paymentID == id
  }

  /** A worker that may still send or delete holds its key, and nobody has sent for it. */
  ghost predicate HolderOwns(s: State, w: nat)
    requires w < |s.workers|
  {
    var p := s.workers[w];
    && (Holding(p) ==> Processable(p.d))
    && (NeedsKey(p) ==> ID(p.d) in s.keys && s.keys[ID(p.d)].holder == Some(w) && !WasSent(s, ID(p.d)))
  }

  ghost predicate SentOnce(s: State) {
    forall i, j :: 0 <= i < j < |s.sent| ==> s.sent[i].paymentID != s.sent[j].paymentID
  }

  ghost predicate Inv(s: State) {
    && (forall w :: 0 <= w < |s.workers| ==> HolderOwns(s, w))
    && (forall w :: 0 <= w < |s.workers| && s.workers[w].Acquiring? ==> Processable(s.workers[w].d))
    && (forall i :: 0 <= i < |s.sent| ==> s.sent[i].paymentID in s.keys && s.sent[i].paymentID != "")
    && SentOnce(s)
  }

  lemma SameKeepsInv(s: State, s': State)
    requires Inv(s) && s'.workers == s.workers && s'.keys == s.keys && s'.sent == s.sent
    ensures Inv(s')
  {
    forall v | 0 <= v < |s'.workers|
      ensures HolderOwns(s', v)
    {
      assert HolderOwns(s, v);
    }
  }

  /** A step that only moves worker `w`, and leaves it without a key it did not have. */
  lemma MoveKeepsInv(s: State, s': State, w: nat)
    requires Inv(s) && w < |s.workers|
    requires |s'.workers| == |s.workers| && s'.workers == s.workers[w := s'.workers[w]] && s'.keys == s.keys && s'.sent == s.sent
    requires Holding(s'.workers[w]) ==> Holding(s.workers[w]) && s.workers[w].d == s'.workers[w].d
    requires NeedsKey(s'.workers[w]) ==> NeedsKey(s.workers[w])
    requires s'.workers[w].Acquiring? ==> Processable(s'.workers[w].d)
    ensures Inv(s')
  {
    forall v | 0 <= v < |s'.workers|
      ensures HolderOwns(s', v)
    {
      assert HolderOwns(s, v);
    }
  }

  lemma SetNXKeepsInv(c: Config, s: State, w: nat, fault: Fault)
    requires Inv(s) && Enabled(c, s, SetNX(w, fault))
    ensures Inv(Apply(c, s, SetNX(w, fault)))
  {
    var s' := Apply(c, s, SetNX(w, fault));
    forall v | 0 <= v < |s'.workers|
      ensures HolderOwns(s', v)
    {
      assert HolderOwns(s, v);
    }
  }

  lemma SendOkKeepsInv(c: Config, s: State, w: nat)
    requires Inv(s) && Enabled(c, s, SendOk(w))
    ensures Inv(Apply(c, s, SendOk(w)))
  {
    var s' := Apply(c, s, SendOk(w));
    assert HolderOwns(s, w);
    forall v | 0 <= v < |s'.workers|
      ensures HolderOwns(s', v)
    {
      assert HolderOwns(s, v);
    }
  }

  lemma DelKeepsInv(c: Config, s: State, w: nat, applied: bool)
    requires Inv(s) && Enabled(c, s, Del(w, applied))
    ensures Inv(Apply(c, s, Del(w, applied)))
  {
    var s' := Apply(c, s, Del(w, applied));
    assert HolderOwns(s, w);
    forall v | 0 <= v < |s'.workers|
      ensures HolderOwns(s', v)
    {
      assert HolderOwns(s, v);
    }
  }

  /** The steps inside `Process` between SETNX and DEL, and the environment's steps around it. */
  lemma OtherKeepsInv(c: Config, s: State, a: Step)
    requires Inv(s) && Enabled(c, s, a)
    requires a.Take? || a.SendFail? || a.Wake? || a.Cancel? || a.Settle? || a.Crash?
    ensures Inv(Apply(c, s, a))
  {
    MoveKeepsInv(s, Apply(c, s, a), a.w);
  }

  predicate Needs(p: Worker, id: string) {
    NeedsKey(p) && p.d.body == Event(id)
  }

  /** The key that expires is still needed: its payment has been sent, or a worker that holds it may
      still send or delete. */
  ghost predicate Spoils(s: State, a: Step) {
    a.Expire? && a.paymentID != "" &&
    (WasSent(s, a.paymentID) || exists w :: 0 <= w < |s.workers| && Needs(s.workers[w], a.paymentID))
  }

  lemma ExpireKeepsInv(c: Config, s: State, id: string)
    requires Inv(s) && Enabled(c, s, Expire(id)) && !Spoils(s, Expire(id))
    ensures Inv(Apply(c, s, Expire(id)))
  {
    var s' := Apply(c, s, Expire(id));
    forall v | 0 <= v < |s'.workers|
      ensures HolderOwns(s', v)
    {
      assert HolderOwns(s, v);
      assert Holding(s.workers[v]) ==> s.workers[v].d.body == Event(ID(s.workers[v].d));
    }
  }

  lemma InvStep(c: Config, s: State, a: Step)
    requires Inv(s) && Enabled(c, s, a) && !Spoils(s, a)
    ensures Inv(Apply(c, s, a))
  {
    match a
    case Tick(_) => SameKeepsInv(s, Apply(c, s, a));
    case Expire(id) => ExpireKeepsInv(c, s, id);
    case Publish(_) => SameKeepsInv(s, Apply(c, s, a));
    case Dispatch(_) => SameKeepsInv(s, Apply(c, s, a));
    case SetNX(w, fault) => SetNXKeepsInv(c, s, w, fault);
    case SendOk(w) => SendOkKeepsInv(c, s, w);
    case Del(w, applied) => DelKeepsInv(c, s, w, applied);
    case _ => OtherKeepsInv(c, s, a);
  }

  ghost predicate NothingSpoilt(states: seq<State>, steps: seq<Step>)
    requires |states| == |steps| + 1
  {
    forall i :: 0 <= i < |steps| ==> !Spoils(states[i], steps[i])
  }

  /** No payment id is ever sent twice while no key expires that is still needed. */
  lemma {:induction false} AtMostOneSend(c: Config, states: seq<State>, steps: seq<Step>, n: nat)
    requires Behavior(c, states, steps) && n < |states| && NothingSpoilt(states, steps)
    ensures Inv(states[n]) && SentOnce(states[n])
  {
    if n == 0 {
    } else {
      AtMostOneSend(c, states, steps, n - 1);
      assert StepAt(c, states, steps, n - 1);
      InvStep(c, states[n - 1], steps[n - 1]);
    }
  }

  // ---------- and otherwise a second send is possible ----------

  lemma {:induction false} InvAlongRun(c: Config, s: State, steps: seq<Step>)
    requires Inv(s) && CanRun(c, s, steps) && NoExpiry(steps)
    ensures Inv(Run(c, s, steps))
    decreases |steps|
  {
    if steps == [] {
    } else {
      InvStep(c, s, steps[0]);
      InvAlongRun(c, Apply(c, s, steps[0]), steps[1..]);
    }
  }

  /** From `s` on, without further expiry, some payment can be sent twice. */
  ghost predicate CanSendTwice(c: Config, s: State) {
    exists steps :: CanRun(c, s, steps) && NoExpiry(steps) && !SentOnce(Run(c, s, steps))
  }

  lemma TwiceEarlier(c: Config, s: State, a: Step)
    requires Enabled(c, s, a) && !a.Expire? && CanSendTwice(c, Apply(c, s, a))
    ensures CanSendTwice(c, s)
  {
    var rest :| CanRun(c, Apply(c, s, a), rest) && NoExpiry(rest) && !SentOnce(Run(c, Apply(c, s, a), rest));
    RunCons(c, s, a, rest);
    assert NoExpiry([a] + rest);
  }

  lemma TwiceNow(c: Config, s: State)
    requires !SentOnce(s)
    ensures CanSendTwice(c, s)
  {
    RunNone(c, s);
    assert NoExpiry([]);
  }

  /** A worker about to acquire a free key of a payment already sent sends it again. */
  lemma AcquirerSendsAgain(c: Config, s: State, w: nat, d: Delivery)
    requires c.policy.maxAttempts >= 1 && w < |s.workers| && s.workers[w] == Acquiring(d) && Processable(d)
    requires WasSent(s, ID(d)) && ID(d) !in s.keys
    ensures CanSendTwice(c, s)
  {
    var s1 := Apply(c, s, SetNX(w, NoFault));
    var s2 := Apply(c, s1, SendOk(w));
    var i :| 0 <= i < |s.sent| && s.sent[i].paymentID == ID(d);
    assert s2.sent[i].paymentID == s2.sent[|s.sent|].paymentID;
    TwiceNow(c, s2);
    TwiceEarlier(c, s1, SendOk(w));
    TwiceEarlier(c, s, SetNX(w, NoFault));
  }

  /** A duplicate of `d` has been published and taken by worker `w`. */
  function WithCopy(s: State, w: nat, d: Delivery): State
    requires w < |s.workers|
  {
    s.(published := s.published + multiset{d}, workers := s.workers[w := Handle(d)])
  }

  lemma TwiceThroughCopy(c: Config, s: State, w: nat, d: Delivery)
    requires w < |s.workers| && s.workers[w].Idle? && CanSendTwice(c, WithCopy(s, w, d))
    ensures CanSendTwice(c, s)
  {
    var s1 := Apply(c, s, Publish(d));
    var s2 := Apply(c, s1, Dispatch(d));
    var s3 := Apply(c, s2, Take(w, d));
    assert s3.queue == s.queue && s3.jobs == s.jobs;
    assert s3 == WithCopy(s, w, d);
    TwiceEarlier(c, s2, Take(w, d));
    TwiceEarlier(c, s1, Dispatch(d));
    TwiceEarlier(c, s, Publish(d));
  }

  /** An idle worker gets there through a duplicate, and a busy one after a crash. */
  lemma DuplicateIsSentAgain(c: Config, s: State, w: nat, id: string)
    requires c.policy.maxAttempts >= 1 && w < |s.workers| && id != "" && WasSent(s, id) && id !in s.keys
    ensures CanSendTwice(c, s)
    decreases !s.workers[w].Idle?
  {
    if s.workers[w].Idle? {
      var d := Delivery(0, Event(id));
      AcquirerSendsAgain(c, WithCopy(s, w, d), w, d);
      TwiceThroughCopy(c, s, w, d);
    } else {
      var s1 := Apply(c, s, Crash(w));
      DuplicateIsSentAgain(c, s1, w, id);
      TwiceEarlier(c, s, Crash(w));
    }
  }

  /** A holder whose key is gone sends, and a duplicate is sent again. */
  lemma SenderWithoutKey(c: Config, s: State, w: nat, id: string)
    requires c.policy.maxAttempts >= 1 && w < |s.workers| && id != "" && Holds(s.workers[w], id) && id !in s.keys
    requires !s.workers[w].Releasing?
    ensures CanSendTwice(c, s)
    decreases s.workers[w].Sleeping?
  {
    if s.workers[w].Sending? {
      var s1 := Apply(c, s, SendOk(w));
      assert s1.sent[|s.sent|].paymentID == id;
      DuplicateIsSentAgain(c, s1, w, id);
      TwiceEarlier(c, s, SendOk(w));
    } else {
      SenderWithoutKey(c, Apply(c, s, Wake(w)), w, id);
      TwiceEarlier(c, s, Wake(w));
    }
  }

  /** Worker `v` has acquired the key that worker `w` is about to delete. */
  lemma ReleaserDeletesForeignKey(c: Config, s: State, w: nat, v: nat, id: string)
    requires c.policy.maxAttempts >= 1 && w < |s.workers| && v < |s.workers| && v != w && id != ""
    requires Needs(s.workers[w], id) && s.workers[w].Releasing? && Holds(s.workers[v], id) && s.workers[v].Sending?
    ensures CanSendTwice(c, s)
  {
    var s1 := Apply(c, s, Del(w, true));
    SenderWithoutKey(c, s1, v, id);
    TwiceEarlier(c, s, Del(w, true));
  }

  lemma ReleaserWithoutKey(c: Config, s: State, w: nat, v: nat, id: string)
    requires c.policy.maxAttempts >= 1 && w < |s.workers| && v < |s.workers| && v != w && id != "" && id !in s.keys
    requires Needs(s.workers[w], id) && s.workers[w].Releasing?
    ensures CanSendTwice(c, s)
    decreases !s.workers[v].Idle?
  {
    if s.workers[v].Idle? {
      var d := Delivery(0, Event(id));
      var s1 := WithCopy(s, v, d);
      ReleaserDeletesForeignKey(c, Apply(c, s1, SetNX(v, NoFault)), w, v, id);
      TwiceEarlier(c, s1, SetNX(v, NoFault));
      TwiceThroughCopy(c, s, v, d);
    } else {
      var s1 := Apply(c, s, Crash(v));
      ReleaserWithoutKey(c, s1, w, v, id);
      TwiceEarlier(c, s, Crash(v));
    }
  }

  lemma SpoiltSendsTwice(c: Config, s: State, a: Step)
    requires c.policy.maxAttempts >= 1 && |s.workers| >= 2 && Enabled(c, s, a) && Spoils(s, a)
    ensures CanSendTwice(c, Apply(c, s, a))
  {
    var s', id := Apply(c, s, a), a.paymentID;
    if WasSent(s, id) {
      assert WasSent(s', id);
      DuplicateIsSentAgain(c, s', 0, id);
    } else {
      var w: nat :| w < |s.workers| && Needs(s.workers[w], id);
      if s.workers[w].Releasing? {
        ReleaserWithoutKey(c, s', w, if w == 0 then 1 else 0, id);
      } else {
        SenderWithoutKey(c, s', w, id);
      }
    }
  }

  lemma {:induction false} SameWorkers(c: Config, states: seq<State>, steps: seq<Step>, n: nat)
    requires Behavior(c, states, steps) && n < |states|
    ensures |states[n].workers| == |states[0].workers|
  {
    if n == 0 {
    } else {
      SameWorkers(c, states, steps, n - 1);
      assert StepAt(c, states, steps, n - 1);
    }
  }

  /** For every run of at least two workers: no expiry has spoilt it if and only if no state of it
      can, without further expiry, lead to a second send of a payment. */
  lemma AtMostOnceIff(c: Config, states: seq<State>, steps: seq<Step>)
    requires Behavior(c, states, steps) && c.policy.maxAttempts >= 1 && |states[0].workers| >= 2
    ensures NothingSpoilt(states, steps) <==> forall m :: 0 <= m < |states| ==> !CanSendTwice(c, states[m])
  {
    if NothingSpoilt(states, steps) {
      forall m | 0 <= m < |states|
        ensures !CanSendTwice(c, states[m])
      {
        AtMostOneSend(c, states, steps, m);
        forall more | CanRun(c, states[m], more) && NoExpiry(more)
          ensures SentOnce(Run(c, states[m], more))
        {
          InvAlongRun(c, states[m], more);
        }
      }
    } else {
      var i :| 0 <= i < |steps| && Spoils(states[i], steps[i]);
      SameWorkers(c, states, steps, i);
      assert StepAt(c, states, steps, i);
      SpoiltSendsTwice(c, states[i], steps[i]);
    }
  }
}
