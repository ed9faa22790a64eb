/**
 The code of the consumer's `Run`: the dispatcher's select loop, the body of a worker
 goroutine, and the drain, over the fields they share. Whatever the scheduler does, it is a
 run of the step relation in module WorkerPool that ends with everything handled.
 */
module ConsumerRun {
  import opened WorkerPool

  /** What the select meets next: a goroutine that runs meanwhile, a message the broker
      delivers, a message ready in `msgs`, or shutdown (a cancelled context or a closed `msgs`). */
  datatype Turn = Goroutine(w: nat) | Delivered(m: nat) | Ready | Shutdown

  lemma ProgressIfClosed(s: State, a: Step)
    requires Enabled(s, a) && !a.Deliver?
    ensures Closed(s) ==> DrainWork(Apply(s, a)) < DrainWork(s)
  {
    if Closed(s) {
      DrainProgresses(s, a);
    }
  }

  // ---------- what a script makes Run take ----------

  /** One turn of a worker goroutine: it finishes what it handles, or receives the oldest job, or ends on
      the closed, empty channel; the settlement it sends may be lost. */
  ghost predicate Worked(s: State, w: nat, s': State)
    requires w < |s.workers|
  {
    match s.workers[w]
    case Handling(m) =>
      && s' == s.(workers := s.workers[w := Waiting], handled := s.handled + multiset{m}, unsettled := s'.unsettled)
      && s.unsettled - 1 <= s'.unsettled <= s.unsettled
    case Waiting =>
      if s.jobs != [] then s' == s.(workers := s.workers[w := Handling(s.jobs[0])], jobs := s.jobs[1..])
      else if s.dispatcher == Draining || s.dispatcher == Returned then s' == s.(workers := s.workers[w := Exited])
      else s' == s
    case Exited => s' == s
  }

  /** What one turn does: a delivery joins the end of `msgs` while the prefetch allows it, a ready message
      is taken from its front, and a goroutine touches neither. */
  ghost predicate Met(s: State, turn: Turn, s': State) {
    && s'.pool == s.pool
    && match turn
       case Goroutine(w) => if w < |s.workers| then Worked(s, w, s') else s' == s
       case Delivered(m) =>
         if s.pool == 0 || s.unsettled < s.pool then s' == s.(msgs := s.msgs + [m], unsettled := s.unsettled + 1) else s' == s
       case Ready =>
         && s'.unsettled == s.unsettled && s'.handled == s.handled && s'.workers == s.workers
         && (if s.msgs == [] then s' == s
             else s'.msgs == s.msgs[1..] && s'.taken == s.taken + multiset{s.msgs[0]}
                  && (s.pool >= 1 ==> s'.jobs == s.jobs + [s.msgs[0]]))
       case Shutdown => false
  }

  ghost predicate MetAt(history: seq<State>, script: seq<Turn>, i: nat)
    requires i + 1 < |history| && i < |script|
  {
    Met(history[i], script[i], history[i + 1])
  }

  ghost predicate Turns(history: seq<State>, script: seq<Turn>) {
    && 0 < |history| <= |script| + 1
    && forall i: nat :: i < |history| - 1 ==> MetAt(history, script, i)
  }

  function Deliveries(script: seq<Turn>): nat {
    if script == [] then 0
    else Deliveries(script[..|script| - 1]) + if script[|script| - 1].Delivered? then 1 else 0
  }

  /** The messages in line and those taken, read off the script alone when the prefetch refuses none. */
  datatype Line = Line(waiting: seq<nat>, taken: seq<nat>)

  function LineTurn(line: Line, turn: Turn): Line {
    match turn
    case Delivered(m) => line.(waiting := line.waiting + [m])
    case Ready => if line.waiting == [] then line else Line(line.waiting[1..], line.taken + [line.waiting[0]])
    case _ => line
  }

  function LineAfter(line: Line, script: seq<Turn>): Line
    decreases |script|
  {
    if script == [] || script[0].Shutdown? then line else LineAfter(LineTurn(line, script[0]), script[1..])
  }

  function Messages(script: seq<Turn>): seq<nat>
    decreases |script|
  {
    if script == [] then [] else (if script[0].Delivered? then [script[0].m] else []) + Messages(script[1..])
  }

  lemma TurnIsFifo(line: Line, turn: Turn)
    requires !turn.Shutdown?
    ensures var l := LineTurn(line, turn);
            l.taken + l.waiting == line.taken + line.waiting + if turn.Delivered? then [turn.m] else []
  {
  }

  /** Messages are taken in the order of their delivery. */
  lemma {:induction false} LineIsFifo(line: Line, script: seq<Turn>)
    requires forall i :: 0 <= i < |script| ==> !script[i].Shutdown?
    ensures var l := LineAfter(line, script); l.taken + l.waiting == line.taken + line.waiting + Messages(script)
    decreases |script|
  {
    if script != [] {
      var turn, l1 := script[0], LineTurn(line, script[0]);
      assert !turn.Shutdown?;
      assert LineAfter(line, script) == LineAfter(l1, script[1..]);
      LineIsFifo(l1, script[1..]);
      TurnIsFifo(line, turn);
      var came := if turn.Delivered? then [turn.m] else [];
      var rest := Messages(script[1..]);
      assert Messages(script) == came + rest;
      assert l1.taken + l1.waiting + rest == line.taken + line.waiting + (came + rest);
    }
  }

  lemma {:induction false} DeliveriesTail(script: seq<Turn>)
    requires script != []
    ensures Deliveries(script) == Deliveries(script[1..]) + if script[0].Delivered? then 1 else 0
  {
    var n := |script| - 1;
    if n == 0 {
      assert script[..0] == script[1..] == [];
    } else {
      DeliveriesTail(script[..n]);
      assert script[..n][1..] == script[1..][..n - 1];
    }
  }

  lemma TurnsTail(history: seq<State>, script: seq<Turn>)
    requires Turns(history, script) && |history| > 1
    ensures Turns(history[1..], script[1..])
  {
    forall i: nat | i < |history| - 2
      ensures MetAt(history[1..], script[1..], i)
    {
      assert MetAt(history, script, i + 1);
    }
  }

  lemma TurnsMore(history: seq<State>, script: seq<Turn>, s': State)
    requires Turns(history, script) && |history| <= |script|
    requires Met(history[|history| - 1], script[|history| - 1], s')
    ensures Turns(history + [s'], script)
  {
    forall i: nat | i < |history|
      ensures MetAt(history + [s'], script, i)
    {
      if i < |history| - 1 {
        assert MetAt(history, script, i);
      }
    }
  }

  /** One turn moves the line as it moves the consumer. */
  lemma MetMovesLine(s: State, turn: Turn, s': State, line: Line)
    requires Met(s, turn, s') && s.msgs == line.waiting
    requires turn.Delivered? ==> s.pool == 0 || s.unsettled < s.pool
    ensures s'.msgs == LineTurn(line, turn).waiting
    ensures s'.taken + multiset(line.taken) == s.taken + multiset(LineTurn(line, turn).taken)
  {
    if turn.Ready? && s.msgs != [] {
      assert multiset(line.taken + [s.msgs[0]]) == multiset(line.taken) + multiset{s.msgs[0]};
    }
  }

  lemma Telescoped(a: multiset<nat>, b: multiset<nat>, c: multiset<nat>, x: multiset<nat>, y: multiset<nat>, z: multiset<nat>)
    requires b + x == a + y && c + y == b + z
    ensures c + x == a + z
  {
    forall m: nat
      ensures (c + x)[m] == (a + z)[m]
    {
      assert (b + x)[m] == (a + y)[m] && (c + y)[m] == (b + z)[m];
    }
    assert forall m: nat :: m in c + x <==> m in a + z;
  }

  /** The states of a history are the line's, as long as the prefetch refuses nothing. */
  lemma {:induction false} InLine(history: seq<State>, script: seq<Turn>, line: Line, n: nat)
    requires Turns(history, script) && n == |history| - 1
    requires n == |script| || script[n].Shutdown?
    requires history[0].msgs == line.waiting
    requires history[0].pool == 0 || history[0].unsettled + Deliveries(script) <= history[0].pool
    ensures history[n].msgs == LineAfter(line, script).waiting
    ensures history[n].taken + multiset(line.taken) == history[0].taken + multiset(LineAfter(line, script).taken)
    decreases |script|
  {
    if n == 0 {
      assert LineAfter(line, script) == line;
    } else {
      assert MetAt(history, script, 0);
      DeliveriesTail(script);
      TurnsTail(history, script);
      MetMovesLine(history[0], script[0], history[1], line);
      var l1 := LineTurn(line, script[0]);
      assert LineAfter(line, script) == LineAfter(l1, script[1..]);
      assert history[1..][n - 1] == history[n] && history[1..][0] == history[1];
      InLine(history[1..], script[1..], l1, n - 1);
      Telescoped(history[0].taken, history[1].taken, history[n].taken,
                 multiset(line.taken), multiset(l1.taken), multiset(LineAfter(line, script).taken));
    }
  }

  /** One message delivered and taken. */
  lemma OneMessageIsTaken()
    ensures LineAfter(Line([], []), [Delivered(1), Ready, Goroutine(0), Goroutine(0), Shutdown]) == Line([], [1])
  {
    assert LineAfter(Line([], []), [Delivered(1), Ready, Goroutine(0), Goroutine(0), Shutdown])
        == LineAfter(Line([1], []), [Ready, Goroutine(0), Goroutine(0), Shutdown])
        == LineAfter(Line([], [1]), [Goroutine(0), Goroutine(0), Shutdown])
        == LineAfter(Line([], [1]), [Goroutine(0), Shutdown])
        == LineAfter(Line([], [1]), [Shutdown]);
  }

  // ---------- the code ----------

  class Consumer {
    const poolSize: nat
    var msgs: seq<nat>
    var unsettled: nat
    var dispatcher: Dispatcher
    var jobs: seq<nat>
    var workers: seq<Worker>
    ghost var taken: multiset<nat>
    ghost var handled: multiset<nat>
    ghost var states: seq<State>
    ghost var steps: seq<Step>

    ghost function Abs(): State
      reads this
    {
      State(poolSize, msgs, unsettled, dispatcher, jobs, workers, taken, handled)
    }

    /** The steps so far are a run of the pool that has led to the present state. */
    ghost predicate Valid()
      reads this
    {
      Behavior(states, steps) && states[|steps|] == Abs() && states[0].pool == poolSize && Inv(Abs())
    }

    constructor (poolSize: nat)
      ensures Valid() && this.poolSize == poolSize && Abs() == states[0] && steps == []
    {
      this.poolSize := poolSize;
      msgs, unsettled, dispatcher, jobs := [], 0, Selecting, [];
      workers := seq(poolSize, _ => Waiting);
      taken, handled := multiset{}, multiset{};
      steps := [];
      new;
      states := [Abs()];
      InvHolds(states, steps, 0);
    }

    /** Records the step just made; ends every method that makes one. */
    ghost method Record(a: Step, s: State)
      requires Behavior(states, steps) && states[|steps|] == s && states[0].pool == poolSize && Inv(s)
      requires Follows(s, a, Abs())
      modifies this`states, this`steps
      ensures Valid() && steps == old(steps) + [a]
    {
      states, steps := states + [Abs()], steps + [a];
      forall i: nat | i < |steps|
        ensures StepAt(states, steps, i)
      {
        if i < |steps| - 1 {
          assert StepAt(old(states), old(steps), i);
        }
      }
      InvStep(s, a);
    }

    /** The broker delivers while fewer than `poolSize` messages are unsettled. */
    method Deliver(m: nat)
      requires Valid()
      modifies this
      ensures Valid()
      ensures Abs() == if poolSize == 0 || old(unsettled) < poolSize
                       then old(Abs()).(msgs := old(msgs) + [m], unsettled := old(unsettled) + 1) else old(Abs())
    {
      if poolSize == 0 || unsettled < poolSize {
        ghost var s := Abs();
        msgs, unsettled := msgs + [m], unsettled + 1;
        Record(WorkerPool.Deliver(m), s);
      }
    }

    /** A goroutine receives from `jobs`. */
    method Receive(w: nat)
      requires Valid() && w < |workers| && workers[w] == Waiting && jobs != []
      modifies this
      ensures Valid() && Abs() == Apply(old(Abs()), Recv(w))
    {
      ghost var s := Abs();
      workers := workers[w := Handling(jobs[0])];
      jobs := jobs[1..];
      Record(Recv(w), s);
    }

    /** A goroutine returns from `handle`; its ack or nack may have been lost. */
    method Complete(w: nat)
      requires Valid() && w < |workers| && workers[w].Handling?
      modifies this
      ensures Valid() && exists settled :: Enabled(old(Abs()), Finish(w, settled)) && Abs() == Apply(old(Abs()), Finish(w, settled))
    {
      ghost var s := Abs();
      var settled: bool := *;
      settled := settled && unsettled > 0;
      handled := handled + multiset{workers[w].m};
      workers := workers[w := Waiting];
      unsettled := if settled then unsettled - 1 else unsettled;
      assert Enabled(s, Finish(w, settled)) && Abs() == Apply(s, Finish(w, settled));
      Record(Finish(w, settled), s);
    }

    /** A goroutine's range loop ends on the closed, empty channel. */
    method End(w: nat)
      requires Valid() && w < |workers| && workers[w] == Waiting && jobs == [] && Closed(Abs())
      modifies this
      ensures Valid() && Abs() == Apply(old(Abs()), Exit(w))
    {
      ghost var s := Abs();
      workers := workers[w := Exited];
      Record(Exit(w), s);
    }

    /** One turn of `for msg := range jobs { handle }`; a goroutine with nothing to receive
        waits, unless the channel is closed. */
    method Work(w: nat)
      requires Valid() && w < |workers|
      modifies this
      ensures Valid() && Worked(old(Abs()), w, Abs())
      ensures Closed(old(Abs())) && !old(workers[w]).Exited? ==> DrainWork(Abs()) < DrainWork(old(Abs()))
    {
      ghost var s := Abs();
      match workers[w] {
        case Handling(_) =>
          Complete(w);
          ghost var settled :| Enabled(s, Finish(w, settled)) && Abs() == Apply(s, Finish(w, settled));
          ProgressIfClosed(s, Finish(w, settled));
        case Waiting =>
          if jobs != [] {
            Receive(w);
            ProgressIfClosed(s, Recv(w));
          } else if dispatcher == Draining || dispatcher == Returned {
            End(w);
            ProgressIfClosed(s, Exit(w));
          }
        case Exited =>
      }
    }

    /** `case msg := <-msgs: jobs <- msg`: with a worker the send finds room; without one it blocks for ever. */
    method Dispatch() returns (blocked: bool)
      requires Valid() && dispatcher == Selecting && msgs != []
      modifies this
      ensures Valid() && blocked == (poolSize == 0)
      ensures msgs == old(msgs)[1..] && taken == old(taken) + multiset{old(msgs)[0]}
      ensures workers == old(workers) && handled == old(handled) && unsettled == old(unsettled)
      ensures if blocked then dispatcher == Pushing(old(msgs)[0]) && jobs == old(jobs)
              else dispatcher == Selecting && jobs == old(jobs) + [old(msgs)[0]]
    {
      ghost var s := Abs();
      var msg := msgs[0];
      msgs, dispatcher, taken := msgs[1..], Pushing(msg), taken + multiset{msg};
      Record(TakeMsg, s);
      if |jobs| >= 2 * poolSize {
        return true;
      }
      s := Abs();
      jobs, dispatcher := jobs + [msg], Selecting;
      Record(Push, s);
      return false;
    }

    /** `close(jobs); wg.Wait()`, the goroutines running in any order. */
    method Drain()
      requires Valid() && dispatcher == Selecting
      modifies this
      ensures Valid() && dispatcher == Returned && jobs == [] && taken == old(taken) && handled == taken && msgs == old(msgs)
    {
      ghost var s := Abs();
      dispatcher := Draining;
      Record(Stop, s);
      while exists w :: 0 <= w < |workers| && !workers[w].Exited?
        invariant Valid() && dispatcher == Draining && taken == old(taken) && msgs == old(msgs)
        decreases DrainWork(Abs())
      {
        var w: nat :| w < |workers| && !workers[w].Exited?;
        Work(w);
      }
      s := Abs();
      dispatcher := Returned;
      Record(Return, s);
      ReturnedMeansHandled(states, steps, |steps|);
    }

    /** One turn of the select loop, or of what goes on beside it. */
    method Meet(turn: Turn) returns (blocked: bool)
      requires Valid() && dispatcher == Selecting && !turn.Shutdown?
      modifies this
      ensures Valid() && Met(old(Abs()), turn, Abs())
      ensures blocked == (poolSize == 0 && turn.Ready? && old(msgs) != [])
      ensures if blocked then dispatcher.Pushing? else dispatcher == Selecting
    {
      blocked := false;
      match turn {
        case Goroutine(w) =>
          if w < |workers| {
            Work(w);
          }
        case Delivered(m) =>
          Deliver(m);
        case Ready =>
          if msgs != [] {
            blocked := Dispatch();
          }
      }
    }

    /** `Run`: whatever arrives and whoever runs meanwhile, every message that is ready is taken, the oldest
        first; then it returns, and everything it took has been handled exactly once. Only without a worker
        the first message it takes blocks it for ever (`ZeroPoolBlocks`). `history` are the states between
        the turns. */
    method Run(script: seq<Turn>) returns (blocked: bool, ghost history: seq<State>)
      requires Valid() && dispatcher == Selecting
      modifies this
      ensures Valid() && (blocked <==> dispatcher.Pushing?) && (blocked ==> poolSize == 0)
      ensures Turns(history, script) && history[0] == old(Abs())
      ensures var n := |history| - 1;
              && taken == history[n].taken && msgs == history[n].msgs
              && (if blocked then n > 0 && script[n - 1].Ready? && history[n - 1].msgs != []
                  else n == |script| || script[n].Shutdown?)
      ensures !blocked ==> dispatcher == Returned && jobs == [] && handled == taken
      ensures !blocked && (poolSize == 0 || old(unsettled) + Deliveries(script) <= poolSize) ==>
                var line := LineAfter(Line(old(msgs), []), script);
                msgs == line.waiting && taken == old(taken) + multiset(line.taken)
    {
      history := [Abs()];
      var i := 0;
      blocked := false;
      while i < |script| && !script[i].Shutdown? && !blocked
        invariant i <= |script| && Valid() && Turns(history, script) && |history| == i + 1
        invariant history[0] == old(Abs()) && history[i] == Abs()
        invariant if blocked then poolSize == 0 && dispatcher.Pushing? && i > 0 && script[i - 1].Ready? && history[i - 1].msgs != []
                  else dispatcher == Selecting
      {
        blocked := Meet(script[i]);
        TurnsMore(history, script, Abs());
        history := history + [Abs()];
        i := i + 1;
      }
      if !blocked {
        Drain();
        if poolSize == 0 || old(unsettled) + Deliveries(script) <= poolSize {
          InLine(history, script, Line(old(msgs), []), i);
        }
      }
    }
  }
}
