/**
 The retry policy of the notification service: exponential backoff with jitter,
 computed in Go's 64-bit signed arithmetic.

 The callback, the random draw and the cancellation of the context are the
 environment of one call; everything else is what `Do` computes from them.
 */
module Backoff {
  import opened Options

  const TWO_63: int := 0x8000_0000_0000_0000
  const TWO_64: int := 0x1_0000_0000_0000_0000
  const NANOS_PER_MILLI: int := 1_000_000

  type int64 = x: int | -TWO_63 <= x < TWO_63

  /** The int64 a machine register holds after an operation with exact result `x`. */
  function Wrap(x: int): (r: int64)
    ensures -TWO_63 <= x < TWO_63 ==> r == x
  {
    (x + TWO_63) % TWO_64 - TWO_63
  }

  function Pow2(n: nat): (r: nat)
    ensures r >= 1
  {
    if n == 0 then 1 else 2 * Pow2(n - 1)
  }

  /** `b` doubled `n` times, exactly. */
  function Doubled(b: int, n: nat): int {
    if n == 0 then b else 2 * Doubled(b, n - 1)
  }

  /** Go's integer division, which truncates toward zero. */
  function TruncDiv(a: int, b: int): int
    requires b > 0
  {
    if a >= 0 then a / b else -((-a) / b)
  }

  datatype Policy = Policy(maxAttempts: int64, baseDelay: int64)

  /** The constructor `New`: a base delay in milliseconds, converted with wraparound. */
  function New(maxAttempts: int64, baseDelayMS: int64): Policy {
    Policy(maxAttempts, Wrap(baseDelayMS * NANOS_PER_MILLI))
  }

  /** What the surroundings of one `Do` do: the callback's result, the random draw and
      which branch of the select fires, each for a given attempt. */
  datatype Env = Env(succeeds: int -> bool, draw: int -> int, cancelled: int -> bool)

  datatype Error = Failed(attempt: int) | ContextDone

  datatype Outcome = Returned(err: Option<Error>) | Panicked

  /** Number of callback calls, the sleeps requested, and how the call ended. */
  datatype Trace = Trace(calls: nat, sleeps: seq<int>, outcome: Outcome)

  /** The delay after a failed attempt: the base doubled `attempt-1` times, in int64.
      `DelayIsMachineProduct` shows that it is the expression the source evaluates. */
  function Delay(p: Policy, attempt: int): int64
    requires attempt >= 1
  {
    Wrap(Doubled(p.baseDelay, attempt - 1))
  }

  /** `rand.Int63n(delay/5)` panics when its argument is not positive. */
  predicate JitterPanics(p: Policy, attempt: int)
    requires attempt >= 1
  {
    TruncDiv(Delay(p, attempt), 5) <= 0
  }

  /** `rand.Int63n(n)` returns some value of `[0, n)`; `draw` says which. */
  function Int63n(n: int, draw: int): (r: int)
    requires n > 0
    ensures 0 <= r < n && (0 <= draw < n ==> r == draw)
  {
    if 0 <= draw < n then draw else 0
  }

  /** The sleep after a failed attempt: delay plus jitter, the sum taken in int64. */
  function Sleep(p: Policy, attempt: int, draw: int): int64
    requires attempt >= 1 && !JitterPanics(p, attempt)
  {
    Wrap(Delay(p, attempt) + Int63n(TruncDiv(Delay(p, attempt), 5), draw))
  }

  /** The retry loop from attempt `k` on. */
  function DoFrom(p: Policy, env: Env, k: int): Trace
    requires k >= 1
    decreases p.maxAttempts - k
  {
    if k > p.maxAttempts then Trace(0, [], Returned(None))
    else if env.succeeds(k) then Trace(1, [], Returned(None))
    else if k == p.maxAttempts then Trace(1, [], Returned(Some(Failed(k))))
    else if JitterPanics(p, k) then Trace(1, [], Panicked)
    else
      var sleep := Sleep(p, k, env.draw(k));
      if env.cancelled(k) then Trace(1, [sleep], Returned(Some(ContextDone)))
      else
        var rest := DoFrom(p, env, k + 1);
        Trace(1 + rest.calls, [sleep] + rest.sleeps, rest.outcome)
  }

  /** A trace that continues with `rest` after some calls and sleeps. */
  function After(calls: nat, sleeps: seq<int>, rest: Trace): Trace {
    Trace(calls + rest.calls, sleeps + rest.sleeps, rest.outcome)
  }

  /** The call has made some calls and sleeps and continues with attempt `k`. */
  ghost predicate RunSoFar(p: Policy, env: Env, k: int, calls: nat, sleeps: seq<int>)
    requires k >= 1
  {
    DoFrom(p, env, 1) == After(calls, sleeps, DoFrom(p, env, k))
  }

  /** A failed attempt that is slept on is one more call and one more sleep. */
  lemma OneMoreAttempt(p: Policy, env: Env, k: int, calls: nat, sleeps: seq<int>)
    requires 1 <= k < p.maxAttempts && !env.succeeds(k) && !JitterPanics(p, k) && !env.cancelled(k)
    requires RunSoFar(p, env, k, calls, sleeps)
    ensures RunSoFar(p, env, k + 1, calls + 1, sleeps + [Sleep(p, k, env.draw(k))])
  {
    var sleep, rest := Sleep(p, k, env.draw(k)), DoFrom(p, env, k + 1);
    assert sleeps + ([sleep] + rest.sleeps) == (sleeps + [sleep]) + rest.sleeps;
  }

  /** An attempt that ends the call is the last one. */
  lemma NoMoreAttempts(p: Policy, env: Env, k: int, calls: nat, sleeps: seq<int>)
    requires 1 <= k <= p.maxAttempts && RunSoFar(p, env, k, calls, sleeps)
    ensures var t := DoFrom(p, env, 1);
            if env.succeeds(k) then t == Trace(calls + 1, sleeps, Returned(None))
            else if k == p.maxAttempts then t == Trace(calls + 1, sleeps, Returned(Some(Failed(k))))
            else if JitterPanics(p, k) then t == Trace(calls + 1, sleeps, Panicked)
            else env.cancelled(k) ==> t == Trace(calls + 1, sleeps + [Sleep(p, k, env.draw(k))], Returned(Some(ContextDone)))
  {
  }

  /** `Policy.Do`: the loop of the source against its recursive specification. */
  method Do(p: Policy, env: Env) returns (t: Trace)
    ensures t == DoFrom(p, env, 1)
  {
    var lastErr: Option<Error> := None;
    var calls: nat, sleeps := 0, [];
    var attempt := 1;
    while attempt <= p.maxAttempts
      invariant 1 <= attempt
      invariant attempt == 1 || attempt <= p.maxAttempts
      invariant attempt == 1 ==> lastErr == None && calls == 0
      invariant RunSoFar(p, env, attempt, calls, sleeps)
    {
      NoMoreAttempts(p, env, attempt, calls, sleeps);
      calls := calls + 1;
      if env.succeeds(attempt) {
        return Trace(calls, sleeps, Returned(None));
      }
      lastErr := Some(Failed(attempt));
      if attempt == p.maxAttempts {
        break;
      }
      if JitterPanics(p, attempt) {
        return Trace(calls, sleeps, Panicked);
      }
      var sleep := Sleep(p, attempt, env.draw(attempt));
      if env.cancelled(attempt) {
        return Trace(calls, sleeps + [sleep], Returned(Some(ContextDone)));
      }
      OneMoreAttempt(p, env, attempt, calls - 1, sleeps);
      sleeps := sleeps + [sleep];
      attempt := attempt + 1;
    }
    return Trace(calls, sleeps, Returned(lastErr));
  }

  // ---------- outcome of a call ----------

  /** From attempt `k` on: only the last call can succeed, and nil is returned exactly when it did. */
  lemma {:induction false} OutcomeFrom(p: Policy, env: Env, k: int)
    requires 1 <= k <= p.maxAttempts
    ensures var t := DoFrom(p, env, k);
            && 1 <= t.calls <= p.maxAttempts - k + 1
            && (forall j :: k <= j < k + t.calls - 1 ==> !env.succeeds(j))
            && (t.outcome == Returned(None) <==> env.succeeds(k + t.calls - 1))
            && (forall e :: t.outcome == Returned(Some(Failed(e))) ==> e == p.maxAttempts == k + t.calls - 1)
            && (t.outcome == Returned(Some(ContextDone)) ==> env.cancelled(k + t.calls - 1))
            && |t.sleeps| == if t.outcome == Returned(Some(ContextDone)) then t.calls else t.calls - 1
    decreases p.maxAttempts - k
  {
    if !env.succeeds(k) && k < p.maxAttempts && !JitterPanics(p, k) && !env.cancelled(k) {
      OutcomeFrom(p, env, k + 1);
    }
  }

  /** Between 1 and `maxAttempts` calls are made and nil is returned exactly when the last one
      succeeded; a final error is the one of the last attempt. A policy without attempts
      returns nil without calling at all. */
  lemma Outcomes(p: Policy, env: Env)
    ensures var t := DoFrom(p, env, 1);
            if p.maxAttempts < 1 then t == Trace(0, [], Returned(None))
            else
              && 1 <= t.calls <= p.maxAttempts
              && (forall j :: 1 <= j < t.calls ==> !env.succeeds(j))
              && (t.outcome == Returned(None) <==> env.succeeds(t.calls))
              && (t.outcome.Returned? && t.outcome.err.Some? ==>
                    || (t.outcome.err.value == Failed(t.calls) && t.calls == p.maxAttempts)
                    || (t.outcome.err.value == ContextDone && env.cancelled(t.calls)))
  {
    if p.maxAttempts >= 1 {
      OutcomeFrom(p, env, 1);
    }
  }

  // ---------- the machine arithmetic ----------

  lemma {:induction false} DoubledIsProduct(b: int, n: nat)
    ensures Doubled(b, n) == b * Pow2(n)
  {
    if n == 0 {
    } else {
      DoubledIsProduct(b, n - 1);
    }
  }

  lemma QuotientUnique(a: int, q: int, r: int)
    requires 0 <= r < TWO_64 && a == TWO_64 * q + r
    ensures a % TWO_64 == r
  {
  }

  lemma WrapShift(y: int, m: int)
    ensures Wrap(y + TWO_64 * m) == Wrap(y)
  {
    var q, r := (y + TWO_63) / TWO_64, (y + TWO_63) % TWO_64;
    assert y + TWO_64 * m + TWO_63 == TWO_64 * (q + m) + r;
    QuotientUnique(y + TWO_64 * m + TWO_63, q + m, r);
  }

  lemma WrapOfMultiple(b: int, x: int)
    ensures Wrap(b * Wrap(x)) == Wrap(b * x)
  {
    var q := (x + TWO_63) / TWO_64;
    assert Wrap(x) == x - TWO_64 * q;
    assert b * Wrap(x) == b * x + TWO_64 * (-b * q);
    WrapShift(b * x, -b * q);
  }

  /** The source computes `BaseDelay * (1 << (attempt-1))` with both operations wrapping;
      that is the wrapped exact product, for every base and every attempt. */
  lemma DelayIsMachineProduct(p: Policy, attempt: int)
    requires attempt >= 1
    ensures Delay(p, attempt) == Wrap(p.baseDelay * Wrap(Pow2(attempt - 1)))
  {
    DoubledIsProduct(p.baseDelay, attempt - 1);
    WrapOfMultiple(p.baseDelay, Pow2(attempt - 1));
  }

  // ---------- every run, without the recursion ----------

  /** The delay as the source computes it. */
  function MachineDelay(p: Policy, attempt: int): int64
    requires attempt >= 1
  {
    Wrap(p.baseDelay * Wrap(Pow2(attempt - 1)))
  }

  /** Attempt `k` is the last that is made: it succeeds, or none is left, or the jitter panics, or the wait is cut short. */
  ghost predicate Ends(p: Policy, env: Env, k: int)
    requires k >= 1
  {
    env.succeeds(k) || k == p.maxAttempts || MachineDelay(p, k) < 5 || env.cancelled(k)
  }

  /** How a call whose last attempt is `k` ends. */
  ghost predicate EndsWith(p: Policy, env: Env, k: int, outcome: Outcome)
    requires k >= 1
  {
    outcome ==
      if env.succeeds(k) then Returned(None)
      else if k == p.maxAttempts then Returned(Some(Failed(k)))
      else if MachineDelay(p, k) < 5 then Panicked
      else Returned(Some(ContextDone))
  }

  /** The sleep after a failed attempt `k` is the delay plus the value drawn below a fifth of it. */
  ghost predicate SleptAsDrawn(p: Policy, env: Env, k: int, sleep: int)
    requires k >= 1
  {
    var delay := MachineDelay(p, k);
    delay >= 5 && (0 <= env.draw(k) < delay / 5 ==> sleep == Wrap(delay + env.draw(k)))
  }

  /** The trace of the attempts `j` to `k`. */
  ghost predicate RunsTo(p: Policy, env: Env, j: int, k: int, t: Trace)
    requires 1 <= j <= k
  {
    && t.calls == k - j + 1 && EndsWith(p, env, k, t.outcome)
    && |t.sleeps| == k - j + (if t.outcome == Returned(Some(ContextDone)) then 1 else 0)
    && forall i :: 0 <= i < |t.sleeps| ==> SleptAsDrawn(p, env, j + i, t.sleeps[i])
  }

  lemma LastAttempt(p: Policy, env: Env, k: int)
    requires 1 <= k <= p.maxAttempts && Ends(p, env, k)
    ensures RunsTo(p, env, k, k, DoFrom(p, env, k))
  {
    DelayIsMachineProduct(p, k);
  }

  lemma SleptOn(p: Policy, env: Env, k: int)
    requires 1 <= k < p.maxAttempts && !Ends(p, env, k)
    ensures !JitterPanics(p, k) && SleptAsDrawn(p, env, k, Sleep(p, k, env.draw(k)))
    ensures DoFrom(p, env, k) == After(1, [Sleep(p, k, env.draw(k))], DoFrom(p, env, k + 1))
  {
    DelayIsMachineProduct(p, k);
  }

  lemma RunsOn(p: Policy, env: Env, j: int, k: int, sleep: int, rest: Trace)
    requires 1 <= j < k && SleptAsDrawn(p, env, j, sleep) && RunsTo(p, env, j + 1, k, rest)
    ensures RunsTo(p, env, j, k, After(1, [sleep], rest))
  {
    var t := After(1, [sleep], rest);
    forall i | 0 <= i < |t.sleeps|
      ensures SleptAsDrawn(p, env, j + i, t.sleeps[i])
    {
      if i > 0 {
        assert SleptAsDrawn(p, env, (j + 1) + (i - 1), rest.sleeps[i - 1]);
      }
    }
  }

  lemma {:induction false} EndsAtFrom(p: Policy, env: Env, j: int, k: int)
    requires 1 <= j <= k <= p.maxAttempts && Ends(p, env, k)
    requires forall i :: j <= i < k ==> !Ends(p, env, i)
    ensures RunsTo(p, env, j, k, DoFrom(p, env, j))
    decreases k - j
  {
    if j == k {
      LastAttempt(p, env, k);
    } else {
      EndsAtFrom(p, env, j + 1, k);
      SleptOn(p, env, j);
      RunsOn(p, env, j, k, Sleep(p, j, env.draw(j)), DoFrom(p, env, j + 1));
    }
  }

  /** A call makes its attempts up to the first that ends it, ends as that attempt makes it end, and
      every wait is the delay plus the jitter drawn. */
  lemma EndsAtFirst(p: Policy, env: Env, k: int)
    requires 1 <= k <= p.maxAttempts && Ends(p, env, k)
    requires forall i :: 1 <= i < k ==> !Ends(p, env, i)
    ensures var t := DoFrom(p, env, 1);
            && t.calls == k && EndsWith(p, env, k, t.outcome)
            && |t.sleeps| == (if t.outcome == Returned(Some(ContextDone)) then k else k - 1)
            && forall i :: 0 <= i < |t.sleeps| ==> SleptAsDrawn(p, env, 1 + i, t.sleeps[i])
  {
    EndsAtFrom(p, env, 1, k);
  }

  /** `New` keeps the attempts, and the configured base delay exactly up to about 292 years of milliseconds. */
  lemma NewIsExactIff(maxAttempts: int64, baseDelayMS: int64)
    ensures New(maxAttempts, baseDelayMS).maxAttempts == maxAttempts
    ensures New(maxAttempts, baseDelayMS).baseDelay == baseDelayMS * NANOS_PER_MILLI
            <==> -9_223_372_036_854 <= baseDelayMS <= 9_223_372_036_854
  {
  }

  // ---------- the exact condition for the jitter not to panic ----------

  /** The policies whose doublings stay int64 values of at least 5. */
  predicate InRange(p: Policy) {
    p.maxAttempts <= 1 || (p.baseDelay >= 5 && Doubled(p.baseDelay, p.maxAttempts - 2) < TWO_63)
  }

  lemma {:induction false} DoubledGrows(b: nat, m: nat, n: nat)
    requires m <= n
    ensures b <= Doubled(b, m) <= Doubled(b, n)
    decreases n
  {
    if m < n {
      DoubledGrows(b, m, n - 1);
    } else if 0 < n {
      DoubledGrows(b, n - 1, n - 1);
    }
  }

  /** The first doubling that does not fit wraps to a negative delay. */
  lemma FirstOverflowIsNegative(p: Policy, attempt: int)
    requires attempt >= 2
    requires Doubled(p.baseDelay, attempt - 2) < TWO_63 <= Doubled(p.baseDelay, attempt - 1)
    ensures Delay(p, attempt) < 0
  {
    assert Doubled(p.baseDelay, attempt - 1) == 2 * Doubled(p.baseDelay, attempt - 2);
  }

  lemma InRangeAttempt(p: Policy, k: int)
    requires InRange(p) && 1 <= k < p.maxAttempts
    ensures Delay(p, k) == Doubled(p.baseDelay, k - 1) >= 5
    ensures !JitterPanics(p, k)
  {
    DoubledGrows(p.baseDelay, k - 1, p.maxAttempts - 2);
  }

  lemma {:induction false} InRangeNeverPanicsFrom(p: Policy, env: Env, k: int)
    requires InRange(p) && k >= 1
    ensures DoFrom(p, env, k).outcome != Panicked
    decreases p.maxAttempts - k
  {
    if k < p.maxAttempts {
      InRangeAttempt(p, k);
      InRangeNeverPanicsFrom(p, env, k + 1);
    }
  }

  /** An environment in which no call succeeds and nothing is cancelled. */
  ghost predicate KeepsFailing(env: Env) {
    forall k: int :: !env.succeeds(k) && !env.cancelled(k)
  }

  lemma {:induction false} OutOfRangePanicsFrom(p: Policy, env: Env, k: int)
    requires KeepsFailing(env) && !InRange(p)
    requires 1 <= k < p.maxAttempts
    requires k == 1 || (p.baseDelay >= 5 && Doubled(p.baseDelay, k - 2) < TWO_63)
    ensures DoFrom(p, env, k).outcome == Panicked
    decreases p.maxAttempts - k
  {
    if p.baseDelay >= 5 {
      if Doubled(p.baseDelay, k - 1) < TWO_63 {
        OutOfRangePanicsFrom(p, env, k + 1);
      } else {
        FirstOverflowIsNegative(p, k);
      }
    }
  }

  /** With a callback that always fails, `Do` panics exactly outside the range. */
  lemma PanicsIffOutOfRange(p: Policy, env: Env)
    requires KeepsFailing(env)
    ensures DoFrom(p, env, 1).outcome == Panicked <==> !InRange(p)
  {
    if InRange(p) {
      InRangeNeverPanicsFrom(p, env, 1);
    } else {
      OutOfRangePanicsFrom(p, env, 1);
    }
  }

  /** Over every environment: no run panics exactly in the range. */
  lemma SafeInEveryEnvironmentIff(p: Policy)
    ensures (forall env: Env :: DoFrom(p, env, 1).outcome != Panicked) <==> InRange(p)
  {
    if InRange(p) {
      forall env: Env
        ensures DoFrom(p, env, 1).outcome != Panicked
      {
        InRangeNeverPanicsFrom(p, env, 1);
      }
    } else {
      var env := Env(k => false, k => 0, k => false);
      OutOfRangePanicsFrom(p, env, 1);
    }
  }

  // ---------- the sleeps ----------

  predicate WithinFifth(delay: int, sleep: int) {
    delay <= sleep && 5 * sleep < 6 * delay
  }

  /** The documented spacing of sleep `i`: the doubled base plus less than a fifth of it. */
  ghost predicate Spaced(p: Policy, sleeps: seq<int>) {
    forall i :: 0 <= i < |sleeps| ==> WithinFifth(Doubled(p.baseDelay, i), sleeps[i])
  }

  /** The largest sleep the policy can ask for still fits an int64. The jitter is added
      to a delay that may already be close to 2^63, so this is more than `InRange`. */
  predicate SleepsFit(p: Policy) {
    p.maxAttempts <= 1 ||
    (p.baseDelay >= 5 &&
     var d := Doubled(p.baseDelay, p.maxAttempts - 2);
     d + (d / 5 - 1) < TWO_63)
  }

  lemma SleepWithin(p: Policy, k: int, draw: int)
    requires SleepsFit(p) && 1 <= k < p.maxAttempts
    ensures InRange(p) && !JitterPanics(p, k)
    ensures WithinFifth(Doubled(p.baseDelay, k - 1), Sleep(p, k, draw))
  {
    DoubledGrows(p.baseDelay, k - 1, p.maxAttempts - 2);
    InRangeAttempt(p, k);
  }

  lemma {:induction false} SpacedFrom(p: Policy, env: Env, k: int)
    requires SleepsFit(p) && k >= 1
    ensures forall i :: 0 <= i < |DoFrom(p, env, k).sleeps| ==>
              WithinFifth(Doubled(p.baseDelay, k - 1 + i), DoFrom(p, env, k).sleeps[i])
    decreases p.maxAttempts - k
  {
    if k < p.maxAttempts && !env.succeeds(k) {
      SleepWithin(p, k, env.draw(k));
      if !env.cancelled(k) {
        SpacedFrom(p, env, k + 1);
        var t, rest := DoFrom(p, env, k), DoFrom(p, env, k + 1);
        forall i | 0 <= i < |t.sleeps|
          ensures WithinFifth(Doubled(p.baseDelay, k - 1 + i), t.sleeps[i])
        {
          if i > 0 {
            assert t.sleeps[i] == rest.sleeps[i - 1];
            assert k - 1 + i == (k + 1) - 1 + (i - 1);
          }
        }
      }
    }
  }

  lemma AllSpaced(p: Policy, env: Env)
    requires SleepsFit(p)
    ensures Spaced(p, DoFrom(p, env, 1).sleeps)
  {
    SpacedFrom(p, env, 1);
  }

  /** In range, a run that keeps failing reaches the sleep before the final attempt. */
  lemma {:induction false} LastSleepFrom(p: Policy, env: Env, k: int)
    requires InRange(p) && KeepsFailing(env) && 1 <= k < p.maxAttempts
    ensures !JitterPanics(p, p.maxAttempts - 1)
    ensures |DoFrom(p, env, k).sleeps| == p.maxAttempts - k
    ensures DoFrom(p, env, k).sleeps[p.maxAttempts - 1 - k] ==
            Sleep(p, p.maxAttempts - 1, env.draw(p.maxAttempts - 1))
    decreases p.maxAttempts - k
  {
    InRangeAttempt(p, k);
    if k + 1 < p.maxAttempts {
      LastSleepFrom(p, env, k + 1);
    }
  }

  /** In range, every sleep of every run has the documented spacing exactly when the largest one
      fits an int64; otherwise some draw makes the final sleep negative. */
  lemma SpacedIff(p: Policy)
    requires InRange(p)
    ensures (forall env: Env :: Spaced(p, DoFrom(p, env, 1).sleeps)) <==> SleepsFit(p)
  {
    if SleepsFit(p) {
      forall env: Env
        ensures Spaced(p, DoFrom(p, env, 1).sleeps)
      {
        AllSpaced(p, env);
      }
    } else {
      var last := p.maxAttempts - 1;
      InRangeAttempt(p, last);
      var d := Doubled(p.baseDelay, last - 1);
      var env := Env(k => false, k => d / 5 - 1, k => false);
      LastSleepFrom(p, env, 1);
      var sleeps := DoFrom(p, env, 1).sleeps;
      assert sleeps[last - 1] == d + (d / 5 - 1) - TWO_64 < 0;
      assert !Spaced(p, sleeps);
    }
  }

  function Sum(s: seq<int>): int {
    if s == [] then 0 else Sum(s[..|s| - 1]) + s[|s| - 1]
  }

  lemma {:induction false} SumBounds(p: Policy, sleeps: seq<int>)
    requires Spaced(p, sleeps)
    ensures var geometric := Doubled(p.baseDelay, |sleeps|) - p.baseDelay;
            geometric <= Sum(sleeps) && (sleeps != [] ==> 5 * Sum(sleeps) < 6 * geometric)
  {
    if sleeps == [] {
    } else {
      SumBounds(p, sleeps[..|sleeps| - 1]);
      assert WithinFifth(Doubled(p.baseDelay, |sleeps| - 1), sleeps[|sleeps| - 1]);
    }
  }

  lemma SpacedIncreases(p: Policy, sleeps: seq<int>)
    requires Spaced(p, sleeps) && p.baseDelay >= 1
    ensures forall i, j :: 0 <= i < j < |sleeps| ==> sleeps[i] < sleeps[j]
  {
    forall i, j | 0 <= i < j < |sleeps|
      ensures sleeps[i] < sleeps[j]
    {
      DoubledGrows(p.baseDelay, i + 1, j);
      DoubledGrows(p.baseDelay, i, i);
      assert WithinFifth(Doubled(p.baseDelay, i), sleeps[i]) && WithinFifth(Doubled(p.baseDelay, j), sleeps[j]);
    }
  }

  /** Each sleep strictly exceeds the previous ones, and the sleeps between m calls total
      between base*(2^(m-1)-1), which is `Doubled(base, m-1) - base`, and strictly less than 6/5 of it. */
  lemma SleepsGrowGeometrically(p: Policy, env: Env)
    requires SleepsFit(p)
    ensures var sleeps := DoFrom(p, env, 1).sleeps;
            var geometric := Doubled(p.baseDelay, |sleeps|) - p.baseDelay;
            && (forall i, j :: 0 <= i < j < |sleeps| ==> sleeps[i] < sleeps[j])
            && geometric <= Sum(sleeps)
            && (sleeps != [] ==> 5 * Sum(sleeps) < 6 * geometric)
  {
    var sleeps := DoFrom(p, env, 1).sleeps;
    AllSpaced(p, env);
    SumBounds(p, sleeps);
    if p.maxAttempts > 1 {
      SpacedIncreases(p, sleeps);
    } else {
      assert sleeps == [];
    }
  }

  // ---------- the longest total backoff, for the idempotency TTL ----------

  /** The longest sleep that can follow failed attempt `k` (0 if it cannot sleep). */
  function MaxSleep(p: Policy, k: int): (r: nat)
    requires k >= 1
    ensures forall draw: int :: !JitterPanics(p, k) ==> Sleep(p, k, draw) <= r
  {
    var d := Delay(p, k);
    if d < 5 then 0
    else if d + (d / 5 - 1) < TWO_63 then d + (d / 5 - 1)
    else TWO_63 - 1
  }

  /** Where the jitter does not panic, some draw asks for it. */
  lemma MaxSleepIsDrawn(p: Policy, k: int) returns (draw: int)
    requires k >= 1 && !JitterPanics(p, k)
    ensures Sleep(p, k, draw) == MaxSleep(p, k)
  {
    var d := Delay(p, k);
    draw := if d + (d / 5 - 1) < TWO_63 then d / 5 - 1 else TWO_63 - 1 - d;
  }

  /** The longest backoff spent by the first `n` failed attempts. */
  function MaxBackoff(p: Policy, n: nat): nat {
    if n == 0 then 0 else MaxBackoff(p, n - 1) + MaxSleep(p, n)
  }

  /** In range, the longest backoff of `n` failed attempts stays below 6/5 of the geometric sum. */
  lemma {:induction false} MaxBackoffGeometric(p: Policy, n: nat)
    requires InRange(p) && n < p.maxAttempts
    ensures 5 * MaxBackoff(p, n) <= 6 * (Doubled(p.baseDelay, n) - p.baseDelay) - 5 * n
  {
    if n == 0 {
    } else {
      MaxBackoffGeometric(p, n - 1);
      InRangeAttempt(p, n);
    }
  }
}
