/**
 The fixed-window rate limiter over Redis counters with a time to live, and its agreement
 with a pure count per identity and window.
 */
module RateLimiter {
  import opened Options
  import opened Faults

  const WINDOW: nat := 60

  // ---------- keys ----------

  function Digit(d: nat): char
    requires d < 10
  {
    '0' + d as char
  }

  /** `%d` of a non-negative number. */
  function Decimal(n: nat): string {
    if n < 10 then [Digit(n)] else Decimal(n / 10) + [Digit(n % 10)]
  }

  /** `rl:<identity>:<bucket>`. */
  function CounterKey(identity: string, bucket: nat): string {
    "rl:" + identity + ":" + Decimal(bucket)
  }

  lemma {:induction false} DecimalHasNoColon(n: nat)
    ensures ':' !in Decimal(n) && |Decimal(n)| >= 1
  {
    assert forall d: nat :: d < 10 ==> Digit(d) != ':';
    if n >= 10 {
      DecimalHasNoColon(n / 10);
    }
  }

  lemma {:induction false} DecimalInjective(m: nat, n: nat)
    requires Decimal(m) == Decimal(n)
    ensures m == n
  {
    assert forall d: nat, e: nat :: d < 10 && e < 10 && Digit(d) == Digit(e) ==> d == e;
    var s, t := Decimal(m), Decimal(n);
    assert s[|s| - 1] == Digit(m % 10) && t[|t| - 1] == Digit(n % 10);
    DecimalHasNoColon(m / 10);
    DecimalHasNoColon(n / 10);
    if m >= 10 && n >= 10 {
      assert s[..|s| - 1] == Decimal(m / 10) && t[..|t| - 1] == Decimal(n / 10);
      DecimalInjective(m / 10, n / 10);
    }
  }

  /** Whatever the identities contain, colons included, only equal identities in the same
      window share a counter: the bucket is what follows the last colon. */
  lemma CounterKeyInjective(i: string, b: nat, j: string, c: nat)
    ensures CounterKey(i, b) == CounterKey(j, c) <==> i == j && b == c
  {
    if CounterKey(i, b) == CounterKey(j, c) {
      DecimalHasNoColon(b);
      DecimalHasNoColon(c);
      var k, x, y := CounterKey(i, b), Decimal(b), Decimal(c);
      assert k[|k| - |x| - 1] == ':' && k[|k| - |y| - 1] == ':';
      assert k[|k| - |x|..] == x && k[|k| - |y|..] == y;
      assert |x| == |y|;
      DecimalInjective(b, c);
      assert k[3..|k| - |x| - 1] == i && k[3..|k| - |y| - 1] == j;
    }
  }

  lemma KeyLooksLike()
    ensures CounterKey("u1", 29) == "rl:u1:29"
  {
    assert Decimal(29) == Decimal(2) + ['9'] && Decimal(2) == ['2'];
    assert "rl:" + "u1" + ":" + "29" == "rl:u1:29";
  }

  // ---------- the handler ----------

  /** A counter in Redis; without an expiry it lives for ever. */
  datatype Counter = Counter(count: nat, expiresAt: Option<nat>)

  type Store = map<string, Counter>

  /** One request: its header and address, the second it is served in (clock, INCR and EXPIRE
      at one instant), how Redis fares, and the second of the later clock read for Retry-After. */
  datatype Request = Request(userId: string, clientIP: string, at: nat, incr: Fault, expireApplied: bool, later: nat)

  datatype Decision =
    | FailOpen
    | Admit(remaining: nat)
    | TooManyRequests(remaining: nat, retryAfter: int)

  function Identity(r: Request): string {
    if r.userId == "" then r.clientIP else r.userId
  }

  function Bucket(t: nat): nat {
    t / WINDOW
  }

  function KeyOf(r: Request): string {
    CounterKey(Identity(r), Bucket(r.at))
  }

  predicate Live(c: Counter, now: nat) {
    c.expiresAt.Some? ==> now < c.expiresAt.value
  }

  /** The counter INCR leaves: an absent or expired one starts at 1 without a time to live. */
  function Incremented(store: Store, key: string, now: nat): Counter {
    if key in store && Live(store[key], now) then store[key].(count := store[key].count + 1)
    else Counter(1, None)
  }

  /** INCR, then EXPIRE when the reply was 1. */
  function StoreAfter(store: Store, r: Request): Store {
    var c := Incremented(store, KeyOf(r), r.at);
    match r.incr
    case NotApplied => store
    case AppliedWithError => store[KeyOf(r) := c]
    case NoFault =>
      store[KeyOf(r) := if c.count == 1 && r.expireApplied then c.(expiresAt := Some(r.at + WINDOW)) else c]
  }

  function RetryAfter(now: nat): int {
    WINDOW - now % WINDOW
  }

  function Decide(limit: int, store: Store, r: Request): Decision {
    if r.incr != NoFault then FailOpen
    else
      var count := Incremented(store, KeyOf(r), r.at).count;
      var remaining := if limit - count < 0 then 0 else limit - count;
      if count > limit then TooManyRequests(remaining, RetryAfter(r.later)) else Admit(remaining)
  }

  class Limiter {
    const limit: int
    var store: Store

    constructor (requestsPerMinute: int)
      ensures limit == requestsPerMinute && store == map[]
    {
      limit, store := requestsPerMinute, map[];
    }

    method Incr(key: string, now: nat, incr: Fault) returns (count: nat)
      modifies this`store
      ensures count == Incremented(old(store), key, now).count
      ensures store == if incr == NotApplied then old(store) else old(store)[key := Incremented(old(store), key, now)]
    {
      var c := Counter(1, None);
      if key in store && Live(store[key], now) {
        c := store[key].(count := store[key].count + 1);
      }
      count := c.count;
      if incr != NotApplied {
        store := store[key := c];
      }
    }

    method Handle(r: Request) returns (d: Decision)
      modifies this
      ensures store == StoreAfter(old(store), r)
      ensures d == Decide(limit, old(store), r)
    {
      var identity := r.userId;
      if identity == "" {
        identity := r.clientIP;
      }
      var bucket := r.at / WINDOW;
      var key := CounterKey(identity, bucket);
      var count := Incr(key, r.at, r.incr);
      if r.incr != NoFault {
        return FailOpen;
      }
      if count == 1 && r.expireApplied {
        store := store[key := store[key].(expiresAt := Some(r.at + WINDOW))];
      }
      var remaining := limit - count;
      if remaining < 0 {
        remaining := 0;
      }
      if count > limit {
        return TooManyRequests(remaining, RetryAfter(r.later));
      }
      return Admit(remaining);
    }
  }

  // ---------- whole runs ----------

  /** The store after a run of requests from an empty one. */
  function After(reqs: seq<Request>): Store {
    if reqs == [] then map[] else StoreAfter(After(reqs[..|reqs| - 1]), reqs[|reqs| - 1])
  }

  function DecisionAt(limit: int, reqs: seq<Request>, i: nat): Decision
    requires i < |reqs|
  {
    Decide(limit, After(reqs[..i]), reqs[i])
  }

  /** The pure counter: how many of the requests incremented this identity's window. */
  function Count(reqs: seq<Request>, identity: string, bucket: nat): nat {
    if reqs == [] then 0
    else
      var r := reqs[|reqs| - 1];
      Count(reqs[..|reqs| - 1], identity, bucket) +
      if Identity(r) == identity && Bucket(r.at) == bucket && r.incr != NotApplied then 1 else 0
  }

  /** The stored counter of every identity and window is the pure one, and outlives its window. */
  ghost predicate Agrees(store: Store, reqs: seq<Request>, identity: string, bucket: nat) {
    var key, n := CounterKey(identity, bucket), Count(reqs, identity, bucket);
    if n == 0 then key !in store
    else key in store && store[key].count == n && (store[key].expiresAt.Some? ==> store[key].expiresAt.value >= (bucket + 1) * WINDOW)
  }

  lemma WindowEndsAfter(t: nat)
    ensures Bucket(t) * WINDOW <= t < (Bucket(t) + 1) * WINDOW <= t + WINDOW
  {
  }

  lemma {:induction false} StoreAgrees(reqs: seq<Request>, identity: string, bucket: nat)
    ensures Agrees(After(reqs), reqs, identity, bucket)
  {
    if reqs == [] {
    } else {
      var init, r := reqs[..|reqs| - 1], reqs[|reqs| - 1];
      StoreAgrees(init, identity, bucket);
      CounterKeyInjective(Identity(r), Bucket(r.at), identity, bucket);
      WindowEndsAfter(r.at);
    }
  }

  /** The expiry the first request counted in a window gave its counter: none if its EXPIRE was
      lost, or was never sent because the reply to INCR was. */
  function FirstExpiry(reqs: seq<Request>, identity: string, bucket: nat): Option<nat> {
    if reqs == [] then None
    else
      var init, r := reqs[..|reqs| - 1], reqs[|reqs| - 1];
      if Count(init, identity, bucket) > 0 || !(Identity(r) == identity && Bucket(r.at) == bucket) then
        FirstExpiry(init, identity, bucket)
      else if r.incr == NoFault && r.expireApplied then Some(r.at + WINDOW)
      else None
  }

  /** A counter's time to live is set once, by its first request: with a reply to INCR and an
      EXPIRE that is applied the counter dies during the next window, otherwise it lives for ever. */
  lemma {:induction false} ExpiryIsTheFirst(reqs: seq<Request>, identity: string, bucket: nat)
    ensures var key, expiry := CounterKey(identity, bucket), FirstExpiry(reqs, identity, bucket);
            && (key in After(reqs) ==> After(reqs)[key].expiresAt == expiry)
            && (expiry.Some? ==> (bucket + 1) * WINDOW <= expiry.value < (bucket + 2) * WINDOW)
  {
    if reqs == [] {
    } else {
      var init, r := reqs[..|reqs| - 1], reqs[|reqs| - 1];
      ExpiryIsTheFirst(init, identity, bucket);
      StoreAgrees(init, identity, bucket);
      CounterKeyInjective(Identity(r), Bucket(r.at), identity, bucket);
      WindowEndsAfter(r.at);
    }
  }

  /** The limiter admits exactly the requests whose rank in their identity's window is below
      the limit, whether or not EXPIRE succeeds, and reports what is left. */
  lemma AdmitsExactlyTheFirst(limit: int, reqs: seq<Request>, i: nat)
    requires i < |reqs| && reqs[i].incr == NoFault
    ensures var rank := Count(reqs[..i], Identity(reqs[i]), Bucket(reqs[i].at));
            && (DecisionAt(limit, reqs, i).Admit? <==> rank < limit)
            && (rank < limit ==> DecisionAt(limit, reqs, i).remaining == limit - rank - 1)
            && (rank >= limit ==> DecisionAt(limit, reqs, i) == TooManyRequests(0, RetryAfter(reqs[i].later)))
  {
    var r := reqs[i];
    StoreAgrees(reqs[..i], Identity(r), Bucket(r.at));
    WindowEndsAfter(r.at);
  }

  // ---------- whose requests are counted together ----------

  /** Requests of one user, of one address without a user, or of an address equal to the other's user id. */
  predicate SameCaller(a: Request, b: Request) {
    || (a.userId != "" && b.userId == a.userId)
    || (a.userId == "" && b.userId == "" && a.clientIP == b.clientIP)
    || (a.userId == "" && b.userId != "" && a.clientIP == b.userId)
    || (a.userId != "" && b.userId == "" && a.userId == b.clientIP)
  }

  /** Two requests share a counter exactly when they are the same caller's in the same minute. */
  lemma SharesCounterIff(a: Request, b: Request)
    ensures KeyOf(a) == KeyOf(b) <==> a.at / 60 == b.at / 60 && SameCaller(a, b)
  {
    CounterKeyInjective(Identity(a), Bucket(a.at), Identity(b), Bucket(b.at));
  }

  /** The requests that Redis counted in the same minute for the same caller as `r`. */
  function Peers(reqs: seq<Request>, r: Request): seq<Request> {
    if reqs == [] then []
    else
      var last := reqs[|reqs| - 1];
      Peers(reqs[..|reqs| - 1], r) +
      if last.incr != NotApplied && last.at / 60 == r.at / 60 && SameCaller(last, r) then [last] else []
  }

  lemma {:induction false} CountIsPeers(reqs: seq<Request>, r: Request)
    ensures Count(reqs, Identity(r), Bucket(r.at)) == |Peers(reqs, r)|
  {
    if reqs != [] {
      var last := reqs[|reqs| - 1];
      CountIsPeers(reqs[..|reqs| - 1], r);
      assert Identity(last) == Identity(r) <==> SameCaller(last, r);
    }
  }

  /** Every decision, from the requests alone: a failing INCR lets the request pass, and otherwise
      it passes exactly when fewer than `limit` of its peers came before it. */
  lemma DecisionIsByPeers(limit: int, reqs: seq<Request>, i: nat)
    requires i < |reqs|
    ensures var n := |Peers(reqs[..i], reqs[i])|;
            DecisionAt(limit, reqs, i) ==
              if reqs[i].incr != NoFault then FailOpen
              else if n < limit then Admit(limit - n - 1)
              else TooManyRequests(0, 60 - reqs[i].later % 60)
  {
    if reqs[i].incr == NoFault {
      AdmitsExactlyTheFirst(limit, reqs, i);
      CountIsPeers(reqs[..i], reqs[i]);
    }
  }

  lemma {:induction false} PeersOfPeers(reqs: seq<Request>, r: Request)
    ensures Peers(Peers(reqs, r), r) == Peers(reqs, r)
  {
    if reqs == [] {
    } else {
      var last, init := reqs[|reqs| - 1], Peers(reqs[..|reqs| - 1], r);
      PeersOfPeers(reqs[..|reqs| - 1], r);
      assert init + [] == init;
      if last.incr != NotApplied && last.at / 60 == r.at / 60 && SameCaller(last, r) {
        assert Peers(reqs, r) == init + [last];
        assert (init + [last])[..|init|] == init;
      }
    }
  }

  /** No other caller's request, whatever its address, changes a decision: had they never been made, it would be the same. */
  lemma OthersDoNotMatter(limit: int, reqs: seq<Request>, r: Request)
    ensures Decide(limit, After(reqs), r) == Decide(limit, After(Peers(reqs, r)), r)
  {
    var all, own := reqs + [r], Peers(reqs, r) + [r];
    assert all[..|reqs|] == reqs && own[..|own| - 1] == Peers(reqs, r);
    DecisionIsByPeers(limit, all, |reqs|);
    DecisionIsByPeers(limit, own, |own| - 1);
    PeersOfPeers(reqs, r);
  }

  /** Two users behind one address have a counter each. */
  lemma UsersBehindOneAddress(u: string, v: string, ip: string)
    requires u != "" && v != "" && u != v
    ensures DecisionAt(1, [Request(u, ip, 0, NoFault, true, 0), Request(v, ip, 0, NoFault, true, 0)], 1) == Admit(0)
    ensures DecisionAt(1, [Request(u, ip, 0, NoFault, true, 0), Request(u, "", 0, NoFault, true, 0)], 1) == TooManyRequests(0, 60)
  {
    var a, b, c := Request(u, ip, 0, NoFault, true, 0), Request(v, ip, 0, NoFault, true, 0), Request(u, "", 0, NoFault, true, 0);
    assert [a, b][..1] == [a] && [a, c][..1] == [a] && [a][..0] == [];
    assert Peers([a], b) == [] && Peers([a], c) == [a];
    DecisionIsByPeers(1, [a, b], 1);
    DecisionIsByPeers(1, [a, c], 1);
  }

  // ---------- admitted requests in any interval ----------

  /** How many counted requests selected by `sel` the limiter admits. */
  function Tally(limit: int, reqs: seq<Request>, sel: Request -> bool): nat {
    if reqs == [] then 0
    else
      var r := reqs[|reqs| - 1];
      Tally(limit, reqs[..|reqs| - 1], sel) +
      if Decide(limit, After(reqs[..|reqs| - 1]), r).Admit? && sel(r) then 1 else 0
  }

  lemma {:induction false} TallyMonotone(limit: int, reqs: seq<Request>, p: Request -> bool, q: Request -> bool)
    requires forall r :: p(r) ==> q(r)
    ensures Tally(limit, reqs, p) <= Tally(limit, reqs, q)
  {
    if reqs == [] {
    } else {
      TallyMonotone(limit, reqs[..|reqs| - 1], p, q);
    }
  }

  lemma {:induction false} TallySplits(limit: int, reqs: seq<Request>, p: Request -> bool, q: Request -> bool, u: Request -> bool)
    requires forall r :: u(r) ==> p(r) || q(r)
    ensures Tally(limit, reqs, u) <= Tally(limit, reqs, p) + Tally(limit, reqs, q)
  {
    if reqs == [] {
    } else {
      TallySplits(limit, reqs[..|reqs| - 1], p, q, u);
    }
  }

  function Positive(limit: int): nat {
    if limit < 0 then 0 else limit
  }

  function InWindows(identity: string, lo: int, hi: int): Request -> bool {
    (r: Request) => Identity(r) == identity && lo <= Bucket(r.at) < hi
  }

  function InSeconds(identity: string, from: nat, length: nat): Request -> bool {
    (r: Request) => Identity(r) == identity && from <= r.at < from + length
  }

  /** One window admits at most the limit. */
  lemma {:induction false} WindowBound(limit: int, reqs: seq<Request>, identity: string, bucket: nat)
    ensures var t := Tally(limit, reqs, InWindows(identity, bucket, bucket + 1));
            t <= Count(reqs, identity, bucket) && t <= Positive(limit)
  {
    if reqs == [] {
    } else {
      var n := |reqs| - 1;
      WindowBound(limit, reqs[..n], identity, bucket);
      if reqs[n].incr == NoFault {
        AdmitsExactlyTheFirst(limit, reqs, n);
      }
    }
  }

  lemma {:induction false} TallyEmpty(limit: int, reqs: seq<Request>, p: Request -> bool)
    requires forall r :: !p(r)
    ensures Tally(limit, reqs, p) == 0
  {
    if reqs == [] {
    } else {
      TallyEmpty(limit, reqs[..|reqs| - 1], p);
    }
  }

  lemma {:induction false} WindowsBound(limit: int, reqs: seq<Request>, identity: string, lo: nat, hi: nat)
    requires lo <= hi
    ensures Tally(limit, reqs, InWindows(identity, lo, hi)) <= Positive(limit) * (hi - lo)
    decreases hi
  {
    if lo == hi {
      TallyEmpty(limit, reqs, InWindows(identity, lo, hi));
    } else {
      WindowsBound(limit, reqs, identity, lo, hi - 1);
      WindowBound(limit, reqs, identity, hi - 1);
      TallySplits(limit, reqs, InWindows(identity, lo, hi - 1), InWindows(identity, hi - 1, hi), InWindows(identity, lo, hi));
      assert Positive(limit) * (hi - lo) == Positive(limit) * (hi - 1 - lo) + Positive(limit);
    }
  }

  /** How many windows `length` consecutive seconds can touch. */
  function Touched(length: nat): nat {
    (length + 58) / 60 + 1
  }

  lemma Scale(n: nat, a: nat, b: nat)
    requires a <= b
    ensures n * a <= n * b
  {
  }

  /** Any `length` consecutive seconds admit at most the limit per window they can touch. */
  lemma SlidingBound(limit: int, reqs: seq<Request>, identity: string, from: nat, length: nat)
    requires length >= 1
    ensures Tally(limit, reqs, InSeconds(identity, from, length)) <= Positive(limit) * Touched(length)
  {
    var lo, hi := Bucket(from), Bucket(from + length - 1) + 1;
    assert hi - lo <= Touched(length);
    forall r: Request | InSeconds(identity, from, length)(r)
      ensures InWindows(identity, lo, hi)(r)
    {
    }
    TallyMonotone(limit, reqs, InSeconds(identity, from, length), InWindows(identity, lo, hi));
    WindowsBound(limit, reqs, identity, lo, hi);
    Scale(Positive(limit), hi - lo, Touched(length));
  }

  /** No minute, aligned or not, admits more than twice the limit. */
  lemma MinuteBound(limit: int, reqs: seq<Request>, identity: string, from: nat)
    ensures Tally(limit, reqs, InSeconds(identity, from, 60)) <= 2 * Positive(limit)
  {
    SlidingBound(limit, reqs, identity, from, 60);
  }

  // ---------- the bound is attained ----------

  /** A request in the last second of window 0, or in the first second of a later one. */
  function AtBoundary(identity: string, window: nat): Request {
    Request(identity, "", if window == 0 then 59 else 60 * window, NoFault, true, 0)
  }

  /** `limit` requests in each window below `window`, then `n` in `window` itself. */
  function Burst(identity: string, limit: nat, window: nat, n: nat): seq<Request>
    decreases window, n
  {
    if n > 0 then Burst(identity, limit, window, n - 1) + [AtBoundary(identity, window)]
    else if window > 0 then Burst(identity, limit, window - 1, limit)
    else []
  }

  lemma {:induction false} BurstCount(identity: string, limit: nat, window: nat, n: nat, bucket: nat)
    requires identity != "" && bucket >= window
    ensures Count(Burst(identity, limit, window, n), identity, bucket) == if bucket == window then n else 0
    decreases window, n
  {
    if n > 0 {
      BurstCount(identity, limit, window, n - 1, bucket);
      assert Burst(identity, limit, window, n)[..|Burst(identity, limit, window, n)| - 1] == Burst(identity, limit, window, n - 1);
    } else if window > 0 {
      BurstCount(identity, limit, window - 1, limit, bucket);
    }
  }

  /** The last request of a burst is admitted. */
  lemma BurstNext(identity: string, limit: nat, window: nat, n: nat, length: nat)
    requires identity != "" && 1 <= n <= limit && length >= 1 && 60 * window < 59 + length
    ensures var sel := InSeconds(identity, 59, length);
            Tally(limit, Burst(identity, limit, window, n), sel) == Tally(limit, Burst(identity, limit, window, n - 1), sel) + 1
  {
    var reqs, last := Burst(identity, limit, window, n), |Burst(identity, limit, window, n - 1)|;
    assert reqs[..last] == Burst(identity, limit, window, n - 1);
    AdmitsExactlyTheFirst(limit, reqs, last);
    BurstCount(identity, limit, window, n - 1, window);
    assert Identity(reqs[last]) == identity && Bucket(reqs[last].at) == window;
    assert InSeconds(identity, 59, length)(reqs[last]);
  }

  /** What a burst that fills the windows below `window` has been admitted. */
  function Full(limit: nat, window: nat): nat {
    if window == 0 then 0 else Full(limit, window - 1) + limit
  }

  lemma {:induction false} FullIsProduct(limit: nat, window: nat)
    ensures Full(limit, window) == limit * window
  {
    if window == 0 {
    } else {
      FullIsProduct(limit, window - 1);
    }
  }

  lemma NothingYet(identity: string, limit: nat, length: nat)
    ensures Tally(limit, Burst(identity, limit, 0, 0), InSeconds(identity, 59, length)) == 0
  {
  }

  lemma BurstRolls(identity: string, limit: nat, window: nat)
    requires window > 0
    ensures Burst(identity, limit, window, 0) == Burst(identity, limit, window - 1, limit)
  {
  }

  /** Within a window every request of a burst is admitted. */
  lemma {:induction false} WindowAdmitted(identity: string, limit: nat, window: nat, n: nat, length: nat, before: nat)
    requires identity != "" && n <= limit && length >= 1 && 60 * window < 59 + length
    requires Tally(limit, Burst(identity, limit, window, 0), InSeconds(identity, 59, length)) == before
    ensures Tally(limit, Burst(identity, limit, window, n), InSeconds(identity, 59, length)) == before + n
  {
    if n == 0 {
    } else {
      WindowAdmitted(identity, limit, window, n - 1, length, before);
      BurstNext(identity, limit, window, n, length);
    }
  }

  /** And so in all windows before it. */
  lemma {:induction false} WindowsAdmitted(identity: string, limit: nat, window: nat, length: nat)
    requires identity != "" && length >= 1 && 60 * window < 59 + length
    ensures Tally(limit, Burst(identity, limit, window, 0), InSeconds(identity, 59, length)) == Full(limit, window)
  {
    if window == 0 {
      NothingYet(identity, limit, length);
    } else {
      WindowsAdmitted(identity, limit, window - 1, length);
      WindowAdmitted(identity, limit, window - 1, limit, length, Full(limit, window - 1));
      BurstRolls(identity, limit, window);
    }
  }

  /** For every limit and every length, requests around the window boundaries reach the bound. */
  lemma SlidingBoundAttained(identity: string, limit: nat, length: nat) returns (reqs: seq<Request>)
    requires identity != "" && length >= 1
    ensures Tally(limit, reqs, InSeconds(identity, 59, length)) == limit * Touched(length)
  {
    var window := Touched(length) - 1;
    reqs := Burst(identity, limit, window, limit);
    WindowsAdmitted(identity, limit, window, length);
    WindowAdmitted(identity, limit, window, limit, length, Full(limit, window));
    FullIsProduct(limit, window + 1);
  }

  // ---------- Retry-After ----------

  lemma {:induction false} CountZeroAhead(reqs: seq<Request>, identity: string, bucket: nat, latest: nat)
    requires Bucket(latest) < bucket && forall r :: r in reqs ==> r.at <= latest
    ensures Count(reqs, identity, bucket) == 0
  {
    if reqs == [] {
    } else {
      CountZeroAhead(reqs[..|reqs| - 1], identity, bucket, latest);
      assert reqs[|reqs| - 1] in reqs;
    }
  }

  /** Retry-After lies between 1 and 60 and points at the start of the next window, where the
      identity's counter has not been touched: a retry then is admitted if anything ever is. */
  lemma RetryAfterOpensFreshWindow(limit: int, reqs: seq<Request>, i: nat, retry: Request)
    requires i < |reqs| && DecisionAt(limit, reqs, i).TooManyRequests?
    requires forall r :: r in reqs ==> r.at <= reqs[i].later
    requires retry.incr == NoFault && retry.at == reqs[i].later + DecisionAt(limit, reqs, i).retryAfter
    ensures 1 <= DecisionAt(limit, reqs, i).retryAfter <= 60
    ensures Bucket(retry.at) == Bucket(reqs[i].later) + 1 && retry.at % 60 == 0
    ensures DecisionAt(limit, reqs + [retry], |reqs|).Admit? <==> limit >= 1
  {
    var all := reqs + [retry];
    assert all[..|reqs|] == reqs;
    AdmitsExactlyTheFirst(limit, all, |reqs|);
    CountZeroAhead(reqs, Identity(retry), Bucket(retry.at), reqs[i].later);
  }
}
