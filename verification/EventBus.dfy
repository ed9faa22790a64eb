/**
 The order service's event bus: a map from order id to a slice of bounded channels, cut in place
 in its backing array, refining one ordered list of subscriptions with FIFO buffers.
 A channel is a handle into `chans`.
 */
module EventBus {
  import opened Options
  import opened Slices

  datatype Event = Event(orderID: string, status: string)

  const CAPACITY: nat := 10

  /** Auxiliary: an event dispatched to a channel, and how full its buffer was. */
  datatype Offer = Offer(event: Event, backlog: nat)

  /** A buffered channel; `received` (what its reader took out) and `log` are auxiliary history. */
  datatype Channel = Channel(buf: seq<Event>, closed: bool, received: seq<Event>, log: seq<Offer>)

  datatype Subscription = Subscription(orderID: string, ch: nat)

  // ---------- payloads ----------

  /** The payload of NOTIFY: `<id>:<status>`. */
  function Payload(id: string, status: string): string {
    id + ":" + status
  }

  function IndexOfColon(s: string): (i: nat)
    ensures i <= |s| && (forall j :: 0 <= j < i ==> s[j] != ':') && (i < |s| ==> s[i] == ':')
  {
    if s == [] || s[0] == ':' then 0
    else 1 + IndexOfColon(s[1..])
  }

  /** `strings.SplitN(payload, ":", 2)` with two parts, or nothing without a colon. */
  function Parse(payload: string): Option<Event> {
    var i := IndexOfColon(payload);
    if i == |payload| then None else Some(Event(payload[..i], payload[i + 1..]))
  }

  /** Printing and parsing is a round trip exactly for ids without a colon. */
  lemma PayloadRoundTripIff(id: string, status: string)
    ensures Parse(Payload(id, status)) == Some(Event(id, status)) <==> ':' !in id
  {
    var p := Payload(id, status);
    var i := IndexOfColon(p);
    assert p[|id|] == ':' && p[..|id|] == id && p[|id| + 1..] == status;
    if i < |id| {
      assert id[i] == p[i] == ':';
    } else {
      assert i == |id|;
      assert forall j :: 0 <= j < |id| ==> id[j] == p[j];
    }
  }

  // ---------- the abstract bus ----------

  /** All subscriptions in order, and all channels ever made. */
  datatype Bus = Bus(registry: seq<Subscription>, chans: seq<Channel>)

  datatype Op = Sub(id: string) | Unsub(id: string, ch: nat) | Notify(payload: string) | Recv(ch: nat)

  function Without<T(==)>(s: seq<T>, x: T): seq<T> {
    if s == [] then []
    else Without(s[..|s| - 1], x) + if s[|s| - 1] == x then [] else [s[|s| - 1]]
  }

  /** The channels subscribed to `id`, in order. */
  function Project(registry: seq<Subscription>, id: string): seq<nat> {
    if registry == [] then []
    else
      var last := registry[|registry| - 1];
      Project(registry[..|registry| - 1], id) + if last.orderID == id then [last.ch] else []
  }

  /** The non-blocking send: kept while the buffer has room, dropped otherwise. */
  function Offered(c: Channel, e: Event): Channel {
    c.(buf := if |c.buf| < CAPACITY then c.buf + [e] else c.buf,
       log := c.log + [Offer(e, |c.buf|)])
  }

  ghost predicate InBounds(targets: seq<nat>, n: nat) {
    forall i :: 0 <= i < |targets| ==> targets[i] < n
  }

  function OfferAll(chans: seq<Channel>, targets: seq<nat>, e: Event): (r: seq<Channel>)
    requires InBounds(targets, |chans|)
    ensures |r| == |chans|
  {
    if targets == [] then chans
    else
      var last := targets[|targets| - 1];
      var before := OfferAll(chans, targets[..|targets| - 1], e);
      before[last := Offered(before[last], e)]
  }

  function Closed(c: Channel): Channel {
    c.(closed := true)
  }

  function Taken(c: Channel): Channel {
    if c.buf == [] then c else c.(buf := c.buf[1..], received := c.received + [c.buf[0]])
  }

  /** Subscriptions name existing, open channels, each at most once. */
  ghost predicate WellFormed(b: Bus) {
    && (forall i :: 0 <= i < |b.registry| ==> b.registry[i].ch < |b.chans| && !b.chans[b.registry[i].ch].closed)
    && (forall i, j :: 0 <= i < j < |b.registry| ==> b.registry[i].ch != b.registry[j].ch)
  }

  lemma {:induction false} ProjectInBounds(registry: seq<Subscription>, id: string, n: nat)
    requires forall s :: s in registry ==> s.ch < n
    ensures InBounds(Project(registry, id), n)
  {
    if registry == [] {
    } else {
      assert registry[|registry| - 1] in registry;
      ProjectInBounds(registry[..|registry| - 1], id, n);
    }
  }

  function ApplyOp(b: Bus, op: Op): Bus
    requires op.Unsub? || op.Recv? ==> op.ch < |b.chans|
    requires forall s :: s in b.registry ==> s.ch < |b.chans|
  {
    match op
    case Sub(id) => Bus(b.registry + [Subscription(id, |b.chans|)], b.chans + [Channel([], false, [], [])])
    case Unsub(id, ch) => Bus(Without(b.registry, Subscription(id, ch)), b.chans[ch := Closed(b.chans[ch])])
    case Notify(payload) =>
      (match Parse(payload)
       case None => b
       case Some(e) =>
         ProjectInBounds(b.registry, e.orderID, |b.chans|);
         b.(chans := OfferAll(b.chans, Project(b.registry, e.orderID), e)))
    case Recv(ch) => b.(chans := b.chans[ch := Taken(b.chans[ch])])
  }

  /** Closing a closed channel and sending on one panic. */
  ghost predicate Panics(b: Bus, op: Op)
    requires op.Unsub? || op.Recv? ==> op.ch < |b.chans|
    requires forall s :: s in b.registry ==> s.ch < |b.chans|
  {
    match op
    case Unsub(_, ch) => b.chans[ch].closed
    case Notify(payload) =>
      var e := Parse(payload);
      e.Some? && exists s :: s in b.registry && s.orderID == e.value.orderID && b.chans[s.ch].closed
    case _ => false
  }

  lemma {:induction false} ProjectInRegistry(registry: seq<Subscription>, id: string)
    ensures forall t: nat :: t in Project(registry, id) <==> Subscription(id, t) in registry
  {
    if registry == [] {
    } else {
      var init, last := registry[..|registry| - 1], registry[|registry| - 1];
      ProjectInRegistry(init, id);
      assert registry == init + [last];
    }
  }

  lemma {:induction false} WithoutMembers<T>(s: seq<T>, x: T)
    ensures forall y :: y in Without(s, x) <==> y in s && y != x
    ensures |Without(s, x)| <= |s|
  {
    if s == [] {
    } else {
      WithoutMembers(s[..|s| - 1], x);
      assert s == s[..|s| - 1] + [s[|s| - 1]];
    }
  }

  lemma ProjectSnoc(registry: seq<Subscription>, last: Subscription, id: string)
    ensures Project(registry + [last], id) == Project(registry, id) + if last.orderID == id then [last.ch] else []
    ensures Project(registry + [], id) == Project(registry, id)
  {
    assert (registry + [last])[..|registry|] == registry;
    assert registry + [] == registry;
  }

  lemma WithoutSnoc<T>(s: seq<T>, last: T, x: T)
    ensures Without(s + [last], x) == Without(s, x) + if last == x then [] else [last]
    ensures Without(s + [], x) == Without(s, x)
  {
    assert (s + [last])[..|s|] == s;
    assert s + [] == s;
  }

  lemma {:induction false} ProjectWithout(registry: seq<Subscription>, s: Subscription, id: string)
    ensures Project(Without(registry, s), id) ==
            if s.orderID == id then Without(Project(registry, id), s.ch) else Project(registry, id)
  {
    if registry == [] {
    } else {
      var init, last := registry[..|registry| - 1], registry[|registry| - 1];
      ProjectWithout(init, s, id);
      ProjectSnoc(Without(init, s), last, id);
      WithoutSnoc(Project(init, id), last.ch, s.ch);
    }
  }

  ghost predicate Distinct(s: seq<nat>) {
    forall i, j :: 0 <= i < j < |s| ==> s[i] != s[j]
  }

  lemma {:induction false} ProjectDistinct(registry: seq<Subscription>, id: string)
    requires forall i, j :: 0 <= i < j < |registry| ==> registry[i].ch != registry[j].ch
    ensures Distinct(Project(registry, id))
  {
    if registry == [] {
    } else {
      var init := registry[..|registry| - 1];
      ProjectDistinct(init, id);
      ProjectInRegistry(init, id);
    }
  }

  lemma {:induction false} WithoutAbsent<T>(s: seq<T>, x: T)
    requires x !in s
    ensures Without(s, x) == s
  {
    if s == [] {
    } else {
      WithoutAbsent(s[..|s| - 1], x);
      assert s == s[..|s| - 1] + [s[|s| - 1]];
    }
  }

  /** Cutting the one occurrence out of the slice removes the subscriber, and only it. */
  lemma {:induction false} CutIsWithout(s: seq<nat>, i: nat)
    requires i < |s| && Distinct(s)
    ensures s[..i] + s[i + 1..] == Without(s, s[i])
  {
    var n := |s| - 1;
    if i < n {
      CutIsWithout(s[..n], i);
      assert s[..i] + s[i + 1..] == (s[..n][..i] + s[..n][i + 1..]) + [s[n]];
    } else {
      WithoutAbsent(s[..n], s[n]);
      assert s[..i] + s[i + 1..] == s[..n];
    }
  }

  lemma LastIsNew(s: seq<nat>, k: nat)
    requires Distinct(s) && s != []
    ensures Distinct(s[..|s| - 1]) && s[|s| - 1] !in s[..|s| - 1]
    ensures k in s <==> k in s[..|s| - 1] || k == s[|s| - 1]
  {
    assert s == s[..|s| - 1] + [s[|s| - 1]];
  }

  /** Dispatch touches exactly the subscribed channels. */
  lemma {:induction false} OfferAllAt(chans: seq<Channel>, targets: seq<nat>, e: Event, k: nat)
    requires Distinct(targets) && k < |chans| && InBounds(targets, |chans|)
    ensures OfferAll(chans, targets, e)[k] == if k in targets then Offered(chans[k], e) else chans[k]
  {
    if targets == [] {
    } else {
      LastIsNew(targets, k);
      OfferAllAt(chans, targets[..|targets| - 1], e, k);
    }
  }

  /** Sending to the first `k` subscribers leaves the next one open, and sending to it makes `k + 1`. */
  lemma OfferNext(chans: seq<Channel>, targets: seq<nat>, e: Event, k: nat, now: seq<Channel>)
    requires Distinct(targets) && InBounds(targets, |chans|) && k < |targets| && !chans[targets[k]].closed
    requires now == OfferAll(chans, targets[..k], e)
    ensures !now[targets[k]].closed
    ensures now[targets[k] := Offered(now[targets[k]], e)] == OfferAll(chans, targets[..k + 1], e)
  {
    OfferAllAt(chans, targets[..k], e, targets[k]);
    assert targets[..k + 1][..k] == targets[..k];
  }

  // ---------- the slice map ----------

  function Lookup(subscribers: map<string, seq<nat>>, id: string): seq<nat> {
    if id in subscribers then subscribers[id] else []
  }

  ghost predicate NoEmptySlice(subscribers: map<string, seq<nat>>) {
    forall id :: id in subscribers ==> subscribers[id] != []
  }

  /** The slice map lists, per id and in order, exactly the registered channels, and keeps no empty slice. */
  ghost predicate MapRefines(subscribers: map<string, seq<nat>>, registry: seq<Subscription>) {
    NoEmptySlice(subscribers) && forall id :: Lookup(subscribers, id) == Project(registry, id)
  }

  lemma AppendRefines(before: map<string, seq<nat>>, after: map<string, seq<nat>>, registry: seq<Subscription>, s: Subscription)
    requires MapRefines(before, registry) && NoEmptySlice(after)
    requires Lookup(after, s.orderID) == Lookup(before, s.orderID) + [s.ch]
    requires forall id :: id != s.orderID ==> Lookup(after, id) == Lookup(before, id)
    ensures MapRefines(after, registry + [s])
  {
    forall id | true
      ensures Lookup(after, id) == Project(registry + [s], id)
    {
      ProjectSnoc(registry, s, id);
    }
  }

  lemma RemoveRefines(before: map<string, seq<nat>>, after: map<string, seq<nat>>, registry: seq<Subscription>, s: Subscription)
    requires MapRefines(before, registry) && NoEmptySlice(after)
    requires Lookup(after, s.orderID) == Without(Lookup(before, s.orderID), s.ch)
    requires forall id :: id != s.orderID ==> Lookup(after, id) == Lookup(before, id)
    ensures MapRefines(after, Without(registry, s))
  {
    forall id | true
      ensures Lookup(after, id) == Project(Without(registry, s), id)
    {
      ProjectWithout(registry, s, id);
    }
  }

  lemma {:induction false} WithoutDistinct(registry: seq<Subscription>, gone: Subscription)
    requires forall i, j :: 0 <= i < j < |registry| ==> registry[i].ch != registry[j].ch
    ensures var r := Without(registry, gone); forall i, j :: 0 <= i < j < |r| ==> r[i].ch != r[j].ch
  {
    if registry == [] {
    } else {
      var init, last := registry[..|registry| - 1], registry[|registry| - 1];
      WithoutDistinct(init, gone);
      WithoutMembers(init, gone);
      var r := Without(init, gone);
      forall i | 0 <= i < |r|
        ensures r[i].ch != last.ch
      {
        assert r[i] in init;
      }
    }
  }

  lemma SubKeepsWellFormed(b: Bus, id: string)
    requires WellFormed(b)
    ensures WellFormed(ApplyOp(b, Sub(id)))
  {
  }

  lemma UnsubKeepsWellFormed(b: Bus, id: string, ch: nat)
    requires WellFormed(b) && ch < |b.chans|
    ensures WellFormed(ApplyOp(b, Unsub(id, ch))) <==> forall s :: s in b.registry && s.ch == ch ==> s.orderID == id
    ensures Subscription(id, ch) in b.registry ==> !b.chans[ch].closed
    ensures Subscription(id, ch) !in ApplyOp(b, Unsub(id, ch)).registry
  {
    var gone := Subscription(id, ch);
    var b' := ApplyOp(b, Unsub(id, ch));
    WithoutMembers(b.registry, gone);
    WithoutDistinct(b.registry, gone);
    forall s | s in b.registry && s.ch == ch && s.orderID != id
      ensures !WellFormed(b')
    {
      assert s in b'.registry;
      var i :| 0 <= i < |b'.registry| && b'.registry[i] == s;
    }
    if forall s :: s in b.registry && s.ch == ch ==> s.orderID == id {
      forall i | 0 <= i < |b'.registry|
        ensures b'.registry[i].ch < |b'.chans| && !b'.chans[b'.registry[i].ch].closed
      {
        assert b'.registry[i] in b.registry;
        assert b'.registry[i] != gone;
        assert b'.registry[i].ch != ch;
      }
    }
  }

  lemma SubscribersOpen(b: Bus, id: string)
    requires WellFormed(b) && InBounds(Project(b.registry, id), |b.chans|)
    ensures forall i :: 0 <= i < |Project(b.registry, id)| ==> !b.chans[Project(b.registry, id)[i]].closed
  {
    ProjectInRegistry(b.registry, id);
    forall i | 0 <= i < |Project(b.registry, id)|
      ensures !b.chans[Project(b.registry, id)[i]].closed
    {
      assert Subscription(id, Project(b.registry, id)[i]) in b.registry;
    }
  }

  lemma NotifyKeepsWellFormed(b: Bus, payload: string)
    requires WellFormed(b)
    ensures WellFormed(ApplyOp(b, Notify(payload))) && !Panics(b, Notify(payload))
    ensures Parse(payload).Some? ==>
              forall k :: 0 <= k < |b.chans| ==>
                var e := Parse(payload).value;
                ApplyOp(b, Notify(payload)).chans[k] ==
                if Subscription(e.orderID, k) in b.registry then Offered(b.chans[k], e) else b.chans[k]
  {
    var parsed := Parse(payload);
    if parsed.Some? {
      var e := parsed.value;
      ProjectInRegistry(b.registry, e.orderID);
      ProjectInBounds(b.registry, e.orderID, |b.chans|);
      ProjectDistinct(b.registry, e.orderID);
      forall k: nat | k < |b.chans|
        ensures ApplyOp(b, Notify(payload)).chans[k] ==
                if Subscription(e.orderID, k) in b.registry then Offered(b.chans[k], e) else b.chans[k]
      {
        OfferAllAt(b.chans, Project(b.registry, e.orderID), e, k);
      }
    }
  }

  /** `strings.SplitN` cuts at the first colon. */
  lemma ParseCutsAt(payload: string, i: nat)
    requires i < |payload| && payload[i] == ':' && ':' !in payload[..i]
    ensures Parse(payload) == Some(Event(payload[..i], payload[i + 1..]))
  {
    assert IndexOfColon(payload) == i;
  }

  /** What a notification does to the buffers: a subscribed channel with fewer than ten unread events
      gains the event at its end; a channel with ten, and every other channel, is left as it is. */
  ghost predicate Buffered(b: Bus, b': Bus, e: Event) {
    && b'.registry == b.registry && |b'.chans| == |b.chans|
    && forall k :: 0 <= k < |b.chans| ==>
         && b'.chans[k].closed == b.chans[k].closed && b'.chans[k].received == b.chans[k].received
         && b'.chans[k].buf == if Subscription(e.orderID, k) in b.registry && |b.chans[k].buf| < 10
                               then b.chans[k].buf + [e] else b.chans[k].buf
  }

  lemma NotifyFillsBuffers(b: Bus, payload: string, i: nat)
    requires WellFormed(b) && i < |payload| && payload[i] == ':' && ':' !in payload[..i]
    ensures Buffered(b, ApplyOp(b, Notify(payload)), Event(payload[..i], payload[i + 1..]))
  {
    ParseCutsAt(payload, i);
    NotifyKeepsWellFormed(b, payload);
  }

  /** A payload is cut at its first colon; one without a colon is skipped. */
  ghost predicate Delivered(b: Bus, b': Bus, payload: string) {
    && (':' !in payload ==> b' == b)
    && (forall i :: 0 <= i < |payload| && payload[i] == ':' && ':' !in payload[..i] ==>
          Buffered(b, b', Event(payload[..i], payload[i + 1..])))
  }

  lemma NotifyDelivers(b: Bus, payload: string)
    requires WellFormed(b)
    ensures Delivered(b, ApplyOp(b, Notify(payload)), payload)
  {
    forall i | 0 <= i < |payload| && payload[i] == ':' && ':' !in payload[..i]
      ensures Buffered(b, ApplyOp(b, Notify(payload)), Event(payload[..i], payload[i + 1..]))
    {
      NotifyFillsBuffers(b, payload, i);
    }
  }

  // ---------- the bus of the source ----------

  class PgEventBus {
    var subscribers: map<string, Slice>
    var chans: seq<Channel>
    ghost var registry: seq<Subscription>

    ghost function Abs(): Bus
      reads this
    {
      Bus(registry, chans)
    }

    ghost function Arrays(): set<array<nat>>
      reads this`subscribers
    {
      set id | id in subscribers :: subscribers[id].arr
    }

    /** Slices are not empty, and no two ids share a backing array. */
    ghost predicate Separate()
      reads this`subscribers
    {
      && (forall id :: id in subscribers ==> 0 < subscribers[id].len && InCapacity(subscribers[id]))
      && (forall i, j :: i in subscribers && j in subscribers && i != j ==> subscribers[i].arr != subscribers[j].arr)
    }

    /** The map as it reads: the elements of every slice. */
    ghost function View(): map<string, seq<nat>>
      requires Separate()
      reads this`subscribers, Arrays()
    {
      map id | id in subscribers :: Elements(subscribers[id])
    }

    ghost predicate Valid()
      reads this, Arrays()
    {
      Separate() && WellFormed(Abs()) && MapRefines(View(), registry)
    }

    constructor ()
      ensures Valid() && Abs() == Bus([], []) && Arrays() == {}
    {
      subscribers, chans, registry := map[], [], [];
    }

    /** The append to an id's slice, in place or in a larger array. */
    method AddTo(id: string, ch: nat)
      requires Separate() && id in subscribers
      modifies this`subscribers, subscribers[id].arr
      ensures Separate() && NoEmptySlice(View()) && fresh(Arrays() - old(Arrays()))
      ensures Lookup(View(), id) == Lookup(old(View()), id) + [ch]
      ensures forall k :: k != id ==> Lookup(View(), k) == Lookup(old(View()), k)
    {
      var s := Append(subscribers[id], ch);
      subscribers := subscribers[id := s];
    }

    /** The map gains an entry whose array no other entry has. */
    method Put(id: string, s: Slice)
      requires Separate() && id !in subscribers && s.arr !in Arrays() && 0 < s.len && InCapacity(s)
      modifies this`subscribers
      ensures Separate() && Arrays() <= old(Arrays()) + {s.arr}
      ensures id in subscribers && View()[id] == Elements(s)
      ensures forall k :: k in old(subscribers) ==> k in subscribers && View()[k] == old(View()[k])
      ensures forall k :: k in subscribers && k != id ==> k in old(subscribers)
    {
      subscribers := subscribers[id := s];
    }

    /** The append to the nil slice of an id without subscribers. */
    method AddFirst(id: string, ch: nat)
      requires Separate() && id !in subscribers
      modifies this`subscribers
      ensures Separate() && NoEmptySlice(View()) && fresh(Arrays() - old(Arrays()))
      ensures Lookup(View(), id) == [ch]
      ensures forall k :: k != id ==> Lookup(View(), k) == Lookup(old(View()), k)
    {
      var s := Single(ch);
      Put(id, s);
    }

    /** The append of `Subscribe`: at the end of this id's slice, and of no other. */
    method Add(id: string, ch: nat)
      requires Separate()
      modifies this`subscribers, Arrays()
      ensures Separate() && NoEmptySlice(View()) && fresh(Arrays() - old(Arrays()))
      ensures Lookup(View(), id) == Lookup(old(View()), id) + [ch]
      ensures forall k :: k != id ==> Lookup(View(), k) == Lookup(old(View()), k)
    {
      if id in subscribers {
        AddTo(id, ch);
      } else {
        AddFirst(id, ch);
      }
    }

    /** Map and list of subscriptions gain the same entry, at the end. */
    method Register(id: string, ch: nat)
      requires Separate() && MapRefines(View(), registry)
      modifies this`subscribers, this`registry, Arrays()
      ensures Separate() && fresh(Arrays() - old(Arrays()))
      ensures registry == old(registry) + [Subscription(id, ch)] && MapRefines(View(), registry)
      ensures Subscription(id, ch) in registry
    {
      ghost var before := View();
      Add(id, ch);
      AppendRefines(before, View(), registry, Subscription(id, ch));
      registry := registry + [Subscription(id, ch)];
      assert registry[|registry| - 1] == Subscription(id, ch);
    }

    method Subscribe(id: string) returns (ch: nat)
      requires Valid()
      modifies this, Arrays()
      ensures Valid() && Abs() == ApplyOp(old(Abs()), Sub(id)) && fresh(Arrays() - old(Arrays()))
      ensures ch == |old(chans)| && chans == old(chans) + [Channel([], false, [], [])]
      ensures registry == old(registry) + [Subscription(id, ch)] && Subscription(id, ch) in registry
    {
      SubKeepsWellFormed(Abs(), id);
      ch := |chans|;
      chans := chans + [Channel([], false, [], [])];
      Register(id, ch);
    }

    /** `eb.subscribers[id] = append(subs[:i], subs[i+1:]...)`, and the delete of an empty slice. */
    method CutAt(id: string, i: nat)
      requires Separate() && id in subscribers && i < subscribers[id].len
      modifies this`subscribers, subscribers[id].arr
      ensures Separate() && Arrays() <= old(Arrays())
      ensures Lookup(View(), id) == old(View()[id][..i] + View()[id][i + 1..])
      ensures forall k :: k != id ==> Lookup(View(), k) == Lookup(old(View()), k)
    {
      var shorter := Cut(subscribers[id], i);
      if shorter.len == 0 {
        subscribers := subscribers - {id};
      } else {
        subscribers := subscribers[id := shorter];
      }
    }

    /** The loop of `Unsubscribe`: cuts the channel out of its slice, within the backing array, and drops
        an empty slice. The slices of other ids read as before. */
    method Remove(id: string, ch: nat)
      requires Separate() && Distinct(Lookup(View(), id))
      modifies this`subscribers, Arrays()
      ensures Separate() && NoEmptySlice(View()) && Arrays() <= old(Arrays())
      ensures Lookup(View(), id) == Without(Lookup(old(View()), id), ch)
      ensures forall k :: k != id ==> Lookup(View(), k) == Lookup(old(View()), k)
    {
      if id !in subscribers {
        return;
      }
      var subs := subscribers[id];
      var i := 0;
      while i < subs.len && subs.arr[i] != ch
        modifies {}
        invariant i <= subs.len && ch !in Elements(subs)[..i]
      {
        i := i + 1;
      }
      assert View()[id] == Elements(subs);
      if i < subs.len {
        CutIsWithout(Elements(subs), i);
        CutAt(id, i);
      } else {
        assert Elements(subs)[..i] == Elements(subs);
        WithoutAbsent(Elements(subs), ch);
      }
    }

    /** Map and list of subscriptions lose the same entry. */
    method Deregister(id: string, ch: nat)
      requires Valid()
      modifies this`subscribers, this`registry, Arrays()
      ensures Separate() && Arrays() <= old(Arrays())
      ensures registry == Without(old(registry), Subscription(id, ch)) && MapRefines(View(), registry)
    {
      ghost var before := View();
      ProjectDistinct(registry, id);
      Remove(id, ch);
      RemoveRefines(before, View(), registry, Subscription(id, ch));
      registry := Without(registry, Subscription(id, ch));
    }

    /** Removes the subscription and closes the channel. The bus stays well formed exactly
        when the channel was not listed under another id. */
    method Unsubscribe(id: string, ch: nat) returns (panicked: bool)
      requires Valid() && ch < |chans|
      modifies this, Arrays()
      ensures Separate() && Arrays() <= old(Arrays())
      ensures Abs() == ApplyOp(old(Abs()), Unsub(id, ch)) && MapRefines(View(), registry)
      ensures panicked <==> Panics(old(Abs()), Unsub(id, ch))
      ensures chans == old(chans)[ch := old(chans)[ch].(closed := true)]
      ensures Subscription(id, ch) in old(registry) ==> !panicked && Subscription(id, ch) !in registry
      ensures Valid() <==> forall s :: s in old(registry) && s.ch == ch ==> s.orderID == id
    {
      UnsubKeepsWellFormed(Abs(), id, ch);
      Deregister(id, ch);
      panicked := chans[ch].closed;
      chans := chans[ch := Closed(chans[ch])];
    }

    /** The loop of `listen` over the subscribers of one id; a send on a closed channel would panic. */
    method SendToAll(s: Slice, e: Event)
      requires InCapacity(s) && Distinct(Elements(s)) && InBounds(Elements(s), |chans|)
      requires forall i :: 0 <= i < s.len ==> !chans[Elements(s)[i]].closed
      modifies this`chans
      ensures chans == OfferAll(old(chans), Elements(s), e)
    {
      ghost var subs := Elements(s);
      for k := 0 to s.len
        invariant Elements(s) == subs && |chans| == |old(chans)|
        invariant chans == OfferAll(old(chans), subs[..k], e)
      {
        var ch := s.arr[k];
        assert ch == subs[k];
        OfferNext(old(chans), subs, e, k, chans);
        assert !chans[ch].closed;
        chans := chans[ch := Offered(chans[ch], e)];
      }
      assert subs[..s.len] == subs;
    }

    /** The parsed event goes to the subscribers of its id, if there are any. */
    method Offer(e: Event)
      requires Valid() && InBounds(Project(registry, e.orderID), |chans|)
      modifies this`chans
      ensures chans == OfferAll(old(chans), Project(registry, e.orderID), e)
    {
      ProjectInRegistry(registry, e.orderID);
      ProjectDistinct(registry, e.orderID);
      SubscribersOpen(Abs(), e.orderID);
      if e.orderID in subscribers {
        assert View()[e.orderID] == Lookup(View(), e.orderID);
        SendToAll(subscribers[e.orderID], e);
      } else {
        assert Lookup(View(), e.orderID) == [];
      }
    }

    /** A payload without a colon is dropped. */
    method OfferPayload(payload: string)
      requires Valid()
      modifies this`chans
      ensures Abs() == ApplyOp(old(Abs()), Notify(payload))
    {
      var parsed := Parse(payload);
      if parsed.Some? {
        ProjectInBounds(registry, parsed.value.orderID, |chans|);
        Offer(parsed.value);
      }
    }

    /** The body of `listen` for one notification. */
    method Dispatch(payload: string)
      requires Valid()
      modifies this`chans
      ensures Valid() && Abs() == ApplyOp(old(Abs()), Notify(payload))
      ensures Delivered(old(Abs()), Abs(), payload)
    {
      NotifyKeepsWellFormed(Abs(), payload);
      NotifyDelivers(Abs(), payload);
      OfferPayload(payload);
    }

    /** A reader takes the oldest buffered event, if there is one. */
    method Receive(ch: nat) returns (event: Option<Event>)
      requires Valid() && ch < |chans|
      modifies this`chans
      ensures Valid() && Abs() == ApplyOp(old(Abs()), Recv(ch))
      ensures old(chans[ch].buf) == [] ==> event == None && chans == old(chans)
      ensures old(chans[ch].buf) != [] ==>
                var c := old(chans[ch]);
                event == Some(c.buf[0]) && chans == old(chans)[ch := c.(buf := c.buf[1..], received := c.received + [c.buf[0]])]
    {
      if chans[ch].buf == [] {
        assert chans[ch := Taken(chans[ch])] == chans;
        return None;
      }
      event := Some(chans[ch].buf[0]);
      chans := chans[ch := Taken(chans[ch])];
    }
  }
}
