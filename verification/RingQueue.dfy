/** The ring as one process sees it: an object with one operation at a time,
    refining a FIFO queue of messages with expiry times. */
module RingQueue {
  import opened Prelude
  import M = RingMachine

  // ---- The abstract queue ----

  /** A message under its ticket. `page` is its overflow page, 0 when inline. */
  datatype Queued = Queued(ticket: nat, channel: Bytes, body: Bytes, expiry: int, page: nat)

  /** Tickets below `head` are gone, `next` is the next one; `q` holds the
      published messages in ticket order. Tickets of [head, next) that are not in
      `q` were tombstoned. */
  datatype Queue = Queue(head: nat, next: nat, q: seq<Queued>)

  ghost predicate Ordered(a: Queue, cap: nat) {
    && a.head <= a.next
    && (forall k | 0 <= k < |a.q| :: a.head <= a.q[k].ticket < a.next <= a.q[k].ticket + cap)
    && (forall j, k | 0 <= j < k < |a.q| :: a.q[j].ticket < a.q[k].ticket)
  }

  /** The oldest message still occupies the slot of the next ticket. */
  predicate Full(a: Queue, cap: nat) {
    a.q != [] && a.q[0].ticket + cap == a.next
  }

  datatype Sent = Sent(channel: Bytes, body: Bytes, expiry: int)

  /** What an enqueue does, `page` being the slab's answer when the message does
      not fit inline. */
  function Enqueued(a: Queue, cap: nat, inlineSize: nat, m: Sent, page: nat): (Queue, bool) {
    if Full(a, cap) then (a, false)
    else if |m.body| > inlineSize && page == 0 then (a.(next := a.next + 1), false)
    else
      var p := if |m.body| > inlineSize then page else 0;
      (a.(next := a.next + 1, q := a.q + [Queued(a.next, Clip(m.channel), m.body, m.expiry, p)]), true)
  }

  /** What a dequeue does: drop the expired prefix, return the next message. */
  function Dequeued(a: Queue, now: int): (Queue, Option<(Bytes, Bytes)>)
    decreases |a.q|
  {
    if a.q == [] then (Queue(a.next, a.next, []), None)
    else
      var a' := Queue(a.q[0].ticket + 1, a.next, a.q[1..]);
      if now > a.q[0].expiry then Dequeued(a', now) else (a', Some((a.q[0].channel, a.q[0].body)))
  }

  lemma DequeuedHead(head: nat, next: nat, x: Queued, q: seq<Queued>, now: int)
    ensures var a := Queue(x.ticket + 1, next, q);
            Dequeued(Queue(head, next, [x] + q), now)
            == if now > x.expiry then Dequeued(a, now) else (a, Some((x.channel, x.body)))
  {
    assert ([x] + q)[1..] == q;
  }

  /** Where the head stands does not matter. */
  lemma DequeuedAnyHead(h: nat, h': nat, next: nat, q: seq<Queued>, now: int)
    ensures Dequeued(Queue(h, next, q), now) == Dequeued(Queue(h', next, q), now)
  {
  }

  function PagesOf(q: seq<Queued>): set<nat> {
    set k | 0 <= k < |q| && q[k].page != 0 :: q[k].page
  }

  // ---- Laws of the abstract queue ----

  /** The window bound that does hold: `next <= t + cap` for every queued ticket t. */
  lemma EnqueuedOrdered(a: Queue, cap: nat, inlineSize: nat, m: Sent, page: nat)
    requires Ordered(a, cap) && 0 < cap
    ensures Ordered(Enqueued(a, cap, inlineSize, m, page).0, cap)
  {
    if a.q != [] && !Full(a, cap) {
      assert forall k | 0 < k < |a.q| :: a.q[0].ticket < a.q[k].ticket;
    }
  }

  /** Exactly when an enqueue breaks `enq - deq <= cap`: the window is already `cap`
      tickets wide and its oldest ticket is a tombstone. */
  lemma BacklogBoundKept(a: Queue, cap: nat, inlineSize: nat, m: Sent, page: nat)
    requires Ordered(a, cap) && 0 < cap && a.next - a.head <= cap
    ensures var a' := Enqueued(a, cap, inlineSize, m, page).0;
            a'.next - a'.head <= cap <==> !(a.next - a.head == cap && (a.q == [] || a.q[0].ticket != a.head))
  {
    if a.q != [] {
      assert a.head <= a.q[0].ticket && a.next <= a.q[0].ticket + cap;
    }
  }

  lemma {:induction false} DequeuedOrdered(a: Queue, cap: nat, now: int)
    requires Ordered(a, cap)
    ensures Ordered(Dequeued(a, now).0, cap)
    decreases |a.q|
  {
    if a.q != [] && now > a.q[0].expiry {
      DequeuedOrdered(Queue(a.q[0].ticket + 1, a.next, a.q[1..]), cap, now);
    }
  }

  /** Dequeue drops exactly the expired prefix and returns the first message that
      has not expired; it returns nothing only if every message had expired, and
      then the queue is empty and every ticket is behind it. */
  lemma {:induction false} DequeuedMeans(a: Queue, now: int) returns (k: nat)
    ensures k <= |a.q| && forall j | 0 <= j < k :: now > a.q[j].expiry
    ensures k < |a.q| ==>
              && now <= a.q[k].expiry
              && Dequeued(a, now) == (Queue(a.q[k].ticket + 1, a.next, a.q[k + 1..]), Some((a.q[k].channel, a.q[k].body)))
    ensures k == |a.q| ==> Dequeued(a, now) == (Queue(a.next, a.next, []), None)
    decreases |a.q|
  {
    k := 0;
    if a.q != [] && now > a.q[0].expiry {
      var a' := Queue(a.q[0].ticket + 1, a.next, a.q[1..]);
      var j := DequeuedMeans(a', now);
      k := j + 1;
      assert j < |a'.q| ==> a'.q[j] == a.q[k] && a'.q[j + 1..] == a.q[k + 1..];
    }
  }

  /** Without tombstones in the window, full means that every slot holds a message. */
  lemma FullWithoutTombstones(a: Queue, cap: nat)
    requires Ordered(a, cap) && 0 < cap && a.next - a.head == |a.q|
    ensures Full(a, cap) <==> |a.q| == cap
  {
    if a.q != [] {
      Spread(a.q, a.head, |a.q| - 1);
      Spread(a.q, a.q[0].ticket, |a.q| - 1);
    }
  }

  lemma {:induction false} Spread(q: seq<Queued>, head: nat, k: nat)
    requires k < |q| && head <= q[0].ticket
    requires forall i, j | 0 <= i < j < |q| :: q[i].ticket < q[j].ticket
    ensures head + k <= q[k].ticket
  {
    if k > 0 {
      Spread(q, head, k - 1);
      assert q[k - 1].ticket < q[k].ticket;
    }
  }

  /** n enqueues of a message that needs a page, with the slab exhausted. */
  function Starved(a: Queue, cap: nat, inlineSize: nat, m: Sent, n: nat): Queue {
    if n == 0 then a else Enqueued(Starved(a, cap, inlineSize, m, n - 1), cap, inlineSize, m, 0).0
  }

  /** The bound `enq - deq <= cap` is false: on an empty ring every starved
      enqueue is refused and still spends a ticket, so the two positions drift
      apart without limit. */
  lemma {:induction false} BacklogUnbounded(cap: nat, inlineSize: nat, m: Sent, n: nat)
    requires |m.body| > inlineSize
    ensures var a := Starved(Queue(0, 0, []), cap, inlineSize, m, n);
            a == Queue(0, n, []) && !Enqueued(a, cap, inlineSize, m, 0).1
  {
    if n > 0 {
      BacklogUnbounded(cap, inlineSize, m, n - 1);
    }
  }

  // ---- Whole runs ----

  datatype Op = Enq(m: Sent, page: nat) | Deq(now: int)

  /** A message that left the queue, and when. */
  datatype Gone = Gone(x: Queued, at: int)

  /** What a caller saw: the accepted messages, those that left the queue, and what
      dequeues handed out. */
  datatype Ledger = Ledger(a: Queue, accepted: seq<Queued>, removed: seq<Gone>, delivered: seq<(Bytes, Bytes)>)

  function Leaving(q: seq<Queued>, at: int): (r: seq<Gone>)
    ensures |r| == |q|
  {
    seq(|q|, k requires 0 <= k < |q| => Gone(q[k], at))
  }

  /** The messages that left, whenever it was. */
  function Messages(removed: seq<Gone>): (r: seq<Queued>)
    ensures |r| == |removed|
  {
    seq(|removed|, k requires 0 <= k < |removed| => removed[k].x)
  }

  /** What should have been handed out: those that had not expired when they left. */
  function Unexpired(removed: seq<Gone>): seq<(Bytes, Bytes)> {
    if removed == [] then []
    else
      var n := |removed| - 1;
      var g := removed[n];
      Unexpired(removed[..n]) + if g.at > g.x.expiry then [] else [(g.x.channel, g.x.body)]
  }

  function Apply(l: Ledger, cap: nat, inlineSize: nat, op: Op): Ledger {
    match op
    case Enq(m, page) =>
      var (a', ok) := Enqueued(l.a, cap, inlineSize, m, page);
      l.(a := a', accepted := if ok then l.accepted + [a'.q[|a'.q| - 1]] else l.accepted)
    case Deq(now) =>
      var (a', r) := Dequeued(l.a, now);
      assert |a'.q| <= |l.a.q| by { DequeuedShrinks(l.a, now); }
      l.(a := a', removed := l.removed + Leaving(l.a.q[..|l.a.q| - |a'.q|], now),
         delivered := if r.Some? then l.delivered + [r.value] else l.delivered)
  }

  lemma DequeuedShrinks(a: Queue, now: int)
    ensures |Dequeued(a, now).0.q| <= |a.q|
  {
    var k := DequeuedMeans(a, now);
  }

  function ApplyAll(cap: nat, inlineSize: nat, ops: seq<Op>): Ledger {
    if ops == [] then Ledger(Queue(0, 0, []), [], [], [])
    else Apply(ApplyAll(cap, inlineSize, ops[..|ops| - 1]), cap, inlineSize, ops[|ops| - 1])
  }

  ghost predicate Balanced(l: Ledger, cap: nat) {
    l.accepted == Messages(l.removed) + l.a.q && l.delivered == Unexpired(l.removed) && Ordered(l.a, cap)
  }

  /** First in, first out, over every sequence of operations: the messages that
      left and those still queued are the accepted ones, in order, none twice; what
      was handed out is, in order, every message that had not expired when it left,
      and nothing else; and the queue stays within its window. */
  lemma {:induction false} FirstInFirstOut(cap: nat, inlineSize: nat, ops: seq<Op>)
    requires 0 < cap
    ensures var l := ApplyAll(cap, inlineSize, ops);
            && l.accepted == Messages(l.removed) + l.a.q && l.delivered == Unexpired(l.removed) && Ordered(l.a, cap)
  {
    if ops != [] {
      FirstInFirstOut(cap, inlineSize, ops[..|ops| - 1]);
      ApplyBalanced(ApplyAll(cap, inlineSize, ops[..|ops| - 1]), cap, inlineSize, ops[|ops| - 1]);
    }
  }

  lemma ApplyBalanced(l: Ledger, cap: nat, inlineSize: nat, op: Op)
    requires 0 < cap && Balanced(l, cap)
    ensures Balanced(Apply(l, cap, inlineSize, op), cap)
  {
    match op
    case Enq(m, page) =>
      EnqueuedOrdered(l.a, cap, inlineSize, m, page);
      AcceptedLast(l, cap, inlineSize, m, page);
    case Deq(now) =>
      DequeuedOrdered(l.a, cap, now);
      RemovedFirst(l.removed, l.a, now);
      HandedOut(l.removed, l.a, now);
  }

  lemma AcceptedLast(l: Ledger, cap: nat, inlineSize: nat, m: Sent, page: nat)
    requires l.accepted == Messages(l.removed) + l.a.q
    ensures var l' := Apply(l, cap, inlineSize, Enq(m, page)); l'.accepted == Messages(l'.removed) + l'.a.q
  {
    var a' := Enqueued(l.a, cap, inlineSize, m, page).0;
    assert a'.q == l.a.q || a'.q == l.a.q + [a'.q[|a'.q| - 1]];
  }

  lemma RemovedFirst(removed: seq<Gone>, a: Queue, now: int)
    ensures var q' := Dequeued(a, now).0.q;
            |q'| <= |a.q|
            && Messages(removed) + a.q == Messages(removed + Leaving(a.q[..|a.q| - |q'|], now)) + q'
  {
    RemovedPrefix(a, now);
    var q' := Dequeued(a, now).0.q;
    MovedOver(removed, a.q, a.q[..|a.q| - |q'|], q', now);
  }

  lemma MovedOver(removed: seq<Gone>, q: seq<Queued>, left: seq<Queued>, q': seq<Queued>, now: int)
    requires q == left + q'
    ensures Messages(removed) + q == Messages(removed + Leaving(left, now)) + q'
  {
    assert Messages(removed + Leaving(left, now)) == Messages(removed) + left;
  }

  lemma RemovedPrefix(a: Queue, now: int)
    ensures var q' := Dequeued(a, now).0.q; |q'| <= |a.q| && a.q == a.q[..|a.q| - |q'|] + q'
  {
    var k := DequeuedMeans(a, now);
    assert k < |a.q| ==> a.q == a.q[..k + 1] + a.q[k + 1..];
  }

  /** A dequeue hands out exactly the unexpired part of what it removes. */
  lemma HandedOut(removed: seq<Gone>, a: Queue, now: int)
    ensures var (a', r) := Dequeued(a, now);
            |a'.q| <= |a.q|
            && Unexpired(removed + Leaving(a.q[..|a.q| - |a'.q|], now))
               == Unexpired(removed) + if r.Some? then [r.value] else []
  {
    var k := DequeuedMeans(a, now);
    var gone := Leaving(a.q[..k], now);
    AllExpired(removed, gone);
    if k < |a.q| {
      assert Leaving(a.q[..k + 1], now) == gone + [Gone(a.q[k], now)];
      OneMoreGone(removed, gone, Gone(a.q[k], now));
    }
  }

  lemma OneMoreGone(removed: seq<Gone>, gone: seq<Gone>, last: Gone)
    requires last.at <= last.x.expiry
    ensures Unexpired(removed + (gone + [last])) == Unexpired(removed + gone) + [(last.x.channel, last.x.body)]
  {
    assert removed + (gone + [last]) == (removed + gone) + [last];
    assert ((removed + gone) + [last])[..|removed + gone|] == removed + gone;
  }

  lemma {:induction false} AllExpired(removed: seq<Gone>, gone: seq<Gone>)
    requires forall k | 0 <= k < |gone| :: gone[k].at > gone[k].x.expiry
    ensures Unexpired(removed + gone) == Unexpired(removed)
  {
    if gone == [] {
      assert removed + gone == removed;
    } else {
      var n := |gone| - 1;
      AllExpired(removed, gone[..n]);
      assert (removed + gone)[..|removed + gone| - 1] == removed + gone[..n];
    }
  }

  // ---- The concrete ring ----

  datatype Slot = Slot(
    seq_: nat,
    owner: nat,
    ownerTicket: nat,
    mark: bool,
    expiry: int,
    channelLen: nat,
    channel: Bytes,
    msgLen: nat,
    inline: Bytes,
    overflow: nat)

  /** Where a ticket stands: its slot is published for it, or moved on. */
  predicate Published(slots: seq<Slot>, t: nat)
    requires 0 < |slots|
  {
    slots[SlotOf(t, |slots|)].seq_ == t + 1
  }

  function Lookup(heap: map<nat, Bytes>, page: nat): Bytes {
    if page in heap then heap[page] else []
  }

  /** The message a published slot holds. */
  function Held(s: Slot, heap: map<nat, Bytes>, t: nat): Queued {
    Queued(t, ReadBytes(s.channel, s.channelLen),
           ReadBytes(if s.overflow != 0 then Lookup(heap, s.overflow) else s.inline, s.msgLen),
           s.expiry, s.overflow)
  }

  /** The published messages of tickets lo .. hi-1. */
  function Window(slots: seq<Slot>, heap: map<nat, Bytes>, lo: nat, hi: nat): seq<Queued>
    requires 0 < |slots|
    decreases hi - lo
  {
    if hi <= lo then []
    else (if Published(slots, lo) then [Held(slots[SlotOf(lo, |slots|)], heap, lo)] else [])
         + Window(slots, heap, lo + 1, hi)
  }

  lemma {:induction false} WindowSnoc(slots: seq<Slot>, heap: map<nat, Bytes>, lo: nat, hi: nat)
    requires 0 < |slots| && lo <= hi
    ensures Window(slots, heap, lo, hi + 1) ==
            Window(slots, heap, lo, hi)
            + (if Published(slots, hi) then [Held(slots[SlotOf(hi, |slots|)], heap, hi)] else [])
    decreases hi - lo
  {
    if lo < hi {
      WindowSnoc(slots, heap, lo + 1, hi);
    }
  }

  /** A window only depends on the published slots of its tickets. */
  lemma {:induction false} WindowFrame(slots: seq<Slot>, heap: map<nat, Bytes>, slots': seq<Slot>, heap': map<nat, Bytes>,
                                       lo: nat, hi: nat)
    requires 0 < |slots| == |slots'|
    requires forall t: nat | lo <= t < hi :: SameMessage(slots, heap, slots', heap', t)
    ensures Window(slots', heap', lo, hi) == Window(slots, heap, lo, hi)
    decreases hi - lo
  {
    if lo < hi {
      assert SameMessage(slots, heap, slots', heap', lo);
      WindowFrame(slots, heap, slots', heap', lo + 1, hi);
    }
  }

  predicate SameMessage(slots: seq<Slot>, heap: map<nat, Bytes>, slots': seq<Slot>, heap': map<nat, Bytes>, t: nat)
    requires 0 < |slots| == |slots'|
  {
    && Published(slots', t) == Published(slots, t)
    && (Published(slots, t) ==>
          Held(slots'[SlotOf(t, |slots|)], heap', t) == Held(slots[SlotOf(t, |slots|)], heap, t))
  }

  /** Where every slot stands between operations. */
  ghost predicate Positions(slots: seq<Slot>, deq: nat, enq: nat)
    requires 0 < |slots|
  {
    && deq <= enq
    && (forall t: nat | t < enq :: TicketAt(slots, deq, t))
    && (forall t: nat | enq <= t :: NotAhead(slots, t))
    && (forall i | 0 <= i < |slots| :: Unowned(slots, i))
  }

  /** The slot of a ticket to come has not gone past it. */
  predicate NotAhead(slots: seq<Slot>, t: nat)
    requires 0 < |slots|
  {
    slots[SlotOf(t, |slots|)].seq_ <= t
  }

  predicate Unowned(slots: seq<Slot>, i: nat)
    requires i < |slots|
  {
    i <= slots[i].seq_ && slots[i].owner == 0
  }

  /** A past ticket is published and waiting, or its slot has moved on a round. */
  predicate TicketAt(slots: seq<Slot>, deq: nat, t: nat)
    requires 0 < |slots|
  {
    || (slots[SlotOf(t, |slots|)].seq_ == t + 1 && deq <= t)
    || slots[SlotOf(t, |slots|)].seq_ >= t + |slots|
  }

  lemma SlotOfSmall(t: nat, cap: nat)
    requires 0 < cap
    ensures t < cap ==> SlotOf(t, cap) == t
    ensures cap <= t ==> SlotOf(t - cap, cap) == SlotOf(t, cap)
  {
  }

  /** The slot of the next ticket is EMPTY for it, or holds the message `cap`
      tickets back. */
  lemma FrontierSlot(slots: seq<Slot>, deq: nat, enq: nat)
    requires 2 <= |slots| && Positions(slots, deq, enq)
    ensures var w := slots[SlotOf(enq, |slots|)].seq_;
            || w == enq
            || (w < enq && |slots| <= enq && deq <= enq - |slots| && Published(slots, enq - |slots|))
  {
    var cap := |slots|;
    SlotOfSmall(enq, cap);
    assert NotAhead(slots, enq) && Unowned(slots, SlotOf(enq, cap));
    if cap <= enq {
      assert TicketAt(slots, deq, enq - cap);
    }
  }

  /** If the message `cap` tickets back is waiting, it is the oldest one. */
  lemma OldestAtFrontier(slots: seq<Slot>, heap: map<nat, Bytes>, deq: nat, enq: nat)
    requires 2 <= |slots| && Positions(slots, deq, enq)
    ensures Full(Queue(deq, enq, Window(slots, heap, deq, enq)), |slots|) <==>
            slots[SlotOf(enq, |slots|)].seq_ != enq
  {
    var cap := |slots|;
    SlotOfSmall(enq, cap);
    FrontierSlot(slots, deq, enq);
    if cap <= enq && deq <= enq - cap && Published(slots, enq - cap) {
      SkipTombstones(slots, heap, deq, deq, enq - cap, enq);
    }
    FirstPublished(slots, heap, deq, enq);
  }

  /** Nothing older than the ticket `cap` back of the frontier is published. */
  lemma {:induction false} SkipTombstones(slots: seq<Slot>, heap: map<nat, Bytes>, deq: nat, lo: nat, t: nat, enq: nat)
    requires 2 <= |slots| && deq <= lo <= t && t + |slots| == enq && Positions(slots, deq, enq)
    ensures Window(slots, heap, lo, enq) == Window(slots, heap, t, enq)
    decreases t - lo
  {
    if lo < t {
      SlotOfSmall(lo + |slots|, |slots|);
      assert TicketAt(slots, deq, lo) && TicketAt(slots, deq, lo + |slots|);
      SkipTombstones(slots, heap, deq, lo + 1, t, enq);
    }
  }

  /** The first message of a window is published, under its own ticket. */
  lemma {:induction false} FirstPublished(slots: seq<Slot>, heap: map<nat, Bytes>, lo: nat, hi: nat)
    requires 0 < |slots|
    ensures var w := Window(slots, heap, lo, hi);
            w != [] ==> lo <= w[0].ticket < hi && Published(slots, w[0].ticket)
    decreases hi - lo
  {
    if lo < hi && !Published(slots, lo) {
      FirstPublished(slots, heap, lo + 1, hi);
    }
  }

  lemma {:induction false} WindowTickets(slots: seq<Slot>, heap: map<nat, Bytes>, lo: nat, hi: nat, k: nat)
    requires 0 < |slots| && k < |Window(slots, heap, lo, hi)|
    ensures var x := Window(slots, heap, lo, hi)[k];
            lo <= x.ticket < hi && Published(slots, x.ticket) && x == Held(slots[SlotOf(x.ticket, |slots|)], heap, x.ticket)
    decreases hi - lo
  {
    if Published(slots, lo) {
      if k > 0 {
        WindowTickets(slots, heap, lo + 1, hi, k - 1);
      }
    } else {
      WindowTickets(slots, heap, lo + 1, hi, k);
    }
  }

  lemma {:induction false} WindowComplete(slots: seq<Slot>, heap: map<nat, Bytes>, lo: nat, hi: nat, t: nat) returns (k: nat)
    requires 0 < |slots| && lo <= t < hi && Published(slots, t)
    ensures k < |Window(slots, heap, lo, hi)|
    ensures Window(slots, heap, lo, hi)[k] == Held(slots[SlotOf(t, |slots|)], heap, t)
    decreases hi - lo
  {
    if lo == t {
      k := 0;
    } else {
      k := WindowComplete(slots, heap, lo + 1, hi, t);
      k := if Published(slots, lo) then k + 1 else k;
    }
  }

  /** Why the capacity must be at least 2: a published, unconsumed slot's word is the
      EMPTY word of a later ticket of the same slot exactly when there is only one. */
  lemma PhasesCollideAtOne(cap: nat)
    requires 0 < cap
    ensures cap == 1 <==> exists t: nat, u: nat :: EmptyForNext(t, u, cap)
  {
    if cap == 1 {
      assert EmptyForNext(0, 1, cap);
    } else {
      forall t: nat, u: nat ensures !EmptyForNext(t, u, cap) {
        if SlotOf(t, cap) == SlotOf(u, cap) && t < u {
          SlotGap(t, u, cap);
        }
      }
    }
  }

  /** Ticket t's published word t + 1 reads as EMPTY for ticket u of the same slot. */
  predicate EmptyForNext(t: nat, u: nat, cap: nat) {
    0 < cap && SlotOf(t, cap) == SlotOf(u, cap) && t + 1 == u
  }

  // ---- What each operation writes ----

  /** A producer takes slot SlotOf(enq) for free although message t still waits there. */
  predicate Overwrites(slots: seq<Slot>, deq: nat, enq: nat, t: nat)
    requires 0 < |slots|
  {
    && slots[SlotOf(enq, |slots|)].seq_ == enq
    && deq <= t < enq && SlotOf(t, |slots|) == SlotOf(enq, |slots|) && Published(slots, t)
  }

  predicate OverwritesAt(cap: nat, slots: seq<Slot>, deq: nat, enq: nat, t: nat) {
    0 < |slots| == cap && Overwrites(slots, deq, enq, t)
  }

  /** What the collision does, and why capacity 1 is refused: exactly then a producer
      can claim the slot of a message that nobody consumed. */
  lemma OverwritesAtOne(cap: nat, s: Slot)
    requires 0 < cap
    ensures cap == 1 <==> exists slots, deq: nat, enq: nat, t: nat :: OverwritesAt(cap, slots, deq, enq, t)
  {
    if cap == 1 {
      assert OverwritesAt(cap, [s.(seq_ := 1)], 0, 1, 0);
    }
    forall slots, deq: nat, enq: nat, t: nat | OverwritesAt(cap, slots, deq, enq, t) ensures cap == 1 {
      assert enq == t + 1;
      if cap >= 2 {
        SlotGap(t, enq, cap);
      }
    }
  }

  /** The message is lost: once the producer has published over it, no consumer finds it. */
  lemma OverwrittenIsLost(slots: seq<Slot>, heap: map<nat, Bytes>, deq: nat, enq: nat, t: nat, s: Slot)
    requires 0 < |slots| && Overwrites(slots, deq, enq, t) && s.seq_ == enq + 1
    ensures Lacks(Window(slots[SlotOf(enq, |slots|) := s], heap, deq, enq + 1), t)
  {
    var slots' := slots[SlotOf(enq, |slots|) := s];
    var q := Window(slots', heap, deq, enq + 1);
    forall k | 0 <= k < |q| ensures q[k].ticket != t {
      WindowTickets(slots', heap, deq, enq + 1, k);
    }
  }

  predicate Lacks(q: seq<Queued>, t: nat) { forall k | 0 <= k < |q| :: q[k].ticket != t }

  /** The producer's slot before it publishes: owner recorded, payload filled. */
  function Filled(s: Slot, m: Sent, page: nat): Slot {
    var s' := s.(expiry := m.expiry, channelLen := |Clip(m.channel)|, channel := Overlay(s.channel, Clip(m.channel)),
                 msgLen := |m.body|);
    if page == 0 then s'.(inline := Overlay(s.inline, m.body), overflow := 0) else s'.(overflow := page)
  }

  function Stored(heap: map<nat, Bytes>, page: nat, body: Bytes): map<nat, Bytes> {
    if page == 0 then heap else heap[page := Overlay(Lookup(heap, page), body)]
  }

  /** Whatever the slot and the page held before, the message reads back. */
  lemma FilledReadsBack(s: Slot, heap: map<nat, Bytes>, m: Sent, page: nat, t: nat)
    ensures Held(Filled(s, m, page), Stored(heap, page, m.body), t) == Queued(t, Clip(m.channel), m.body, m.expiry, page)
  {
  }

  /** Writing the slot of the next ticket, EMPTY until now, leaves older messages alone. */
  lemma WriteAhead(slots: seq<Slot>, heap: map<nat, Bytes>, deq: nat, enq: nat, s: Slot, heap': map<nat, Bytes>)
    requires 2 <= |slots| && Positions(slots, deq, enq) && slots[SlotOf(enq, |slots|)].seq_ == enq
    requires s.seq_ == enq + 1 || s.seq_ == enq + |slots|
    requires forall t: nat | deq <= t < enq && Published(slots, t) ::
               var p := slots[SlotOf(t, |slots|)].overflow; p != 0 ==> Lookup(heap', p) == Lookup(heap, p)
    ensures var slots' := slots[SlotOf(enq, |slots|) := s];
            Window(slots', heap', deq, enq) == Window(slots, heap, deq, enq)
  {
    var cap, slots' := |slots|, slots[SlotOf(enq, |slots|) := s];
    forall t: nat | deq <= t < enq ensures SameMessage(slots, heap, slots', heap', t) {
      assert TicketAt(slots, deq, t);
      if SlotOf(t, cap) == SlotOf(enq, cap) {
        SlotGap(t, enq, cap);
      }
    }
    WindowFrame(slots, heap, slots', heap', deq, enq);
  }

  lemma WriteAheadPositions(slots: seq<Slot>, deq: nat, enq: nat, s: Slot)
    requires 2 <= |slots| && Positions(slots, deq, enq) && slots[SlotOf(enq, |slots|)].seq_ == enq
    requires (s.seq_ == enq + 1 || s.seq_ == enq + |slots|) && s.owner == 0
    ensures Positions(slots[SlotOf(enq, |slots|) := s], deq, enq + 1)
  {
    var cap, slots' := |slots|, slots[SlotOf(enq, |slots|) := s];
    forall i | 0 <= i < cap ensures Unowned(slots', i) {
      assert Unowned(slots, i);
    }
    forall t: nat | t < enq + 1 ensures TicketAt(slots', deq, t) {
      if t < enq {
        assert TicketAt(slots, deq, t);
        if SlotOf(t, cap) == SlotOf(enq, cap) {
          SlotGap(t, enq, cap);
        }
      }
    }
    var hi := enq + 1;
    forall t: nat | hi <= t ensures NotAhead(slots', t) {
      assert NotAhead(slots, t);
      if SlotOf(t, cap) == SlotOf(enq, cap) {
        SlotGap(enq, t, cap);
      }
    }
  }

  /** Recycling the slot of the oldest ticket leaves the younger messages alone. */
  lemma Recycle(slots: seq<Slot>, heap: map<nat, Bytes>, deq: nat, enq: nat, s: Slot)
    requires 2 <= |slots| && Positions(slots, deq, enq) && deq < enq
    requires slots[SlotOf(deq, |slots|)].seq_ == deq + 1 && s.seq_ == deq + |slots| && s.owner == 0
    ensures var slots' := slots[SlotOf(deq, |slots|) := s];
            Positions(slots', deq + 1, enq) && Window(slots', heap, deq + 1, enq) == Window(slots, heap, deq + 1, enq)
  {
    var cap, slots' := |slots|, slots[SlotOf(deq, |slots|) := s];
    var head := deq + 1;
    forall t: nat | t < enq ensures TicketAt(slots', head, t) {
      assert TicketAt(slots, deq, t);
      if t < deq && SlotOf(t, cap) == SlotOf(deq, cap) {
        SlotGap(t, deq, cap);
      }
    }
    RecycledAhead(slots, deq, enq, s);
    forall i | 0 <= i < cap ensures Unowned(slots', i) {
      assert Unowned(slots, i);
    }
    forall t: nat | deq + 1 <= t < enq ensures SameMessage(slots, heap, slots', heap, t) {
      assert TicketAt(slots, deq, t);
    }
    WindowFrame(slots, heap, slots', heap, deq + 1, enq);
  }

  lemma RecycledAhead(slots: seq<Slot>, deq: nat, enq: nat, s: Slot)
    requires 2 <= |slots| && Positions(slots, deq, enq) && deq < enq
    requires slots[SlotOf(deq, |slots|)].seq_ == deq + 1 && s.seq_ == deq + |slots|
    ensures var slots' := slots[SlotOf(deq, |slots|) := s]; forall t: nat | enq <= t :: NotAhead(slots', t)
  {
    var slots' := slots[SlotOf(deq, |slots|) := s];
    forall t: nat | enq <= t ensures NotAhead(slots', t) {
      assert NotAhead(slots, t);
      if SlotOf(t, |slots|) == SlotOf(deq, |slots|) {
        SlotGap(deq, t, |slots|);
      }
    }
  }

  /** The overflow words and the pages in use: `holder` says which slot has each page. */
  ghost predicate PagesHeld(slots: seq<Slot>, deq: nat, enq: nat, live: set<nat>, holder: map<nat, nat>)
    requires 0 < |slots|
  {
    && holder.Keys == live
    && (forall i | 0 <= i < |slots| :: PageOfSlot(slots, deq, enq, holder, i))
    && (forall p :: SlotOfPage(slots, holder, p))
  }

  ghost predicate PageOfSlot(slots: seq<Slot>, deq: nat, enq: nat, holder: map<nat, nat>, i: nat)
    requires i < |slots|
  {
    var p := slots[i].overflow;
    p != 0 ==> p in holder && holder[p] == i && HoldsTicket(slots, deq, enq, i)
  }

  ghost predicate SlotOfPage(slots: seq<Slot>, holder: map<nat, nat>, p: nat) {
    p in holder ==> p != 0 && holder[p] < |slots| && slots[holder[p]].overflow == p
  }

  /** The slot is published for a ticket of the window. */
  ghost predicate HoldsTicket(slots: seq<Slot>, deq: nat, enq: nat, i: nat)
    requires i < |slots|
  {
    var w := slots[i].seq_;
    deq < w <= enq && SlotOf(w - 1, |slots|) == i
  }

  /** What holds between operations. */
  ghost predicate Sound(slots: seq<Slot>, deq: nat, enq: nat, live: set<nat>, holder: map<nat, nat>) {
    2 <= |slots| && Positions(slots, deq, enq) && PagesHeld(slots, deq, enq, live, holder)
  }

  /** Between the claim of ticket `pos` and its slot's next store. */
  ghost predicate ClaimedAt(slots: seq<Slot>, deq: nat, pos: nat, live: set<nat>, holder: map<nat, nat>) {
    && 2 <= |slots| && Positions(slots, deq, pos) && slots[SlotOf(pos, |slots|)].seq_ == pos
    && PagesHeld(slots, deq, pos, live, holder)
  }

  /** Generations are 64-bit words that wrap around. */
  const GENERATIONS: nat := 0x1_0000_0000_0000_0000

  /** One ring in shared memory, with the overflow pages it has from the slab. */
  class Ring {
    const cap: nat
    const inlineSize: nat
    var generation: nat           // how often the ring was reset, modulo 2^64
    var enq: nat
    var deq: nat
    var slots: array<Slot>
    var heap: map<nat, Bytes>     // what every page ever used contains
    var live: set<nat>            // the pages allocated and not yet freed
    ghost var holder: map<nat, nat>

    ghost predicate Valid()
      reads this, slots
    {
      cap == slots.Length && Sound(slots[..], deq, enq, live, holder)
    }

    /** The queue this ring stands for. */
    ghost function Model(): Queue
      requires 0 < slots.Length
      reads this, slots
    {
      Queue(deq, enq, Window(slots[..], heap, deq, enq))
    }

    constructor (capacity: nat, inlineSize: nat)
      requires 2 <= capacity && inlineSize <= 512
      ensures Valid() && fresh(slots) && cap == capacity && this.inlineSize == inlineSize
      ensures Model() == Queue(0, 0, []) && live == {} && generation == 0
    {
      generation := 0;
      cap := capacity;
      this.inlineSize := inlineSize;
      slots := new Slot[capacity](i => Slot(i, 0, 0, false, 0, 0, [], 0, [], 0));
      enq, deq, heap, live, holder := 0, 0, map[], {}, map[];
      new;
      FreshPositions(slots[..]);
    }

    /** `try_enqueue`. `page` is what the slab answers if it is asked: 0, or a page
        that is not in use. Nobody else is running, so the word is never ahead of
        the position and the owner of a slot that is behind is 0. */
    method TryEnqueue(m: Sent, pid: nat, page: nat) returns (ok: bool)
      requires Valid() && page !in live
      modifies this, slots
      ensures Valid() && slots == old(slots) && generation == old(generation)
      ensures (Model(), ok) == Enqueued(old(Model()), cap, inlineSize, m, page)
      ensures !ok ==> (Model() == old(Model()) <==> Full(old(Model()), cap))
      ensures live == if ok && |m.body| > inlineSize then old(live) + {page} else old(live)
    {
      ghost var before := slots[..];
      OldestAtFrontier(before, heap, deq, enq);
      FrontierSlot(before, deq, enq);
      var pos := enq;
      if slots[SlotOf(pos, cap)].seq_ != pos {
        return false;
      }
      enq := pos + 1;
      ok := FillClaimed(pos, m, pid, page);
    }

    /** Steps 2 to 6 of `try_enqueue`: what a producer does with its ticket. */
    method FillClaimed(pos: nat, m: Sent, pid: nat, page: nat) returns (ok: bool)
      requires cap == slots.Length && enq == pos + 1 && ClaimedAt(slots[..], deq, pos, live, holder) && page !in live
      modifies this, slots
      ensures slots == old(slots) && enq == old(enq) && deq == old(deq) && generation == old(generation)
      ensures ok <==> |m.body| <= inlineSize || page != 0
      ensures var p := if |m.body| > inlineSize then page else 0;
              FilledAt(old(slots[..]), old(heap), old(live), slots[..], heap, live, holder, deq, pos, m, p, ok)
    {
      ghost var before := slots[..];
      var i := SlotOf(pos, cap);
      slots[i] := slots[i].(owner := pid, ownerTicket := pos);
      var off := 0;
      if |m.body| > inlineSize {
        off := page;
        if off == 0 {
          Retract(pos, m, before);
          return false;
        }
        live := live + {off};
      }
      slots[i] := Filled(slots[i], m, off);
      heap := Stored(heap, off, m.body);
      slots[i] := slots[i].(seq_ := pos + 1, owner := 0, ownerTicket := 0);
      ok := true;
      ghost var after := before[i := Filled(before[i], m, off).(seq_ := pos + 1, owner := 0, ownerTicket := 0)];
      assert slots[..] == after;
      PublishedAhead(before, after, old(heap), deq, pos, m, off, old(live), holder);
      holder := if off == 0 then holder else holder[off := i];
    }

    /** The slab is exhausted: the claimed ticket becomes a SKIP tombstone. */
    method Retract(pos: nat, m: Sent, ghost before: seq<Slot>)
      requires cap == slots.Length == |before| && ClaimedAt(before, deq, pos, live, holder)
      requires var i := SlotOf(pos, cap);
               && slots[..] == before[i := slots[i]]
               && slots[i] == before[i].(owner := slots[i].owner, ownerTicket := slots[i].ownerTicket)
      modifies slots
      ensures FilledAt(before, heap, live, slots[..], heap, live, holder, deq, pos, m, 0, false)
    {
      var i := SlotOf(pos, cap);
      slots[i] := slots[i].(seq_ := pos + cap, owner := 0, ownerTicket := 0);
      ghost var after := before[i := before[i].(seq_ := pos + cap, owner := 0, ownerTicket := 0)];
      assert slots[..] == after;
      Tombstoned(before, after, heap, deq, pos, live, holder, m);
    }

    /** `try_dequeue`. Nobody else is running, so every compare-and-swap succeeds
        and the owner of a slot that is behind is 0. */
    method TryDequeue(now: int, pid: nat) returns (r: Option<(Bytes, Bytes)>)
      requires Valid()
      modifies this, slots
      ensures Valid() && slots == old(slots) && generation == old(generation)
      ensures (Model(), r) == Dequeued(old(Model()), now)
    {
      r := None;
      var more := true;
      while more
        invariant Valid() && slots == old(slots) && generation == old(generation)
        invariant if more then Dequeued(Model(), now) == Dequeued(old(Model()), now)
                  else (Model(), r) == Dequeued(old(Model()), now)
        decreases more, enq - deq
      {
        more, r := DequeueTurn(now, pid);
      }
    }

    /** One turn of its loop: step over a tombstone or an expired message and go
        round again, or stop with an answer. */
    method DequeueTurn(now: int, pid: nat) returns (more: bool, r: Option<(Bytes, Bytes)>)
      requires Valid()
      modifies this, slots
      ensures Valid() && slots == old(slots) && generation == old(generation)
      ensures if more then Dequeued(Model(), now) == Dequeued(old(Model()), now) && old(deq) < deq <= enq == old(enq)
              else (Model(), r) == Dequeued(old(Model()), now)
    {
      ghost var before := slots[..];
      var pos := deq;
      var i := SlotOf(pos, cap);
      var w := slots[i].seq_;
      DequeuePosition(before, heap, deq, enq);
      if w < pos + 1 {
        return false, None;
      }
      if w > pos + 1 {
        StepOver(before, heap, pos, enq, live, holder);
        DequeuedAnyHead(pos, pos + 1, enq, Window(before, heap, pos, enq), now);
        deq := pos + 1;
        return true, None;
      }
      deq := pos + 1;
      r := TakeClaimed(pos, now, pid);
      DequeuedHead(pos, enq, Held(before[i], heap, pos), Window(slots[..], heap, deq, enq), now);
      return r.None?, r;
    }

    /** What a consumer does with the published ticket it claimed: recycle the slot
        and free its page, and return the message unless it has expired. */
    method TakeClaimed(pos: nat, now: int, pid: nat) returns (r: Option<(Bytes, Bytes)>)
      requires 2 <= cap == slots.Length && deq == pos + 1 && pos < enq
      requires Positions(slots[..], pos, enq) && PagesHeld(slots[..], pos, enq, live, holder)
      requires slots[SlotOf(pos, cap)].seq_ == pos + 1
      modifies this`live, this`holder, slots
      ensures Valid() && slots == old(slots)
      ensures var m := Held(old(slots[SlotOf(pos, cap)]), heap, pos);
              && old(Window(slots[..], heap, pos, enq)) == [m] + Window(slots[..], heap, deq, enq)
              && r == if now > m.expiry then None else Some((m.channel, m.body))
    {
      ghost var before := slots[..];
      var i := SlotOf(pos, cap);
      Taken(before, heap, pos, enq, live, holder);
      if now > slots[i].expiry {
        slots[i] := slots[i].(seq_ := pos + cap, owner := 0, ownerTicket := 0);
        ReleasePage(i);
        assert slots[..] == AfterTake(before, pos);
        return None;
      }
      slots[i] := slots[i].(owner := pid, ownerTicket := pos);
      var channel := ReadBytes(slots[i].channel, slots[i].channelLen);
      var body := ReadBytes(if slots[i].overflow != 0 then Lookup(heap, slots[i].overflow) else slots[i].inline,
                            slots[i].msgLen);
      ReleasePage(i);
      slots[i] := slots[i].(seq_ := pos + cap, owner := 0, ownerTicket := 0);
      assert slots[..] == AfterTake(before, pos);
      return Some((channel, body));
    }

    /** Clear the overflow word and free the page it named, if any. */
    method ReleasePage(i: nat)
      requires i < slots.Length
      modifies this`live, this`holder, slots
      ensures slots[..] == old(slots[..])[i := old(slots[i]).(overflow := 0)]
      ensures live == Without(old(live), old(slots[i].overflow))
      ensures holder == WithoutKey(old(holder), old(slots[i].overflow))
    {
      var off := slots[i].overflow;
      if off != 0 {
        slots[i] := slots[i].(overflow := 0);
        live := live - {off};
        holder := holder - {off};
      }
    }

    /** One compact pass, from any state of the ring. On a ring whose tickets are
        all published or tombstoned it is invisible: only marks are cleared,
        whatever the distance between the two positions. */
    method Compact()
      requires 2 <= cap == slots.Length
      modifies this`live, this`holder, slots
      ensures forall i | 0 <= i < cap :: AfterPass(old(slots[i]), slots[i], i, Max(enq, deq), cap)
      ensures forall i | 0 <= i < cap :: slots[i] == Compacted(old(slots[i]), i, Max(enq, deq), cap)
      ensures old(Valid()) ==>
                && Valid() && Model() == old(Model()) && live == old(live)
                && forall i | 0 <= i < cap :: slots[i] == old(slots[i]).(mark := false)
    {
      ghost var before := slots[..];
      var maxPos := Max(enq, deq);
      var i := 0;
      while i < cap
        invariant 0 <= i <= cap
        invariant forall k | 0 <= k < i :: slots[k] == Compacted(before[k], k, maxPos, cap)
        invariant forall k | i <= k < cap :: slots[k] == before[k]
        invariant old(Valid()) ==> live == old(live) && holder == old(holder)
      {
        var s := slots[i];
        if old(Valid()) {
          NothingStuck(before, deq, enq, i);
        }
        if Stuck(s, maxPos, cap) {
          if s.mark {
            var target := if s.owner == M.RECOVERING then s.ownerTicket + cap else M.NextTicket(maxPos, i, cap);
            ReleasePage(i);
            slots[i] := slots[i].(seq_ := target, owner := 0, ownerTicket := 0, mark := false);
          } else {
            slots[i] := slots[i].(mark := true);
          }
        } else {
          slots[i] := slots[i].(mark := false);
        }
        i := i + 1;
      }
      forall k | 0 <= k < cap ensures AfterPass(before[k], slots[k], k, maxPos, cap) {
        CompactedMeans(before[k], k, maxPos, cap);
      }
      if old(Valid()) {
        Unmarked(before, slots[..], deq, enq);
        MarksInvisible(before, slots[..], heap, deq, enq, live, holder);
      }
    }

    /** `reset`, with the slab reset that always follows it. */
    method Reset()
      requires 2 <= cap == slots.Length
      modifies this, slots
      ensures Valid() && slots == old(slots) && Model() == Queue(0, 0, []) && live == {}
      ensures generation == (old(generation) + 1) % GENERATIONS
      ensures forall i | 0 <= i < cap :: slots[i] == old(slots[i]).(seq_ := i, owner := 0, ownerTicket := 0, mark := false,
                                                                    expiry := 0, channelLen := 0, msgLen := 0, overflow := 0)
    {
      generation := (generation + 1) % GENERATIONS;
      enq, deq := 0, 0;
      var i := 0;
      while i < cap
        invariant 0 <= i <= cap && slots == old(slots) && enq == deq == 0
        invariant generation == (old(generation) + 1) % GENERATIONS
        invariant forall k | 0 <= k < i :: slots[k] == old(slots[k]).(seq_ := k, owner := 0, ownerTicket := 0, mark := false,
                                                                      expiry := 0, channelLen := 0, msgLen := 0, overflow := 0)
        invariant forall k | i <= k < cap :: slots[k] == old(slots[k])
        invariant forall k | 0 <= k < i :: slots[k].seq_ == k && slots[k].owner == 0 && slots[k].overflow == 0
      {
        slots[i] := slots[i].(seq_ := i, owner := 0, ownerTicket := 0, mark := false, expiry := 0,
                              channelLen := 0, msgLen := 0);
        if slots[i].overflow != 0 {
          slots[i] := slots[i].(overflow := 0);
        }
        i := i + 1;
      }
      live, holder := {}, map[];
      FreshPositions(slots[..]);
    }
  }

  /** What filling the claimed ticket `pos` amounts to. */
  ghost predicate FilledAt(slots: seq<Slot>, heap: map<nat, Bytes>, live: set<nat>,
                           slots': seq<Slot>, heap': map<nat, Bytes>, live': set<nat>, holder': map<nat, nat>,
                           deq: nat, pos: nat, m: Sent, page: nat, ok: bool)
  {
    && 0 < |slots| == |slots'|
    && Positions(slots', deq, pos + 1) && PagesHeld(slots', deq, pos + 1, live', holder')
    && Window(slots', heap', deq, pos + 1) ==
       (if ok then Window(slots, heap, deq, pos) + [Queued(pos, Clip(m.channel), m.body, m.expiry, page)]
        else Window(slots, heap, deq, pos))
    && live' == (if ok && page != 0 then live + {page} else live)
  }

  /** The tombstone branch: one ticket spent, nothing else changed. */
  lemma Tombstoned(slots: seq<Slot>, slots': seq<Slot>, heap: map<nat, Bytes>, deq: nat, enq: nat,
                   live: set<nat>, holder: map<nat, nat>, m: Sent)
    requires ClaimedAt(slots, deq, enq, live, holder)
    requires var i := SlotOf(enq, |slots|);
             slots' == slots[i := slots[i].(seq_ := enq + |slots|, owner := 0, ownerTicket := 0)]
    ensures FilledAt(slots, heap, live, slots', heap, live, holder, deq, enq, m, 0, false)
  {
    var i := SlotOf(enq, |slots|);
    WriteAheadPositions(slots, deq, enq, slots'[i]);
    WriteAhead(slots, heap, deq, enq, slots'[i], heap);
    WindowSnoc(slots', heap, deq, enq);
    assert PageOfSlot(slots, deq, enq, holder, i);
    EmptyHoldsNothing(slots, deq, enq, holder);
    PagesKept(slots, slots', deq, enq, live, holder);
  }

  /** A slot EMPTY for the next ticket has no page: its word is not a published one. */
  lemma EmptyHoldsNothing(slots: seq<Slot>, deq: nat, enq: nat, holder: map<nat, nat>)
    requires 2 <= |slots| && slots[SlotOf(enq, |slots|)].seq_ == enq
    requires PageOfSlot(slots, deq, enq, holder, SlotOf(enq, |slots|))
    ensures slots[SlotOf(enq, |slots|)].overflow == 0
  {
    if 0 < enq && SlotOf(enq - 1, |slots|) == SlotOf(enq, |slots|) {
      SlotGap(enq - 1, enq, |slots|);
    }
  }

  lemma PagesKept(slots: seq<Slot>, slots': seq<Slot>, deq: nat, enq: nat, live: set<nat>, holder: map<nat, nat>)
    requires 2 <= |slots| && PagesHeld(slots, deq, enq, live, holder)
    requires var i := SlotOf(enq, |slots|);
             |slots'| == |slots| && slots' == slots[i := slots'[i]] && slots[i].overflow == slots'[i].overflow == 0
    ensures PagesHeld(slots', deq, enq + 1, live, holder)
  {
    var hi := enq + 1;
    forall i | 0 <= i < |slots| ensures PageOfSlot(slots', deq, hi, holder, i) {
      assert PageOfSlot(slots, deq, enq, holder, i);
    }
    forall p ensures SlotOfPage(slots', holder, p) {
      assert SlotOfPage(slots, holder, p);
    }
  }

  lemma PageAttached(slots: seq<Slot>, slots': seq<Slot>, deq: nat, enq: nat, page: nat,
                     live: set<nat>, holder: map<nat, nat>)
    requires 2 <= |slots| && PagesHeld(slots, deq, enq, live, holder) && deq <= enq
    requires page != 0 && page !in live
    requires var i := SlotOf(enq, |slots|);
             |slots'| == |slots| && slots' == slots[i := slots'[i]] && slots[i].overflow == 0
             && slots'[i].overflow == page && slots'[i].seq_ == enq + 1
    ensures PagesHeld(slots', deq, enq + 1, live + {page}, holder[page := SlotOf(enq, |slots|)])
  {
    var hi, holder' := enq + 1, holder[page := SlotOf(enq, |slots|)];
    forall i | 0 <= i < |slots| ensures PageOfSlot(slots', deq, hi, holder', i) {
      PageOfSlotKept(slots, slots', deq, enq, holder, page, i);
    }
    forall p ensures SlotOfPage(slots', holder', p) {
      SlotOfPageKept(slots, slots', SlotOf(enq, |slots|), holder, page, p);
    }
  }

  lemma PageOfSlotKept(slots: seq<Slot>, slots': seq<Slot>, deq: nat, enq: nat, holder: map<nat, nat>, page: nat, i: nat)
    requires i < |slots| == |slots'| && deq <= enq && PageOfSlot(slots, deq, enq, holder, i) && page !in holder
    requires i != SlotOf(enq, |slots|) ==> slots'[i] == slots[i]
    requires i == SlotOf(enq, |slots|) ==> slots'[i].overflow == page && slots'[i].seq_ == enq + 1
    ensures PageOfSlot(slots', deq, enq + 1, holder[page := SlotOf(enq, |slots|)], i)
  {
  }

  lemma SlotOfPageKept(slots: seq<Slot>, slots': seq<Slot>, i: nat, holder: map<nat, nat>, page: nat, p: nat)
    requires i < |slots| == |slots'| && slots' == slots[i := slots'[i]] && slots[i].overflow == 0
    requires slots'[i].overflow == page != 0 && SlotOfPage(slots, holder, p)
    ensures SlotOfPage(slots', holder[page := i], p)
  {
  }

  lemma PublishedAhead(slots: seq<Slot>, slots': seq<Slot>, heap: map<nat, Bytes>, deq: nat, enq: nat, m: Sent, page: nat,
                       live: set<nat>, holder: map<nat, nat>)
    requires ClaimedAt(slots, deq, enq, live, holder) && (page == 0 || page !in live)
    requires PublishedSlot(slots, slots', enq, m, page)
    ensures FilledAt(slots, heap, live, slots', Stored(heap, page, m.body), if page == 0 then live else live + {page},
                     if page == 0 then holder else holder[page := SlotOf(enq, |slots|)], deq, enq, m, page, true)
  {
    var i := SlotOf(enq, |slots|);
    WriteAheadPositions(slots, deq, enq, slots'[i]);
    PublishedWindow(slots, slots', heap, deq, enq, m, page, live, holder);
    assert PageOfSlot(slots, deq, enq, holder, i);
    EmptyHoldsNothing(slots, deq, enq, holder);
    if page == 0 {
      PagesKept(slots, slots', deq, enq, live, holder);
    } else {
      PageAttached(slots, slots', deq, enq, page, live, holder);
    }
  }

  predicate PublishedSlot(slots: seq<Slot>, slots': seq<Slot>, enq: nat, m: Sent, page: nat) {
    && 0 < |slots| == |slots'|
    && var i := SlotOf(enq, |slots|);
       && slots' == slots[i := slots'[i]]
       && slots'[i] == Filled(slots[i], m, page).(seq_ := enq + 1, owner := 0, ownerTicket := 0)
  }

  lemma PublishedWindow(slots: seq<Slot>, slots': seq<Slot>, heap: map<nat, Bytes>, deq: nat, enq: nat, m: Sent, page: nat,
                        live: set<nat>, holder: map<nat, nat>)
    requires ClaimedAt(slots, deq, enq, live, holder) && (page == 0 || page !in live)
    requires PublishedSlot(slots, slots', enq, m, page)
    ensures Window(slots', Stored(heap, page, m.body), deq, enq + 1)
            == Window(slots, heap, deq, enq) + [Queued(enq, Clip(m.channel), m.body, m.expiry, page)]
  {
    var i := SlotOf(enq, |slots|);
    var heap' := Stored(heap, page, m.body);
    forall t: nat | deq <= t < enq && Published(slots, t)
      ensures var p := slots[SlotOf(t, |slots|)].overflow; p != 0 ==> Lookup(heap', p) == Lookup(heap, p)
    {
      assert PageOfSlot(slots, deq, enq, holder, SlotOf(t, |slots|));
    }
    WriteAhead(slots, heap, deq, enq, slots'[i], heap');
    WindowSnoc(slots', heap', deq, enq);
    FilledReadsBack(slots[i], heap, m, page, enq);
  }

  lemma FreshPositions(slots: seq<Slot>)
    requires 2 <= |slots| && forall i | 0 <= i < |slots| :: slots[i].seq_ == i && slots[i].owner == 0
    ensures Positions(slots, 0, 0)
  {
    forall t: nat ensures NotAhead(slots, t) {
      SlotAtMost(t, |slots|);
    }
  }

  lemma {:induction false} SlotAtMost(t: nat, cap: nat)
    requires 0 < cap
    ensures SlotOf(t, cap) <= t
  {
    if cap <= t {
      SlotAtMost(t - cap, cap);
    }
  }

  /** The slot at the dequeue position says whether there is anything to take. */
  lemma DequeuePosition(slots: seq<Slot>, heap: map<nat, Bytes>, deq: nat, enq: nat)
    requires 2 <= |slots| && Positions(slots, deq, enq)
    ensures slots[SlotOf(deq, |slots|)].seq_ < deq + 1 <==> deq == enq
  {
    if deq == enq {
      assert NotAhead(slots, deq);
    } else {
      assert TicketAt(slots, deq, deq);
    }
  }

  /** A tombstone is not a message: stepping over it changes nothing but the head. */
  lemma StepOver(slots: seq<Slot>, heap: map<nat, Bytes>, deq: nat, enq: nat, live: set<nat>, holder: map<nat, nat>)
    requires Sound(slots, deq, enq, live, holder)
    requires deq < enq && slots[SlotOf(deq, |slots|)].seq_ != deq + 1
    ensures Sound(slots, deq + 1, enq, live, holder)
    ensures Window(slots, heap, deq + 1, enq) == Window(slots, heap, deq, enq)
  {
    var head := deq + 1;
    forall t: nat | t < enq ensures TicketAt(slots, head, t) {
      assert TicketAt(slots, deq, t);
    }
    forall i | 0 <= i < |slots| ensures PageOfSlot(slots, head, enq, holder, i) {
      assert PageOfSlot(slots, deq, enq, holder, i);
    }
  }

  function Without(live: set<nat>, page: nat): set<nat> { if page == 0 then live else live - {page} }

  function WithoutKey(holder: map<nat, nat>, page: nat): map<nat, nat> {
    if page == 0 then holder else holder - {page}
  }

  /** The slots after the message of ticket `deq` was consumed. */
  function AfterTake(slots: seq<Slot>, deq: nat): seq<Slot>
    requires 0 < |slots|
  {
    var i := SlotOf(deq, |slots|);
    slots[i := slots[i].(seq_ := deq + |slots|, owner := 0, ownerTicket := 0, overflow := 0)]
  }

  /** Consuming the oldest message removes it, and its page, and nothing else. */
  lemma Taken(slots: seq<Slot>, heap: map<nat, Bytes>, deq: nat, enq: nat, live: set<nat>, holder: map<nat, nat>)
    requires 2 <= |slots| && Positions(slots, deq, enq) && PagesHeld(slots, deq, enq, live, holder)
    requires deq < enq && slots[SlotOf(deq, |slots|)].seq_ == deq + 1
    ensures var i, slots' := SlotOf(deq, |slots|), AfterTake(slots, deq);
            && Positions(slots', deq + 1, enq)
            && PagesHeld(slots', deq + 1, enq, Without(live, slots[i].overflow), WithoutKey(holder, slots[i].overflow))
            && Window(slots, heap, deq, enq) == [Held(slots[i], heap, deq)] + Window(slots', heap, deq + 1, enq)
  {
    var i, slots' := SlotOf(deq, |slots|), AfterTake(slots, deq);
    Recycle(slots, heap, deq, enq, slots'[i]);
    PagesTaken(slots, deq, enq, live, holder);
  }

  lemma PagesTaken(slots: seq<Slot>, deq: nat, enq: nat, live: set<nat>, holder: map<nat, nat>)
    requires 2 <= |slots| && PagesHeld(slots, deq, enq, live, holder)
    requires deq < enq && slots[SlotOf(deq, |slots|)].seq_ == deq + 1
    ensures var p := slots[SlotOf(deq, |slots|)].overflow;
            PagesHeld(AfterTake(slots, deq), deq + 1, enq, Without(live, p), WithoutKey(holder, p))
  {
    var i, slots', head := SlotOf(deq, |slots|), AfterTake(slots, deq), deq + 1;
    var page := slots[i].overflow;
    var holder' := WithoutKey(holder, page);
    assert PageOfSlot(slots, deq, enq, holder, i);
    forall j | 0 <= j < |slots| ensures PageOfSlot(slots', head, enq, holder', j) {
      assert PageOfSlot(slots, deq, enq, holder, j);
    }
    forall p ensures SlotOfPage(slots', holder', p) {
      assert SlotOfPage(slots, holder, p);
    }
  }

  predicate Stuck(s: Slot, maxPos: nat, cap: nat) {
    maxPos >= cap && s.seq_ <= maxPos - cap && (s.owner == 0 || s.owner == M.RECOVERING)
  }

  /** What a compact pass makes of slot i. */
  function Compacted(s: Slot, i: nat, maxPos: nat, cap: nat): Slot
    requires i < cap
  {
    if !Stuck(s, maxPos, cap) then s.(mark := false)
    else if !s.mark then s.(mark := true)
    else
      s.(seq_ := if s.owner == M.RECOVERING then s.ownerTicket + cap else M.NextTicket(maxPos, i, cap),
         owner := 0, ownerTicket := 0, mark := false, overflow := 0)
  }

  /** The least ticket at or past maxPos that uses slot i. */
  ghost predicate NextFor(n: nat, i: nat, maxPos: nat, cap: nat)
    requires 0 < cap
  {
    maxPos <= n && SlotOf(n, cap) == i && forall t: nat | maxPos <= t && SlotOf(t, cap) == i :: n <= t
  }

  /** What a pass is for: a slot a whole round behind the frontier that nobody owns is
      marked, and if it was marked already it is made EMPTY for the next ticket that
      uses it (or for the round after the ticket whose repair was cut short), its
      page word cleared. Any other slot only loses its mark. */
  ghost predicate AfterPass(s: Slot, s': Slot, i: nat, maxPos: nat, cap: nat)
    requires 0 < cap
  {
    if maxPos < s.seq_ + cap || (s.owner != 0 && s.owner != M.RECOVERING) then s' == s.(mark := false)
    else if !s.mark then s' == s.(mark := true)
    else
      && s' == s.(seq_ := s'.seq_, owner := 0, ownerTicket := 0, mark := false, overflow := 0)
      && if s.owner == M.RECOVERING then s'.seq_ == s.ownerTicket + cap else NextFor(s'.seq_, i, maxPos, cap)
  }

  lemma CompactedMeans(s: Slot, i: nat, maxPos: nat, cap: nat)
    requires i < cap
    ensures AfterPass(s, Compacted(s, i, maxPos, cap), i, maxPos, cap)
  {
    M.NextTicketIsLeast(maxPos, i, cap);
  }

  lemma Unmarked(slots: seq<Slot>, slots': seq<Slot>, deq: nat, enq: nat)
    requires 2 <= |slots| == |slots'| && Positions(slots, deq, enq)
    requires forall i | 0 <= i < |slots| :: slots'[i] == Compacted(slots[i], i, Max(enq, deq), |slots|)
    ensures forall i | 0 <= i < |slots| :: slots'[i] == slots[i].(mark := false)
  {
    forall i | 0 <= i < |slots| ensures slots'[i] == slots[i].(mark := false) {
      NothingStuck(slots, deq, enq, i);
    }
  }

  /** No slot of a ring whose tickets are all published or tombstoned is a full
      round behind its frontier. */
  lemma NothingStuck(slots: seq<Slot>, deq: nat, enq: nat, i: nat)
    requires 2 <= |slots| && Positions(slots, deq, enq) && i < |slots|
    ensures !Stuck(slots[i], Max(enq, deq), |slots|)
  {
    if enq >= |slots| {
      var t := LastTicketOf(i, enq, |slots|);
      assert TicketAt(slots, deq, t);
    }
  }

  /** The last ticket before `enq` that uses slot i. */
  lemma {:induction false} LastTicketOf(i: nat, enq: nat, cap: nat) returns (t: nat)
    requires i < cap <= enq
    ensures enq - cap <= t < enq && SlotOf(t, cap) == i
    decreases enq
  {
    if enq < 2 * cap {
      t := if i + cap < enq then i + cap else i;
      SlotOfSmall(t, cap);
    } else {
      t := LastTicketOf(i, enq - cap, cap);
      t := t + cap;
    }
  }

  lemma MarksInvisible(slots: seq<Slot>, slots': seq<Slot>, heap: map<nat, Bytes>, deq: nat, enq: nat,
                       live: set<nat>, holder: map<nat, nat>)
    requires 2 <= |slots| == |slots'| && Positions(slots, deq, enq) && PagesHeld(slots, deq, enq, live, holder)
    requires forall i | 0 <= i < |slots| :: slots'[i] == slots[i].(mark := slots'[i].mark)
    ensures Positions(slots', deq, enq) && PagesHeld(slots', deq, enq, live, holder)
    ensures Window(slots', heap, deq, enq) == Window(slots, heap, deq, enq)
  {
    forall t: nat | t < enq ensures TicketAt(slots', deq, t) {
      assert TicketAt(slots, deq, t);
    }
    forall t: nat | enq <= t ensures NotAhead(slots', t) {
      assert NotAhead(slots, t);
    }
    forall i | 0 <= i < |slots| ensures Unowned(slots', i) && PageOfSlot(slots', deq, enq, holder, i) {
      assert Unowned(slots, i) && PageOfSlot(slots, deq, enq, holder, i);
    }
    forall p ensures SlotOfPage(slots', holder, p) {
      assert SlotOfPage(slots, holder, p);
    }
    forall t: nat | deq <= t < enq ensures SameMessage(slots, heap, slots', heap, t) {
    }
    WindowFrame(slots, heap, slots', heap, deq, enq);
  }

  /** The pages in use are exactly those of the queued messages. */
  lemma LivePagesAreQueued(slots: seq<Slot>, heap: map<nat, Bytes>, deq: nat, enq: nat, live: set<nat>, holder: map<nat, nat>)
    requires 2 <= |slots| && Positions(slots, deq, enq) && PagesHeld(slots, deq, enq, live, holder)
    ensures live == PagesOf(Window(slots, heap, deq, enq))
  {
    var q := Window(slots, heap, deq, enq);
    forall p | p in live ensures p in PagesOf(q) {
      assert SlotOfPage(slots, holder, p) && PageOfSlot(slots, deq, enq, holder, holder[p]);
      var k := WindowComplete(slots, heap, deq, enq, slots[holder[p]].seq_ - 1);
      assert q[k].page == p;
    }
    forall k | 0 <= k < |q| && q[k].page != 0 ensures q[k].page in live {
      WindowTickets(slots, heap, deq, enq, k);
      assert PageOfSlot(slots, deq, enq, holder, SlotOf(q[k].ticket, |slots|));
    }
  }

  /** Every reachable ring keeps its window: `enq <= t + cap` for each waiting ticket. */
  lemma WindowOrdered(slots: seq<Slot>, heap: map<nat, Bytes>, deq: nat, enq: nat)
    requires 2 <= |slots| && Positions(slots, deq, enq)
    ensures Ordered(Queue(deq, enq, Window(slots, heap, deq, enq)), |slots|)
  {
    var q := Window(slots, heap, deq, enq);
    forall k | 0 <= k < |q| ensures deq <= q[k].ticket < enq <= q[k].ticket + |slots| {
      WindowTickets(slots, heap, deq, enq, k);
      var t := q[k].ticket;
      SlotOfSmall(t + |slots|, |slots|);
      assert t + |slots| < enq ==> TicketAt(slots, deq, t + |slots|);
    }
    WindowAscending(slots, heap, deq, enq);
  }

  ghost predicate Ascending(q: seq<Queued>) {
    forall j, k | 0 <= j < k < |q| :: q[j].ticket < q[k].ticket
  }

  lemma AscendingCons(x: Queued, q: seq<Queued>)
    requires Ascending(q) && forall k | 0 <= k < |q| :: x.ticket < q[k].ticket
    ensures Ascending([x] + q)
  {
  }

  lemma {:induction false} WindowAscending(slots: seq<Slot>, heap: map<nat, Bytes>, lo: nat, hi: nat)
    requires 0 < |slots|
    ensures Ascending(Window(slots, heap, lo, hi))
    decreases hi - lo
  {
    if lo < hi {
      WindowAscending(slots, heap, lo + 1, hi);
      var rest := Window(slots, heap, lo + 1, hi);
      forall k | 0 <= k < |rest| ensures lo < rest[k].ticket {
        WindowTickets(slots, heap, lo + 1, hi, k);
      }
      AscendingCons(Held(slots[SlotOf(lo, |slots|)], heap, lo), rest);
    }
  }
}
