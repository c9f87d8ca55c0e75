/** The engine as a user of the region sees it: channels by name, a queue of messages
    per ring, groups with their leases. Every run of operations on a region, from
    whatever garbage it was initialised or flushed over, is a run of this engine. */
module Engine {
  import opened Prelude
  import C = ChannelIndex
  import G = Groups
  import opened Members
  import Q = RingQueue
  import S = Slab
  import opened Operations
  import opened Regions

  // ---- The engine ----

  /** `books`: per group its member count and who has an entry; `clock`: the time of
      the last join. */
  datatype View = View(channels: map<Bytes, C.Entry>, queues: map<nat, Q.Queue>, groups: map<Bytes, map<Bytes, nat>>,
                       books: map<Bytes, G.Book>, clock: nat)

  function RingIn(v: View, name: Bytes): Option<nat> {
    if name in v.channels then Some(v.channels[name].ring) else None
  }

  /** A new channel with an empty queue of its own. */
  predicate Opens(v: View, name: Bytes, e: C.Entry, v': View) {
    && e.ring != 0 && e.ring !in v.queues
    && v' == v.(channels := v.channels[name := e], queues := v.queues[e.ring := Q.Queue(0, 0, [])])
  }

  /** An existing ring is returned whatever its capacity; a capacity below 2 is an
      error; a new ring may be refused for want of memory or of room in the index. */
  ghost predicate OpensRing(v: View, name: Bytes, capacity: nat, nonLocal: bool, v': View, res: Result) {
    if capacity < 2 then v' == v && res == Offset(None)
    else if name in v.channels then v' == v && res == Offset(RingIn(v, name))
    else
      || (v' == v && res == Offset(None))
      || exists off: nat :: Opens(v, name, C.Entry(off, capacity, nonLocal), v') && res == Offset(Some(off))
  }

  /** A page, if there is one, is nobody's so far. */
  ghost predicate NewPage(v: View, page: nat) {
    page != 0 ==> forall k | k in v.queues :: page !in Q.PagesOf(v.queues[k].q)
  }

  /** An enqueue on the channel's ring with the slab's answer `page`. */
  ghost predicate SendsWith(cf: Config, v: View, name: Bytes, m: Q.Sent, page: nat, v': View, res: Result)
    requires name in v.channels
  {
    var e := v.channels[name];
    && NewPage(v, page) && e.ring in v.queues
    && var (q, ok) := Q.Enqueued(v.queues[e.ring], e.capacity, cf.inlineSize, m, page);
       v' == v.(queues := v.queues[e.ring := q]) && res == Accepted(ok)
  }

  predicate Receives(v: View, name: Bytes, now: int, v': View, res: Result)
    requires name in v.channels
  {
    var e := v.channels[name];
    && e.ring in v.queues
    && var (q, m) := Q.Dequeued(v.queues[e.ring], now);
       v' == v.(queues := v.queues[e.ring := q]) && res == Received(m)
  }

  /** A join starts or renews the lease, or finds the group full of other unexpired
      leases, or finds no memory or slot for a new group. */
  ghost predicate Joins(cf: Config, v: View, group: Bytes, channel: Bytes, now: nat, v': View, j: G.Joining) {
    var was: map<Bytes, nat> := if group in v.groups then v.groups[group] else map[];
    var book := if group in v.books then v.books[group] else G.Book({}, 0);
    && v' == v.(groups := v'.groups, books := v'.books, clock := v'.clock)
    && (j.Joined? ==> v'.groups == v.groups[group := G.Renewed(was, channel, now)] && v'.clock == now)
    && (j.Joined? ==> group in v'.books && v'.books == v.books[group := v'.books[group]]
                      && G.Entered(book, Clip(channel), v'.books[group]))
    && (!j.Joined? ==> v'.clock == v.clock)
    && (j.GroupFull? ==> v'.groups == v.groups[group := was] && v'.books == v.books[group := book])
    && (j.NoSlot? ==> v' == v && group !in v.groups)
    && (!j.NoSlot? ==> (j.GroupFull? <==> FullFor(was, channel, cf.maxMembers, cf.groupExpiry, now)))
  }

  /** A leave ends the lease; the group goes exactly when the channel had an entry and
      the group counted at most one member, and then no other unexpired lease is left. */
  ghost predicate Leaves(cf: Config, v: View, group: Bytes, channel: Bytes, v': View) {
    var key := Clip(channel);
    if group !in v.groups || group !in v.books then v' == v
    else
      var book, left := v.books[group], v.groups[group] - {key};
      if key in book.entries && book.count <= 1 then
        && v' == v.(groups := v.groups - {group}, books := v.books - {group})
        && forall n | n in left :: !Fresh(left[n], cf.groupExpiry, v.clock)
      else
        v' == v.(groups := v.groups[group := left],
                 books := v.books[group := if key in book.entries then G.Book(book.entries - {key}, book.count - 1)
                                           else book])
  }

  /** A group opened by a join goes with the leave of the same channel. */
  lemma JoinThenLeave(cf: Config, v: View, group: Bytes, channel: Bytes, now: nat, v1: View, v2: View)
    requires group !in v.groups && group !in v.books
    requires Joins(cf, v, group, channel, now, v1, G.Joined) && Leaves(cf, v1, group, channel, v2)
    ensures v2 == v.(clock := now)
  {
    assert v.groups[group := v1.groups[group]] - {group} == v.groups;
    assert v.books[group := v1.books[group]] - {group} == v.books;
  }

  /** Exactly the unexpired members of a live group, each once. */
  ghost predicate Lists(cf: Config, v: View, group: Bytes, now: nat, names: seq<Bytes>) {
    && Distinct(names)
    && forall n :: n in names <==>
         group in v.groups && n in v.groups[group] && Fresh(v.groups[group][n], cf.groupExpiry, now)
  }

  /** What an operation does to the engine, and what it answers. */
  ghost predicate Does(cf: Config, v: View, op: Op, v': View, res: Result) {
    match op
    case OpLookup(name) => v' == v && res == Offset(RingIn(v, name))
    case OpOpenRing(name, capacity, nonLocal) => OpensRing(v, name, capacity, nonLocal, v', res)
    case OpSend(name, m) =>
      if name !in v.channels then v' == v && res == Offset(None)
      else exists page: nat :: SendsWith(cf, v, name, m, page, v', res)
    case OpReceive(name, now) =>
      if name !in v.channels then v' == v && res == Offset(None) else Receives(v, name, now, v', res)
    case OpCompact => v' == v && res == Done
    case OpJoin(group, channel, at) => res.Joining? && Joins(cf, v, group, channel, at, v', res.j)
    case OpLeave(group, channel) => res == Done && Leaves(cf, v, group, channel, v')
    case OpList(group, at) => v' == v && res.Names? && Lists(cf, v, group, at, res.names)
    case OpAlloc(_) => v' == v && res.Offset?
    case OpFree(_, _) => v' == v && res == Done
  }

  // ---- What a region stands for ----

  function Channels(r: Region): map<Bytes, C.Entry> { C.TableOf(r.chans) }

  function Queues(r: Region): map<nat, Q.Queue> {
    map off | off in r.rings && 0 < |r.rings[off].slots| :: QueueIn(r.rings[off], r.pages)
  }

  /** `w`: what the group table stands for. */
  function ViewOf(r: Region, w: G.World): View { View(Channels(r), Queues(r), w.groups, w.books, w.clock) }

  /** The channel's ring is there, with the capacity the index says. */
  predicate RegisteredAt(t: map<Bytes, C.Entry>, rings: map<nat, RingMem>, n: Bytes) {
    n in t ==> t[n].ring in rings && |rings[t[n].ring].slots| == t[n].capacity
  }

  /** The ring at `off` is some channel's. */
  ghost predicate Owned(t: map<Bytes, C.Entry>, off: nat) { exists n :: n in t && t[n].ring == off }

  /** Every channel has a ring, no two the same one, and every ring is a channel's. */
  ghost predicate Registered(t: map<Bytes, C.Entry>, rings: map<nat, RingMem>) {
    && (forall n :: RegisteredAt(t, rings, n))
    && (forall m, n | m in t && n in t && t[m].ring == t[n].ring :: m == n)
    && (forall off | off in rings :: Owned(t, off))
  }

  ghost predicate Indexed(cf: Config, r: Region) { C.Sound(r.chans, cf.hash) && Registered(Channels(r), r.rings) }

  ghost predicate Grouped(cf: Config, r: Region, w: G.World) {
    G.TableOk(r.groups, w, GroupConfig(cf)) && w.arrays == r.arrays
  }

  ghost predicate Whole(cf: Config, r: Region, w: G.World) { Ok(cf, r) && Indexed(cf, r) && Grouped(cf, r, w) }

  // ---- Lookups ----

  lemma RingHasSlots(r: Region, off: nat)
    requires Sees(r) && off in r.rings
    ensures 2 <= |r.rings[off].slots|
  {
    assert RingOk(r, off);
  }

  lemma RingNotZero(cf: Config, r: Region)
    requires Ok(cf, r)
    ensures 0 !in r.rings && 0 !in r.arrays
  {
    NeverZero(cf, r);
    assert ViewOk(r, 0);
  }

  /** `get_ring` answers from the map, and its ring is always there: no send or
      receive ever finds a name whose ring is gone. */
  lemma LiveIsRegistered(cf: Config, r: Region, name: Bytes)
    requires Ok(cf, r) && Indexed(cf, r)
    ensures LiveRing(cf, r, name) == RingOf(cf, r, name)
            == if name in Channels(r) then Some(Channels(r)[name].ring) else None
    ensures name in Channels(r) ==>
              var e := Channels(r)[name];
              e.ring in r.rings && 2 <= e.capacity == |r.rings[e.ring].slots| && e.ring in Queues(r)
  {
    C.FindMeans(r.chans, cf.hash, name);
    assert RegisteredAt(Channels(r), r.rings, name);
    RingNotZero(cf, r);
    if name in Channels(r) {
      RingHasSlots(r, Channels(r)[name].ring);
    }
  }

  // ---- Frames ----

  ghost predicate SameSizes(rings: map<nat, RingMem>, rings': map<nat, RingMem>) {
    rings'.Keys == rings.Keys && forall k | k in rings :: |rings'[k].slots| == |rings[k].slots|
  }

  /** Rings of the same sizes under the same channels. */
  lemma RegisteredKept(t: map<Bytes, C.Entry>, rings: map<nat, RingMem>, rings': map<nat, RingMem>)
    requires Registered(t, rings) && SameSizes(rings, rings')
    ensures Registered(t, rings')
  {
    forall n ensures RegisteredAt(t, rings', n) {
      assert RegisteredAt(t, rings, n);
    }
  }

  lemma StepSizes(r: Region, r': Region, off: nat, page: nat)
    requires RingStep(r, r', off, page)
    ensures SameSizes(r.rings, r'.rings)
  {
    forall k | k in r.rings ensures |r'.rings[k].slots| == |r.rings[k].slots| {
      assert k != off ==> SameQueue(r, r', k);
    }
  }

  /** Where a ring's queue is unchanged, so is its place in the view. */
  lemma SameInView(r: Region, r': Region, k: nat)
    requires SameQueue(r, r', k)
    ensures k in Queues(r') && k in Queues(r) && Queues(r')[k] == Queues(r)[k]
  {
  }

  lemma StepQueues(r: Region, r': Region, off: nat)
    requires off in r.rings && r'.rings.Keys == r.rings.Keys && 0 < |r.rings[off].slots| && 0 < |r'.rings[off].slots|
    requires forall k | k in r.rings && k != off :: SameQueue(r, r', k)
    ensures off in Queues(r') && Queues(r') == Queues(r)[off := QueueOf(r', off)]
  {
    var q, q' := Queues(r)[off := QueueOf(r', off)], Queues(r');
    forall k ensures (k in q' <==> k in q) && (k in q ==> q'[k] == q[k]) {
      if k in r.rings && k != off {
        SameInView(r, r', k);
      }
    }
  }

  /** One ring changed. */
  lemma RingStepView(cf: Config, r: Region, r': Region, off: nat, page: nat)
    requires Indexed(cf, r) && RingStep(r, r', off, page)
    ensures Indexed(cf, r') && Channels(r') == Channels(r)
    ensures off in Queues(r') && Queues(r') == Queues(r)[off := QueueOf(r', off)]
  {
    StepSizes(r, r', off, page);
    StepQueues(r, r', off);
    RegisteredKept(Channels(r), r.rings, r'.rings);
  }

  /** A page in use by a waiting message is recorded as a block in use. */
  lemma QueuedPagesInUse(r: Region, k: nat, page: nat)
    requires Sees(r) && k in Queues(r) && page in Q.PagesOf(Queues(r)[k].q)
    ensures page in r.use
  {
    assert RingOk(r, k);
    var g := r.rings[k];
    Q.LivePagesAreQueued(g.slots, r.pages, g.deq, g.enq, HolderOf(r, k).Keys, HolderOf(r, k));
  }

  lemma PageIsNew(cf: Config, r: Region, w: G.World, off: nat, m: Q.Sent)
    requires Ok(cf, r) && off in r.rings && 0 < |r.rings[off].slots|
    ensures NewPage(ViewOf(r, w), PageGiven(cf, r, off, m))
  {
    var g := r.rings[off];
    var page := PageGiven(cf, r, off, m);
    AllocAnswers(cf, r, |m.body|, PageOf(off, SlotOf(g.enq, |g.slots|)));
    forall k | k in Queues(r) && page != 0 ensures page !in Q.PagesOf(Queues(r)[k].q) {
      if page in Q.PagesOf(Queues(r)[k].q) {
        QueuedPagesInUse(r, k, page);
      }
    }
  }

  // ---- Sending and receiving ----

  /** The page is missing exactly when the slab has none for the message. */
  lemma PageMissing(cf: Config, r: Region, name: Bytes, m: Q.Sent)
    requires Ok(cf, r) && Indexed(cf, r) && name in Channels(r) && Channels(r)[name].ring in Queues(r)
    requires |m.body| > cf.inlineSize
    ensures var e := Channels(r)[name];
            !Q.Full(Queues(r)[e.ring], e.capacity) ==>
              (PageGiven(cf, r, e.ring, m) == 0 <==> NoRoomFor(cf, r, |m.body|))
  {
    LiveIsRegistered(cf, r, name);
    var off := Channels(r)[name].ring;
    var g := r.rings[off];
    AllocAnswers(cf, r, |m.body|, PageOf(off, SlotOf(g.enq, |g.slots|)));
    assert RingOk(r, off);
    Q.FrontierSlot(g.slots, g.deq, g.enq);
    Q.OldestAtFrontier(g.slots, r.pages, g.deq, g.enq);
  }

  /** A send on a channel, with the page that the slab gives it. */
  lemma SendMeans(cf: Config, r: Region, w: G.World, name: Bytes, m: Q.Sent, junk: Junk) returns (page: nat)
    requires Ok(cf, r) && Indexed(cf, r) && name in Channels(r)
    ensures var (r', res) := Send(cf, r, name, m, junk);
            && Indexed(cf, r') && r'.groups == r.groups && r'.arrays == r.arrays
            && SendsWith(cf, ViewOf(r, w), name, m, page, ViewOf(r', w), res)
    ensures var e := Channels(r)[name];
            e.ring in Queues(r) && |m.body| > cf.inlineSize && !Q.Full(Queues(r)[e.ring], e.capacity) ==>
              (page == 0 <==> NoRoomFor(cf, r, |m.body|))
  {
    if |m.body| > cf.inlineSize && Channels(r)[name].ring in Queues(r) {
      PageMissing(cf, r, name, m);
    }
    LiveIsRegistered(cf, r, name);
    var off := Channels(r)[name].ring;
    page := PageGiven(cf, r, off, m);
    EnqueueRefines(cf, r, off, m, junk);
    RingStepView(cf, r, Enqueue(cf, r, off, m, junk).0, off, page);
    PageIsNew(cf, r, w, off, m);
  }

  lemma SendRefines(cf: Config, r: Region, w: G.World, name: Bytes, m: Q.Sent, junk: Junk)
    requires Ok(cf, r) && Indexed(cf, r)
    ensures var (r', res) := Send(cf, r, name, m, junk);
            && Indexed(cf, r') && r'.groups == r.groups && r'.arrays == r.arrays
            && Does(cf, ViewOf(r, w), OpSend(name, m), ViewOf(r', w), res)
  {
    LiveIsRegistered(cf, r, name);
    if name in Channels(r) {
      var page := SendMeans(cf, r, w, name, m, junk);
    }
  }

  lemma ReceiveRefines(cf: Config, r: Region, w: G.World, name: Bytes, now: int)
    requires Ok(cf, r) && Indexed(cf, r)
    ensures var (r', res) := Receive(cf, r, name, now);
            && Indexed(cf, r') && r'.groups == r.groups && r'.arrays == r.arrays
            && Does(cf, ViewOf(r, w), OpReceive(name, now), ViewOf(r', w), res)
  {
    LiveIsRegistered(cf, r, name);
    if name in Channels(r) {
      var off := Channels(r)[name].ring;
      DequeueRefines(cf, r, off, now);
      RingStepView(cf, r, Dequeue(cf, r, off, now).0, off, 0);
    }
  }

  /** The two regions' rings stand for the same queues. */
  lemma MarksView(r: Region, r': Region)
    requires MarksOnly(r, r')
    requires forall k | k in r.rings :: 2 <= |r.rings[k].slots| == |r'.rings[k].slots| && QueueOf(r', k) == QueueOf(r, k)
    ensures SameSizes(r.rings, r'.rings) && Queues(r') == Queues(r)
  {
    var q, q' := Queues(r), Queues(r');
    forall k ensures (k in q' <==> k in q) && (k in q ==> q'[k] == q[k]) {
      if k in r.rings {
        assert QueueOf(r', k) == QueueOf(r, k);
      }
    }
  }

  lemma CompactRefines(cf: Config, r: Region)
    requires Ok(cf, r) && Indexed(cf, r)
    ensures var r' := CompactAll(cf, r, 0);
            && Indexed(cf, r') && r'.groups == r.groups && r'.arrays == r.arrays
            && Channels(r') == Channels(r) && Queues(r') == Queues(r)
  {
    var r' := CompactAll(cf, r, 0);
    CompactInvisible(cf, r);
    MarksView(r, r');
    RegisteredKept(Channels(r), r.rings, r'.rings);
  }

  // ---- Opening a ring ----

  /** A fresh ring registered under a fresh name. */
  lemma RegisteredMore(t: map<Bytes, C.Entry>, rings: map<nat, RingMem>, name: Bytes, e: C.Entry, g: RingMem)
    requires Registered(t, rings) && name !in t && e.ring !in rings && |g.slots| == e.capacity
    ensures Registered(t[name := e], rings[e.ring := g])
  {
    var t', rings' := t[name := e], rings[e.ring := g];
    forall n ensures RegisteredAt(t', rings', n) {
      assert RegisteredAt(t, rings, n);
    }
    forall m, n | m in t' && n in t' && t'[m].ring == t'[n].ring ensures m == n {
      assert RegisteredAt(t, rings, m) && RegisteredAt(t, rings, n);
    }
    forall off | off in rings' ensures Owned(t', off) {
      if off == e.ring {
        assert name in t';
      } else {
        assert Owned(t, off);
        var n :| n in t && t[n].ring == off;
        assert n in t' && t'[n].ring == off;
      }
    }
  }

  lemma FreshQueue(junk: Junk, capacity: nat, pages: map<nat, Bytes>)
    requires 2 <= capacity
    ensures QueueIn(FreshRing(junk, capacity), pages) == Q.Queue(0, 0, [])
  {
  }

  /** A new channel with an empty ring in block `off`, which was no ring's; or nothing. */
  ghost predicate NewChannel(cf: Config, r: Region, off: nat, e: C.Entry, name: Bytes, r': Region, x: Option<nat>) {
    && Indexed(cf, r') && r'.groups == r.groups && r'.arrays == r.arrays
    && (x.None? ==> Channels(r') == Channels(r) && Queues(r') == Queues(r))
    && (x.Some? ==> && x.value == off == e.ring && off != 0 && off !in Queues(r)
                    && Channels(r') == Channels(r)[name := e] && Queues(r') == Queues(r)[off := Q.Queue(0, 0, [])])
  }

  /** What opening comes to when the ring has to be made: 48 bytes of header and 704 a
      slot, in a block that nobody had. It is refused exactly when the slab has no
      room for that or every index slot holds an entry. */
  ghost predicate Made(cf: Config, r: Region, e: C.Entry, name: Bytes, r': Region, x: Option<nat>) {
    && NewChannel(cf, r, e.ring, e, name, r', x)
    && (x.None? <==> NoRoomFor(cf, r, 48 + 704 * e.capacity) || C.AllCommitted(r.chans))
  }

  /** The index was full: the block goes back, and all is as before. */
  lemma NotRegistered(cf: Config, r: Region, r2: Region, off: nat, chans: seq<C.Slot>, capacity: nat, g: RingMem)
    requires off !in r.rings && off !in r.arrays && off !in r.pages
    requires r2.groups == r.groups && r2.arrays == r.arrays && r2.pages == r.pages && r2.rings == r.rings[off := g]
    requires off != 0 && S.ClassFor(RingSize(capacity)) < S.NUM_CLASSES && S.BumpWord(cf.pool) < |r2.mem|
    ensures var r' := Free(cf, r2.(chans := chans), off, RingSize(capacity));
            && r'.chans == chans && r'.rings == r.rings && r'.pages == r.pages
            && r'.groups == r.groups && r'.arrays == r.arrays
  {
  }

  lemma NewQueue(r: Region, r': Region, off: nat, capacity: nat, junk: Junk)
    requires 2 <= capacity && off !in r.rings && r'.pages == r.pages
    requires r'.rings == r.rings[off := FreshRing(junk, capacity)]
    ensures off !in Queues(r) && Queues(r') == Queues(r)[off := Q.Queue(0, 0, [])]
  {
    FreshQueue(junk, capacity, r.pages);
  }

  lemma RegisterMeans(cf: Config, r: Region, r2: Region, off: nat, name: Bytes, capacity: nat, nonLocal: bool, junk: Junk)
    requires Indexed(cf, r) && name !in Channels(r) && 0 < |name| <= NAME_WIDTH && 2 <= capacity
    requires off != 0 && off !in r.rings && off !in r.arrays && off !in r.pages
    requires S.ClassFor(RingSize(capacity)) < S.NUM_CLASSES && S.BumpWord(cf.pool) < |r2.mem|
    requires r2.chans == r.chans && r2.groups == r.groups && r2.arrays == r.arrays && r2.pages == r.pages
    requires r2.rings == r.rings[off := FreshRing(junk, capacity)]
    ensures var (r', x) := Register(cf, r2, off, name, capacity, nonLocal);
            NewChannel(cf, r, off, C.Entry(off, capacity, nonLocal), name, r', x) && (x.None? <==> C.AllCommitted(r.chans))
  {
    var e := C.Entry(off, capacity, nonLocal);
    var (chans, i) := C.CreatedIn(cf.hash, r.chans, name, e);
    C.CreatedMeans(cf.hash, r.chans, name, e);
    if i.None? {
      NotRegistered(cf, r, r2, off, chans, capacity, FreshRing(junk, capacity));
    } else {
      NewQueue(r, r2.(chans := chans), off, capacity, junk);
      RegisteredMore(Channels(r), r.rings, name, e, FreshRing(junk, capacity));
    }
  }

  /** `get_or_create_ring` on the map. An existing ring is returned, whatever its
      capacity; otherwise a new ring is made, empty, of the asked capacity, in a block
      nobody had, and registered under the name; it fails, changing nothing, exactly
      when the slab has no block or every index slot holds an entry. */
  lemma OpenRingMeans(cf: Config, r: Region, name: Bytes, capacity: nat, nonLocal: bool, junk: Junk)
    requires Ok(cf, r) && Indexed(cf, r) && 0 < |name| <= NAME_WIDTH
    ensures var (r', x) := OpenRing(cf, r, name, capacity, nonLocal, junk);
            var off := Alloc(cf, r, RingSize(capacity), RingBlock).1;
            if capacity < 2 then r' == r && x == None
            else if name in Channels(r) then r' == r && x == Some(Channels(r)[name].ring)
            else Made(cf, r, C.Entry(off, capacity, nonLocal), name, r', x)
  {
    LiveIsRegistered(cf, r, name);
    if capacity >= 2 && name !in Channels(r) {
      NewRingMeans(cf, r, name, capacity, nonLocal, junk);
    }
  }

  lemma NewRingMeans(cf: Config, r: Region, name: Bytes, capacity: nat, nonLocal: bool, junk: Junk)
    requires Ok(cf, r) && Indexed(cf, r) && 0 < |name| <= NAME_WIDTH
    requires capacity >= 2 && name !in Channels(r) && RingOf(cf, r, name).None?
    ensures var (r', x) := OpenRing(cf, r, name, capacity, nonLocal, junk);
            Made(cf, r, C.Entry(Alloc(cf, r, RingSize(capacity), RingBlock).1, capacity, nonLocal), name, r', x)
  {
    var (r1, off) := Alloc(cf, r, RingSize(capacity), RingBlock);
    AllocAnswers(cf, r, RingSize(capacity), RingBlock);
    if off != 0 {
      NewBlock(cf, r, r1, off, capacity);
      RegisterMeans(cf, r, WithRing(r1, off, FreshRing(junk, capacity)), off, name, capacity, nonLocal, junk);
    }
  }

  /** The block of a new ring was nothing before. */
  lemma NewBlock(cf: Config, r: Region, r1: Region, off: nat, capacity: nat)
    requires Ok(cf, r) && (r1, off) == Alloc(cf, r, RingSize(capacity), RingBlock) && off != 0
    ensures off !in r.rings && off !in r.arrays && off !in r.pages
    ensures S.ClassFor(RingSize(capacity)) < S.NUM_CLASSES && S.BumpWord(cf.pool) < |r1.mem|
    ensures SameViews(r, r1)
  {
    AllocAnswers(cf, r, RingSize(capacity), RingBlock);
    assert ViewOk(r, off);
    S.AllocKeepsPool(r.mem, cf.pool, cf.end, r.pool, RingSize(capacity));
  }

  lemma OpenRingRefines(cf: Config, r: Region, w: G.World, name: Bytes, capacity: nat, nonLocal: bool, junk: Junk)
    requires Ok(cf, r) && Indexed(cf, r) && 0 < |name| <= NAME_WIDTH
    ensures var (r', x) := OpenRing(cf, r, name, capacity, nonLocal, junk);
            && Indexed(cf, r') && r'.groups == r.groups && r'.arrays == r.arrays
            && OpensRing(ViewOf(r, w), name, capacity, nonLocal, ViewOf(r', w), Offset(x))
  {
    OpenRingMeans(cf, r, name, capacity, nonLocal, junk);
    var (r', x) := OpenRing(cf, r, name, capacity, nonLocal, junk);
    if capacity >= 2 && name !in Channels(r) && x.Some? {
      assert Opens(ViewOf(r, w), name, C.Entry(x.value, capacity, nonLocal), ViewOf(r', w));
    }
  }

  // ---- Groups ----

  /** `GroupManager.add` on the leases, with the slab's answer. */
  lemma JoinMeans(cf: Config, r: Region, w: G.World, group: Bytes, channel: Bytes, now: nat, junk: Junk)
    returns (w': G.World)
    requires Ok(cf, r) && Grouped(cf, r, w) && G.GroupName(group) && 0 !in channel && w.clock <= now
    ensures var (r', j) := Join(cf, r, group, channel, now, junk);
            && Grouped(cf, r', w') && r'.chans == r.chans && r'.rings == r.rings && r'.pages == r.pages
            && G.JoinedOk(r.groups, w, GroupConfig(cf), group, channel, now, ArrayFor(cf, r, group).1, w', j)
            && (j.NoSlot? <==> group !in w.groups && (G.NoRoomForGroup(r.groups) || NoRoomFor(cf, r, 144 * cf.maxMembers)))
  {
    G.AsksMeans(r.groups, w, GroupConfig(cf), group);
    var (r1, off) := ArrayFor(cf, r, group);
    ArrayAnswered(cf, r, group);
    RingNotZero(cf, r);
    assert ViewOk(r, off);
    w' := G.JoinedMeans(r.groups, w, GroupConfig(cf), group, channel, now, off, RawMembers(junk, cf.maxMembers));
  }

  lemma LeaveMeans(cf: Config, r: Region, w: G.World, group: Bytes, channel: Bytes) returns (w': G.World)
    requires Grouped(cf, r, w) && group != []
    ensures var r' := Leave(cf, r, group, channel);
            && Grouped(cf, r', w') && r'.chans == r.chans && r'.rings == r.rings && r'.pages == r.pages
            && G.LeftOk(w, GroupConfig(cf), group, channel, w')
  {
    w' := G.LeftMeans(r.groups, w, GroupConfig(cf), group, channel);
  }

  lemma SameRings(cf: Config, r: Region, r': Region)
    requires Indexed(cf, r) && r'.chans == r.chans && r'.rings == r.rings && r'.pages == r.pages
    ensures Indexed(cf, r') && Channels(r') == Channels(r) && Queues(r') == Queues(r)
  {
  }

  // ---- Every operation ----

  /** Names as the validators let them through, and no time before `t`. */
  predicate Proper(op: Op, t: nat) {
    match op
    case OpOpenRing(name, _, _) => 0 < |name| <= NAME_WIDTH
    case OpJoin(group, channel, at) => G.GroupName(group) && 0 !in channel && t <= at
    case OpLeave(group, _) => group != []
    case OpList(group, at) => group != [] && t <= at
    case _ => true
  }

  /** The time after an operation. */
  function TimeAfter(op: Op, t: nat): nat {
    if (op.OpJoin? || op.OpList?) && t <= op.at then op.at else t
  }

  /** Only blocks on loan and the slab's memory differ. */
  predicate SlabOnly(r: Region, r': Region) {
    r'.chans == r.chans && r'.groups == r.groups && r'.rings == r.rings && r'.pages == r.pages && r'.arrays == r.arrays
  }

  lemma LoanLeavesRings(cf: Config, r: Region, size: nat)
    requires Fits(cf, r)
    ensures SlabOnly(r, Alloc(cf, r, size, Loaned).0)
  {
    AllocAnswers(cf, r, size, Loaned);
  }

  lemma GiveBackLeavesRings(cf: Config, r: Region, b: nat, size: nat)
    requires ViewOk(r, b) && MayGiveBack(r, b, size)
    ensures SlabOnly(r, Free(cf, r, b, size))
  {
  }

  /** An operation that leaves the groups alone. */
  lemma ChannelOpRefines(cf: Config, r: Region, w: G.World, op: Op, junk: Junk)
    requires Ok(cf, r) && Indexed(cf, r) && Legal(r, op) && Proper(op, w.clock)
    requires !op.OpJoin? && !op.OpLeave? && !op.OpList?
    ensures var (r', res) := Step(cf, r, op, junk);
            && Indexed(cf, r') && r'.groups == r.groups && r'.arrays == r.arrays
            && Does(cf, ViewOf(r, w), op, ViewOf(r', w), res)
  {
    match op
    case OpLookup(name) => LiveIsRegistered(cf, r, name);
    case OpOpenRing(name, capacity, nonLocal) => OpenRingRefines(cf, r, w, name, capacity, nonLocal, junk);
    case OpSend(name, m) => SendRefines(cf, r, w, name, m, junk);
    case OpReceive(name, now) => ReceiveRefines(cf, r, w, name, now);
    case OpCompact => CompactRefines(cf, r);
    case OpAlloc(size) =>
      LoanLeavesRings(cf, r, size);
      SameRings(cf, r, Step(cf, r, op, junk).0);
    case OpFree(b, size) =>
      assert ViewOk(r, b);
      GiveBackLeavesRings(cf, r, b, size);
      SameRings(cf, r, Step(cf, r, op, junk).0);
  }

  lemma JoinRefines(cf: Config, r: Region, w: G.World, group: Bytes, channel: Bytes, at: nat, junk: Junk)
    returns (w': G.World)
    requires Whole(cf, r, w) && Proper(OpJoin(group, channel, at), w.clock)
    ensures var (r', j) := Join(cf, r, group, channel, at, junk);
            && Indexed(cf, r') && Grouped(cf, r', w') && w'.clock <= at
            && Joins(cf, ViewOf(r, w), group, channel, at, ViewOf(r', w'), j)
  {
    w' := JoinMeans(cf, r, w, group, channel, at, junk);
    SameRings(cf, r, Join(cf, r, group, channel, at, junk).0);
  }

  lemma LeftInView(cf: Config, r: Region, w: G.World, group: Bytes, channel: Bytes, r': Region, w': G.World)
    requires (group in w.books <==> group in w.groups) && G.LeftOk(w, GroupConfig(cf), group, channel, w')
    requires Channels(r') == Channels(r) && Queues(r') == Queues(r)
    ensures Leaves(cf, ViewOf(r, w), group, channel, ViewOf(r', w'))
  {
    if group in w.groups && w'.groups == w.groups - {group} {
      assert group !in w'.groups && group in w.groups[group := w.groups[group] - {Clip(channel)}];
    }
  }

  lemma LeaveRefines(cf: Config, r: Region, w: G.World, group: Bytes, channel: Bytes) returns (w': G.World)
    requires Whole(cf, r, w) && group != []
    ensures var r' := Leave(cf, r, group, channel);
            && Indexed(cf, r') && Grouped(cf, r', w') && w'.clock == w.clock
            && Leaves(cf, ViewOf(r, w), group, channel, ViewOf(r', w'))
  {
    w' := LeaveMeans(cf, r, w, group, channel);
    var r' := Leave(cf, r, group, channel);
    SameRings(cf, r, r');
    assert G.GroupOk(r.groups, w, group);
    LeftInView(cf, r, w, group, channel, r', w');
  }

  lemma StepMeans(cf: Config, r: Region, w: G.World, op: Op, junk: Junk) returns (w': G.World)
    requires Whole(cf, r, w) && Legal(r, op) && Proper(op, w.clock)
    ensures var (r', res) := Step(cf, r, op, junk);
            Indexed(cf, r') && Grouped(cf, r', w') && Does(cf, ViewOf(r, w), op, ViewOf(r', w'), res)
    ensures w'.clock <= TimeAfter(op, w.clock)
  {
    w' := w;
    match op
    case OpJoin(group, channel, at) => w' := JoinRefines(cf, r, w, group, channel, at, junk);
    case OpLeave(group, channel) => w' := LeaveRefines(cf, r, w, group, channel);
    case OpList(group, at) => G.ListedMeans(r.groups, w, GroupConfig(cf), group, at);
    case _ => ChannelOpRefines(cf, r, w, op, junk);
  }

  /** Every operation does to the engine what it should. */
  lemma StepRefines(cf: Config, r: Region, w: G.World, op: Op, junk: Junk, r': Region, res: Result) returns (w': G.World)
    requires Whole(cf, r, w) && Legal(r, op) && Proper(op, w.clock) && (r', res) == Step(cf, r, op, junk)
    ensures Whole(cf, r', w') && Does(cf, ViewOf(r, w), op, ViewOf(r', w'), res)
    ensures w'.clock <= TimeAfter(op, w.clock)
  {
    StepOk(cf, r, op, junk);
    w' := StepMeans(cf, r, w, op, junk);
  }

  // ---- Every run ----

  /** Proper names, and times that never go back. */
  predicate Orderly(ops: seq<Op>, t: nat)
    decreases |ops|
  {
    ops == [] || (Proper(ops[0], t) && Orderly(ops[1..], TimeAfter(ops[0], t)))
  }

  /** The i-th operation takes the engine from one view to the next, with that answer. */
  ghost predicate DoesAt(cf: Config, views: seq<View>, ops: seq<Op>, results: seq<Result>, i: nat)
    requires i < |ops| == |results| && |views| == |ops| + 1
  {
    Does(cf, views[i], ops[i], views[i + 1], results[i])
  }

  /** `views` is a run of the engine over these operations with these answers. */
  ghost predicate EngineRun(cf: Config, views: seq<View>, ops: seq<Op>, results: seq<Result>) {
    |results| == |ops| && |views| == |ops| + 1 && forall i: nat | i < |ops| :: DoesAt(cf, views, ops, results, i)
  }

  /** A run of one operation. */
  lemma FirstRefines(cf: Config, r: Region, w: G.World, t: nat, op: Op, junk: Junk, r1: Region, res: Result)
    returns (w1: G.World)
    requires Whole(cf, r, w) && w.clock <= t && Legal(r, op) && Proper(op, t) && (r1, res) == Step(cf, r, op, junk)
    ensures Whole(cf, r1, w1) && w1.clock <= TimeAfter(op, t)
    ensures EngineRun(cf, [ViewOf(r, w), ViewOf(r1, w1)], [op], [res])
  {
    ProperLater(op, w.clock, t);
    w1 := StepRefines(cf, r, w, op, junk, r1, res);
    OneRun(cf, ViewOf(r, w), op, ViewOf(r1, w1), res);
  }

  lemma OneRun(cf: Config, v: View, op: Op, v1: View, res: Result)
    requires Does(cf, v, op, v1, res)
    ensures EngineRun(cf, [v, v1], [op], [res])
  {
    assert DoesAt(cf, [v, v1], [op], [res], 0);
  }

  /** A run from region r: legal, orderly, to region r', with these answers. */
  ghost predicate Runs(cf: Config, r: Region, t: nat, ops: seq<Op>, junk: seq<Junk>, r': Region, results: seq<Result>) {
    && |junk| == |ops| && AllLegal(cf, r, ops, junk) && Orderly(ops, t)
    && r' == After(cf, r, ops, junk) && results == Results(cf, r, ops, junk)
  }

  /** A run is its first step and the run of the rest. */
  lemma FirstOfRun(cf: Config, r: Region, t: nat, ops: seq<Op>, junk: seq<Junk>, r': Region, results: seq<Result>)
    returns (r1: Region, res: Result, more: seq<Result>)
    requires Runs(cf, r, t, ops, junk, r', results) && ops != []
    ensures Legal(r, ops[0]) && Proper(ops[0], t) && (r1, res) == Step(cf, r, ops[0], junk[0])
    ensures Runs(cf, r1, TimeAfter(ops[0], t), ops[1..], junk[1..], r', more) && results == [res] + more
  {
    var next := Step(cf, r, ops[0], junk[0]);
    r1, res := next.0, next.1;
    more := Results(cf, r1, ops[1..], junk[1..]);
  }

  lemma StartRun(cf: Config, r: Region, w: G.World, t: nat, ops: seq<Op>, junk: seq<Junk>, r': Region, results: seq<Result>)
    returns (r1: Region, res: Result, w1: G.World, more: seq<Result>)
    requires Whole(cf, r, w) && w.clock <= t && Runs(cf, r, t, ops, junk, r', results) && ops != []
    ensures Whole(cf, r1, w1) && w1.clock <= TimeAfter(ops[0], t)
    ensures Runs(cf, r1, TimeAfter(ops[0], t), ops[1..], junk[1..], r', more)
    ensures results == [res] + more && EngineRun(cf, [ViewOf(r, w), ViewOf(r1, w1)], [ops[0]], [res])
  {
    r1, res, more := FirstOfRun(cf, r, t, ops, junk, r', results);
    w1 := FirstRefines(cf, r, w, t, ops[0], junk[0], r1, res);
  }

  lemma {:induction false} RunRefines(cf: Config, r: Region, w: G.World, t: nat, ops: seq<Op>, junk: seq<Junk>, r': Region,
                                      results: seq<Result>)
    returns (views: seq<View>, w': G.World)
    requires Whole(cf, r, w) && w.clock <= t && Runs(cf, r, t, ops, junk, r', results)
    ensures EngineRun(cf, views, ops, results) && views[0] == ViewOf(r, w)
    ensures Whole(cf, r', w') && views[|ops|] == ViewOf(r', w')
    decreases |ops|
  {
    if ops == [] {
      views, w' := [ViewOf(r, w)], w;
    } else {
      var r1, res, w1, more := StartRun(cf, r, w, t, ops, junk, r', results);
      var rest;
      rest, w' := RunRefines(cf, r1, w1, TimeAfter(ops[0], t), ops[1..], junk[1..], r', more);
      views := [ViewOf(r, w)] + rest;
      RunGrows(cf, ViewOf(r, w), ops, res, more, rest);
    }
  }

  lemma ProperLater(op: Op, t: nat, u: nat)
    requires t <= u && Proper(op, u)
    ensures Proper(op, t) && TimeAfter(op, t) <= TimeAfter(op, u)
  {
  }

  lemma RunGrows(cf: Config, v: View, ops: seq<Op>, res: Result, results: seq<Result>, rest: seq<View>)
    requires ops != [] && EngineRun(cf, rest, ops[1..], results) && EngineRun(cf, [v, rest[0]], [ops[0]], [res])
    ensures EngineRun(cf, [v] + rest, ops, [res] + results) && ([v] + rest)[|ops|] == rest[|ops[1..]|]
  {
    var views, all := [v] + rest, [res] + results;
    forall i: nat | i < |ops| ensures DoesAt(cf, views, ops, all, i) {
      if i > 0 {
        assert DoesAt(cf, rest, ops[1..], results, i - 1);
      } else {
        assert DoesAt(cf, [v, rest[0]], [ops[0]], [res], 0);
      }
    }
  }

  lemma BlankIsEmpty(cf: Config, raw: Region) returns (w: G.World)
    requires S.Shape(raw.mem, cf.pool, cf.end)
    ensures Whole(cf, Blank(cf, raw), w) && ViewOf(Blank(cf, raw), w) == View(map[], map[], map[], map[], 0)
  {
    var r := Blank(cf, raw);
    w := G.World(map[], map[], map[], map[], 0);
    BlankOk(cf, raw);
    C.EmptyTable(r.chans);
    G.EmptyTable(r.groups, GroupConfig(cf), 0);
  }

  /** Over any garbage: after an initialisation or a flush, every sequence of legal
      operations gives answers that the engine gives from its empty state, and the
      region stands for what the engine has become. */
  lemma RegionsRefineEngine(cf: Config, raw: Region, ops: seq<Op>, junk: seq<Junk>) returns (views: seq<View>, w: G.World)
    requires S.Shape(raw.mem, cf.pool, cf.end) && |junk| == |ops|
    requires AllLegal(cf, Blank(cf, raw), ops, junk) && Orderly(ops, 0)
    ensures EngineRun(cf, views, ops, Results(cf, Blank(cf, raw), ops, junk)) && views[0] == View(map[], map[], map[], map[], 0)
    ensures var r := After(cf, Blank(cf, raw), ops, junk); Whole(cf, r, w) && views[|ops|] == ViewOf(r, w)
  {
    var w0 := BlankIsEmpty(cf, raw);
    var r := Blank(cf, raw);
    views, w := RunRefines(cf, r, w0, 0, ops, junk, After(cf, r, ops, junk), Results(cf, r, ops, junk));
  }
}
