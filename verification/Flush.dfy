/** A flushed region behaves like a freshly initialised one. Flush leaves garbage
    behind: channel and group names and hashes stay in their slots, and the blocks
    of old rings, member arrays and pages are handed out again with their old bytes
    in them. None of it is ever read before it is overwritten: every sequence of
    operations gives the same results. */
module Flush {
  import opened Prelude
  import C = ChannelIndex
  import G = Groups
  import opened Members
  import Q = RingQueue
  import S = Slab
  import opened Operations
  import opened Regions

  // ---- Two regions no operation can tell apart ----

  predicate SimChan(a: C.Slot, b: C.Slot) {
    && a.version == b.version && a.nameLen == b.nameLen && a.ring == b.ring && a.capacity == b.capacity
    && a.nonLocal == b.nonLocal
    && (a.nameLen != 0 ==> a.hash == b.hash && C.NameOf(a) == C.NameOf(b))
  }

  predicate SimGroup(a: G.Slot, b: G.Slot) {
    && a.version == b.version && a.nameLen == b.nameLen && a.members == b.members && a.count == b.count
    && a.active == b.active
    && (a.nameLen != 0 ==> a.hash == b.hash && G.NameOf(a) == G.NameOf(b))
  }

  /** Between operations nobody owns a slot. Payload bytes count only up to their
      length, inline bytes only while the slot is published. */
  predicate SimSlot(a: Q.Slot, b: Q.Slot, i: nat, cap: nat)
    requires 0 < cap
  {
    && a.seq_ == b.seq_ && a.owner == b.owner == 0 && a.ownerTicket == b.ownerTicket && a.mark == b.mark
    && a.expiry == b.expiry && a.channelLen == b.channelLen && a.msgLen == b.msgLen && a.overflow == b.overflow
    && ReadBytes(a.channel, a.channelLen) == ReadBytes(b.channel, b.channelLen)
    && (a.overflow == 0 && SlotOf(a.seq_, cap) != i ==> ReadBytes(a.inline, a.msgLen) == ReadBytes(b.inline, b.msgLen))
  }

  predicate SimMember(a: Member, b: Member) {
    a.active == b.active && a.join == b.join && (a.active ==> a.name == b.name)
  }

  /** Of a page only the bytes of its message count, as many as its slot says; what
      follows them is left over from before. */
  predicate SimPage(a: Region, b: Region, o: nat) {
    o in a.pages && o in b.pages ==> ReadBytes(a.pages[o], LengthOf(a, o)) == ReadBytes(b.pages[o], LengthOf(a, o))
  }

  ghost predicate SimChans(a: seq<C.Slot>, b: seq<C.Slot>) {
    |a| == |b| && forall i | 0 <= i < |a| :: SimChan(a[i], b[i])
  }

  ghost predicate SimGroups(a: seq<G.Slot>, b: seq<G.Slot>) {
    |a| == |b| && forall i | 0 <= i < |a| :: SimGroup(a[i], b[i])
  }

  ghost predicate SimMembers(a: seq<Member>, b: seq<Member>) {
    |a| == |b| && forall i | 0 <= i < |a| :: SimMember(a[i], b[i])
  }

  ghost predicate SimRing(a: RingMem, b: RingMem) {
    && a.enq == b.enq && a.deq == b.deq && 2 <= |a.slots| == |b.slots|
    && forall i | 0 <= i < |a.slots| :: SimSlot(a.slots[i], b.slots[i], i, |a.slots|)
  }

  ghost predicate SimRings(a: map<nat, RingMem>, b: map<nat, RingMem>) {
    a.Keys == b.Keys && forall o | o in a :: SimRing(a[o], b[o])
  }

  ghost predicate SimArrays(a: map<nat, seq<Member>>, b: map<nat, seq<Member>>) {
    a.Keys == b.Keys && forall o | o in a :: SimMembers(a[o], b[o])
  }

  ghost predicate SimPages(a: Region, b: Region) { forall o :: SimPage(a, b, o) }

  /** Of slab memory only the bump pointer needs to agree, besides what the words
      stand for: the same blocks in use and the same free lists. */
  ghost predicate SimSlab(cf: Config, a: Region, b: Region) {
    && |a.mem| == |b.mem| && S.BumpWord(cf.pool) < |a.mem| && a.mem[S.BumpWord(cf.pool)] == b.mem[S.BumpWord(cf.pool)]
    && a.pool == b.pool && a.use == b.use
  }

  /** Everything but the slab and the pages. */
  ghost predicate SimViews(a: Region, b: Region) {
    && SimChans(a.chans, b.chans) && SimGroups(a.groups, b.groups)
    && SimRings(a.rings, b.rings) && SimArrays(a.arrays, b.arrays)
  }

  ghost predicate Sim(cf: Config, a: Region, b: Region) {
    Ok(cf, a) && Ok(cf, b) && SimSlab(cf, a, b) && SimViews(a, b) && SimPages(a, b)
  }

  // ---- Flush ----

  /** Regions of one shape, whatever they hold. */
  ghost predicate SameShape(cf: Config, a: Region, b: Region) {
    && |a.chans| == |b.chans| && |a.groups| == |b.groups| && |a.mem| == |b.mem|
    && S.Shape(a.mem, cf.pool, cf.end) && S.Shape(b.mem, cf.pool, cf.end)
  }

  /** Whatever two regions of one shape held, blanking them leaves them alike. */
  lemma BlankAlike(cf: Config, a: Region, b: Region)
    requires SameShape(cf, a, b)
    ensures Sim(cf, Blank(cf, a), Blank(cf, b))
  {
    BlankOk(cf, a);
    BlankOk(cf, b);
  }

  // ---- Slab ----

  lemma TakeAlike(cf: Config, a: Region, b: Region, c: nat)
    requires Fits(cf, a) && Fits(cf, b) && SimSlab(cf, a, b) && c < S.NUM_CLASSES
    ensures var (m, x), (n, y) := S.TakeIn(a.mem, cf.pool, cf.end, c), S.TakeIn(b.mem, cf.pool, cf.end, c);
            && x == y && m[S.BumpWord(cf.pool)] == n[S.BumpWord(cf.pool)]
            && S.TakenPool(a.mem, cf.pool, cf.end, a.pool, c) == S.TakenPool(b.mem, cf.pool, cf.end, b.pool, c)
  {
    S.HeadOfList(a.mem, cf.pool, cf.end, a.pool, c);
    S.HeadOfList(b.mem, cf.pool, cf.end, b.pool, c);
  }

  lemma AllocAlike(cf: Config, a: Region, b: Region, size: nat, u: Use)
    requires Fits(cf, a) && Fits(cf, b) && SimSlab(cf, a, b)
    ensures Alloc(cf, a, size, u).1 == Alloc(cf, b, size, u).1
    ensures SimSlab(cf, Alloc(cf, a, size, u).0, Alloc(cf, b, size, u).0)
  {
    AllocSlab(cf, a, size, u);
    AllocSlab(cf, b, size, u);
    if S.ClassFor(size) < S.NUM_CLASSES {
      TakeAlike(cf, a, b, S.ClassFor(size));
    }
  }

  lemma AllocSlab(cf: Config, r: Region, size: nat, u: Use)
    requires S.BumpWord(cf.pool) < |r.mem|
    ensures var (r', x), (m, y) := Alloc(cf, r, size, u), S.AllocIn(r.mem, cf.pool, cf.end, size);
            && x == y && r'.mem == m && r'.pool == S.AllocPool(r.mem, cf.pool, cf.end, r.pool, size)
            && r'.use == if x == 0 then r.use else r.use[x := u]
  {
  }

  /** The block is in use and of the size's class, or the free is ignored. */
  predicate MayFree(r: Region, o: nat, size: nat) {
    o != 0 && S.ClassFor(size) < S.NUM_CLASSES ==> o in r.use && o in r.pool.blocks && r.pool.blocks[o] == S.ClassFor(size)
  }

  lemma FreeAlike(cf: Config, a: Region, b: Region, o: nat, size: nat)
    requires Fits(cf, a) && Fits(cf, b) && SimSlab(cf, a, b) && MayFree(a, o, size)
    ensures SimSlab(cf, Free(cf, a, o, size), Free(cf, b, o, size))
  {
    if o != 0 && S.ClassFor(size) < S.NUM_CLASSES {
      S.PushKeepsPool(a.mem, cf.pool, cf.end, a.pool, o);
    }
  }

  // ---- Channel index ----

  lemma {:induction false} FindChanAlike(a: seq<C.Slot>, b: seq<C.Slot>, h: nat, name: Bytes, i: nat)
    requires SimChans(a, b)
    ensures C.Find(a, h, name, i) == C.Find(b, h, name, i)
    decreases |a| - i
  {
    if i < |a| {
      assert SimChan(a[i], b[i]);
      FindChanAlike(a, b, h, name, i + 1);
    }
  }

  lemma {:induction false} RepairChansAlike(a: seq<C.Slot>, b: seq<C.Slot>, h: nat, name: Bytes, i: nat)
    requires SimChans(a, b)
    ensures C.Repaired(a, h, name, i).1 == C.Repaired(b, h, name, i).1
    ensures SimChans(C.Repaired(a, h, name, i).0, C.Repaired(b, h, name, i).0)
    decreases |a| - i
  {
    if i < |a| {
      assert SimChan(a[i], b[i]);
      if a[i].version % 2 != 0 {
        RepairChansAlike(a[i := C.Erased(a[i])], b[i := C.Erased(b[i])], h, name, i + 1);
      } else {
        RepairChansAlike(a, b, h, name, i + 1);
      }
    }
  }

  lemma {:induction false} EmptyChanAlike(a: seq<C.Slot>, b: seq<C.Slot>, i: nat)
    requires SimChans(a, b)
    ensures C.FirstEmpty(a, i) == C.FirstEmpty(b, i)
    decreases |a| - i
  {
    if i < |a| {
      assert SimChan(a[i], b[i]);
      EmptyChanAlike(a, b, i + 1);
    }
  }

  lemma CreateChanAlike(cf: Config, a: seq<C.Slot>, b: seq<C.Slot>, name: Bytes, e: C.Entry)
    requires SimChans(a, b)
    ensures C.CreatedIn(cf.hash, a, name, e).1 == C.CreatedIn(cf.hash, b, name, e).1
    ensures SimChans(C.CreatedIn(cf.hash, a, name, e).0, C.CreatedIn(cf.hash, b, name, e).0)
  {
    var h := cf.hash(name);
    RepairChansAlike(a, b, h, name, 0);
    EmptyChanAlike(C.Repaired(a, h, name, 0).0, C.Repaired(b, h, name, 0).0, 0);
  }

  lemma RingOfAlike(cf: Config, a: Region, b: Region, name: Bytes)
    requires SimChans(a.chans, b.chans)
    ensures RingOf(cf, a, name) == RingOf(cf, b, name)
  {
    FindChanAlike(a.chans, b.chans, cf.hash(name), name, 0);
    var i := C.Find(a.chans, cf.hash(name), name, 0);
    if i.Some? && i.value < |a.chans| {
      assert SimChan(a.chans[i.value], b.chans[i.value]);
    }
  }

  // ---- Rings ----

  lemma {:induction false} SlotOfSelf(i: nat, cap: nat)
    requires i < cap
    ensures SlotOf(i, cap) == i
  {
  }

  lemma FreshRingAlike(j: Junk, k: Junk, cap: nat)
    requires 2 <= cap
    ensures SimRing(FreshRing(j, cap), FreshRing(k, cap))
  {
    forall i | 0 <= i < cap ensures SimSlot(FreshSlot(j, i), FreshSlot(k, i), i, cap) {
      SlotOfSelf(i, cap);
    }
  }

  lemma FilledAlike(a: Q.Slot, b: Q.Slot, i: nat, cap: nat, m: Q.Sent, page: nat, w: nat)
    requires 0 < cap && SimSlot(a, b, i, cap)
    ensures SimSlot(Q.Filled(a, m, page).(seq_ := w, owner := 0, ownerTicket := 0),
                    Q.Filled(b, m, page).(seq_ := w, owner := 0, ownerTicket := 0), i, cap)
  {
  }

  /** A word a round ahead is EMPTY, so the old inline bytes no longer count. */
  lemma RecycledAlike(a: Q.Slot, b: Q.Slot, pos: nat, cap: nat, overflow: nat)
    requires 0 < cap && SimSlot(a, b, SlotOf(pos, cap), cap)
    ensures SimSlot(a.(seq_ := pos + cap, owner := 0, ownerTicket := 0, overflow := overflow),
                    b.(seq_ := pos + cap, owner := 0, ownerTicket := 0, overflow := overflow), SlotOf(pos, cap), cap)
  {
    assert SlotOf(pos + cap, cap) == SlotOf(pos, cap);
  }

  lemma PublishedAlike(g: RingMem, g': RingMem, m: Q.Sent, page: nat)
    requires SimRing(g, g')
    ensures SimRing(Published(g, m, page), Published(g', m, page))
  {
    var i := SlotOf(g.enq, |g.slots|);
    FilledAlike(g.slots[i], g'.slots[i], i, |g.slots|, m, page, g.enq + 1);
  }

  lemma TombstonedAlike(g: RingMem, g': RingMem)
    requires SimRing(g, g')
    ensures SimRing(Tombstoned(g), Tombstoned(g'))
  {
    var i := SlotOf(g.enq, |g.slots|);
    RecycledAlike(g.slots[i], g'.slots[i], g.enq, |g.slots|, g.slots[i].overflow);
  }

  lemma RecycledRingAlike(g: RingMem, g': RingMem)
    requires SimRing(g, g')
    ensures SimRing(Recycled(g), Recycled(g'))
  {
    var i := SlotOf(g.deq, |g.slots|);
    RecycledAlike(g.slots[i], g'.slots[i], g.deq, |g.slots|, 0);
  }

  lemma PublishedPhase(t: nat, cap: nat)
    requires 2 <= cap
    ensures SlotOf(t + 1, cap) != SlotOf(t, cap)
  {
    if SlotOf(t + 1, cap) == SlotOf(t, cap) {
      SlotGap(t, t + 1, cap);
    }
  }

  // ---- One ring of both regions changes ----

  /** Old pages still agree as far as their messages go. */
  lemma PagesAlike(a: Region, b: Region, a': Region, b': Region, page: nat)
    requires SimPages(a, b) && PagesFrom(a, a', page) && PagesFrom(b, b', page)
    requires SimPage(a', b', page)
    ensures SimPages(a', b')
  {
    forall o ensures SimPage(a', b', o) {
      assert SimPage(a, b, o);
      if o in a'.pages && o in b'.pages && o != page {
        assert PageFrom(a, a', o) && PageFrom(b, b', o);
      }
    }
  }

  lemma RingAlike(cf: Config, a: Region, b: Region, a': Region, b': Region, off: nat, page: nat)
    requires Sim(cf, a, b) && Fits(cf, a') && Fits(cf, b') && SimSlab(cf, a', b')
    requires RingStep(a, a', off, page) && RingStep(b, b', off, page)
    requires SimRing(a'.rings[off], b'.rings[off]) && SimPage(a', b', page)
    ensures Sim(cf, a', b')
  {
    PagesAlike(a, b, a', b', page);
    ViewsAlike(a, b, a', b', off, page);
  }

  lemma ViewsAlike(a: Region, b: Region, a': Region, b': Region, off: nat, page: nat)
    requires SimViews(a, b) && RingStep(a, a', off, page) && RingStep(b, b', off, page)
    requires SimRing(a'.rings[off], b'.rings[off])
    ensures SimViews(a', b')
  {
    forall k | k in a'.rings ensures SimRing(a'.rings[k], b'.rings[k]) {
      if k != off {
        assert SameQueue(a, a', k) && SameQueue(b, b', k);
        assert SimRing(a.rings[k], b.rings[k]);
      }
    }
  }

  // ---- Enqueue ----

  /** Where an enqueue ends up, by the way it takes. */
  lemma EnqueueIs(cf: Config, r: Region, off: nat, m: Q.Sent, junk: Junk)
    requires off in r.rings && 0 < |r.rings[off].slots|
    ensures var g := r.rings[off];
            var i := SlotOf(g.enq, |g.slots|);
            if g.slots[i].seq_ != g.enq then Enqueue(cf, r, off, m, junk) == (r, false) && PageGiven(cf, r, off, m) == 0
            else if |m.body| <= cf.inlineSize then
              && Enqueue(cf, r, off, m, junk) == (WithRing(r, off, Published(g, m, 0)), true)
              && PageGiven(cf, r, off, m) == 0
            else
              var (r1, page) := Alloc(cf, r, |m.body|, PageOf(off, i));
              Enqueue(cf, r, off, m, junk) == Overflow(r1, page, off, g, m, junk) && PageGiven(cf, r, off, m) == page
  {
  }

  /** The same way is taken in both regions, to the same answer and alike rings. */
  lemma EnqueueRingAlike(cf: Config, a: Region, b: Region, off: nat, m: Q.Sent, j: Junk, k: Junk)
    requires Fits(cf, a) && Fits(cf, b) && SimSlab(cf, a, b)
    requires off in a.rings && off in b.rings && SimRing(a.rings[off], b.rings[off])
    ensures var (a', ok), (b', done) := Enqueue(cf, a, off, m, j), Enqueue(cf, b, off, m, k);
            && ok == done && PageGiven(cf, a, off, m) == PageGiven(cf, b, off, m) && SimSlab(cf, a', b')
            && off in a'.rings && off in b'.rings && SimRing(a'.rings[off], b'.rings[off])
  {
    var g, g' := a.rings[off], b.rings[off];
    var i := SlotOf(g.enq, |g.slots|);
    assert SimSlot(g.slots[i], g'.slots[i], i, |g.slots|);
    EnqueueIs(cf, a, off, m, j);
    EnqueueIs(cf, b, off, m, k);
    if g.slots[i].seq_ == g.enq {
      AllocAlike(cf, a, b, |m.body|, PageOf(off, i));
      PublishedAlike(g, g', m, PageGiven(cf, a, off, m));
      TombstonedAlike(g, g');
    }
  }

  /** A page just written reads as the message, whatever it held before. */
  lemma WrittenPageAlike(cf: Config, a: Region, b: Region, off: nat, m: Q.Sent, j: Junk, k: Junk)
    requires Fits(cf, a) && Fits(cf, b) && SimSlab(cf, a, b)
    requires off in a.rings && off in b.rings && SimRing(a.rings[off], b.rings[off])
    ensures var page := PageGiven(cf, a, off, m);
            page != 0 ==> SimPage(Enqueue(cf, a, off, m, j).0, Enqueue(cf, b, off, m, k).0, page)
  {
    EnqueueRingAlike(cf, a, b, off, m, j, k);
    PageReads(cf, a, off, m, j);
    PageReads(cf, b, off, m, k);
  }

  lemma PageReads(cf: Config, r: Region, off: nat, m: Q.Sent, junk: Junk)
    requires Fits(cf, r) && off in r.rings && 2 <= |r.rings[off].slots|
    ensures var r', page := Enqueue(cf, r, off, m, junk).0, PageGiven(cf, r, off, m);
            page != 0 ==> page in r'.pages && LengthOf(r', page) == |m.body| && ReadBytes(r'.pages[page], |m.body|) == m.body
  {
    EnqueueIs(cf, r, off, m, junk);
    var page := PageGiven(cf, r, off, m);
    if page != 0 {
      AllocAnswers(cf, r, |m.body|, PageOf(off, SlotOf(r.rings[off].enq, |r.rings[off].slots|)));
    }
  }

  lemma EnqueueAlike(cf: Config, a: Region, b: Region, off: nat, m: Q.Sent, j: Junk, k: Junk)
    requires Sim(cf, a, b) && off in a.rings
    ensures off in b.rings && 2 <= |a.rings[off].slots| == |b.rings[off].slots|
    ensures Enqueue(cf, a, off, m, j).1 == Enqueue(cf, b, off, m, k).1
    ensures Sim(cf, Enqueue(cf, a, off, m, j).0, Enqueue(cf, b, off, m, k).0)
  {
    assert SimRing(a.rings[off], b.rings[off]);
    EnqueueRingAlike(cf, a, b, off, m, j, k);
    WrittenPageAlike(cf, a, b, off, m, j, k);
    EnqueueRefines(cf, a, off, m, j);
    EnqueueRefines(cf, b, off, m, k);
    NoPageZero(cf, Enqueue(cf, a, off, m, j).0, Enqueue(cf, b, off, m, k).0);
    RingAlike(cf, a, b, Enqueue(cf, a, off, m, j).0, Enqueue(cf, b, off, m, k).0, off, PageGiven(cf, a, off, m));
  }

  lemma NoPageZero(cf: Config, a: Region, b: Region)
    requires Fits(cf, a) && Sees(a)
    ensures SimPage(a, b, 0)
  {
    PagesNotZero(cf, a);
  }

  // ---- Dequeue ----

  ghost predicate SimTurn(cf: Config, x: Turn, y: Turn) {
    x.Again? == y.Again? && Sim(cf, x.r, y.r) && (x.Stop? ==> x.m == y.m)
  }

  /** No leftover byte is returned: what follows a message in its page is not read. */
  lemma BodyAlike(a: Region, b: Region, off: nat)
    requires Sees(a) && Sees(b) && SimPages(a, b) && off in a.rings && off in b.rings && SimRing(a.rings[off], b.rings[off])
    requires Waiting(a, off)
    ensures var g, g' := a.rings[off], b.rings[off];
            var i := SlotOf(g.deq, |g.slots|);
            Body(a, g.slots[i]) == Body(b, g'.slots[i])
  {
    var g, g' := a.rings[off], b.rings[off];
    var i := SlotOf(g.deq, |g.slots|);
    var o := g.slots[i].overflow;
    assert SimSlot(g.slots[i], g'.slots[i], i, |g.slots|);
    if o != 0 {
      PageOfRing(a, off, i);
      PageOfRing(b, off, i);
      assert SimPage(a, b, o);
      assert LengthOf(a, o) == g.slots[i].msgLen;
    } else {
      PublishedPhase(g.deq, |g.slots|);
    }
  }

  /** Where one turn of a dequeue ends up, by the way it takes. */
  lemma TryIs(cf: Config, r: Region, off: nat, now: int)
    requires off in r.rings && 0 < |r.rings[off].slots|
    ensures var g := r.rings[off];
            var s := g.slots[SlotOf(g.deq, |g.slots|)];
            Try(cf, r, off, now) ==
            if g.deq >= g.enq || s.seq_ < g.deq + 1 then Stop(r, None)
            else if s.seq_ > g.deq + 1 then Again(WithRing(r, off, g.(deq := g.deq + 1)))
            else if now > s.expiry then Again(WithRing(FreeHead(cf, r, off), off, Recycled(g)))
            else Stop(WithRing(FreeHead(cf, r, off), off, Recycled(g)),
                      Some((ReadBytes(s.channel, s.channelLen), Body(r, s))))
  {
  }

  lemma FreeHeadAlike(cf: Config, a: Region, b: Region, off: nat)
    requires Fits(cf, a) && Fits(cf, b) && SimSlab(cf, a, b) && Sees(a)
    requires off in a.rings && off in b.rings && SimRing(a.rings[off], b.rings[off])
    ensures SimSlab(cf, FreeHead(cf, a, off), FreeHead(cf, b, off))
  {
    var g, g' := a.rings[off], b.rings[off];
    var i := SlotOf(g.deq, |g.slots|);
    assert SimSlot(g.slots[i], g'.slots[i], i, |g.slots|);
    HeadMayBeFreed(a, off);
    FreeAlike(cf, a, b, g.slots[i].overflow, g.slots[i].msgLen);
  }

  lemma HeadMayBeFreed(r: Region, off: nat)
    requires Sees(r) && off in r.rings && 0 < |r.rings[off].slots|
    ensures var g := r.rings[off]; var s := g.slots[SlotOf(g.deq, |g.slots|)]; MayFree(r, s.overflow, s.msgLen)
  {
    var g := r.rings[off];
    var i := SlotOf(g.deq, |g.slots|);
    if g.slots[i].overflow != 0 {
      PageOfRing(r, off, i);
    }
  }

  lemma TryRingAlike(cf: Config, a: Region, b: Region, off: nat, now: int)
    requires off in a.rings && off in b.rings && SimRing(a.rings[off], b.rings[off])
    requires SimSlab(cf, a, b) && SimSlab(cf, FreeHead(cf, a, off), FreeHead(cf, b, off))
    ensures var x, y := Try(cf, a, off, now), Try(cf, b, off, now);
            && x.Again? == y.Again? && off in x.r.rings && off in y.r.rings
            && SimSlab(cf, x.r, y.r) && SimRing(x.r.rings[off], y.r.rings[off])
  {
    var g, g' := a.rings[off], b.rings[off];
    var i := SlotOf(g.deq, |g.slots|);
    assert SimSlot(g.slots[i], g'.slots[i], i, |g.slots|);
    TryIs(cf, a, off, now);
    TryIs(cf, b, off, now);
    RecycledRingAlike(g, g');
  }

  lemma TryAnswerAlike(cf: Config, a: Region, b: Region, off: nat, now: int)
    requires Sees(a) && Sees(b) && SimPages(a, b)
    requires off in a.rings && off in b.rings && SimRing(a.rings[off], b.rings[off])
    ensures var x, y := Try(cf, a, off, now), Try(cf, b, off, now); x.Stop? && y.Stop? ==> x.m == y.m
  {
    var g, g' := a.rings[off], b.rings[off];
    var i := SlotOf(g.deq, |g.slots|);
    assert SimSlot(g.slots[i], g'.slots[i], i, |g.slots|);
    TryIs(cf, a, off, now);
    TryIs(cf, b, off, now);
    if Waiting(a, off) {
      BodyAlike(a, b, off);
    }
  }

  lemma TryAlike(cf: Config, a: Region, b: Region, off: nat, now: int)
    requires Sim(cf, a, b) && off in a.rings && off in b.rings && SimRing(a.rings[off], b.rings[off])
    ensures SimTurn(cf, Try(cf, a, off, now), Try(cf, b, off, now))
  {
    var x, y := Try(cf, a, off, now), Try(cf, b, off, now);
    FreeHeadAlike(cf, a, b, off);
    TryRingAlike(cf, a, b, off, now);
    TryAnswerAlike(cf, a, b, off, now);
    TryFits(cf, a, off, now);
    TryFits(cf, b, off, now);
    TryRefines(cf, a, off, now);
    TryRefines(cf, b, off, now);
    NoPageZero(cf, x.r, y.r);
    RingAlike(cf, a, b, x.r, y.r, off, 0);
  }

  lemma {:induction false} DequeueAlike(cf: Config, a: Region, b: Region, off: nat, now: int)
    requires Sim(cf, a, b) && off in a.rings && off in b.rings && SimRing(a.rings[off], b.rings[off])
    ensures Dequeue(cf, a, off, now).1 == Dequeue(cf, b, off, now).1
    ensures Sim(cf, Dequeue(cf, a, off, now).0, Dequeue(cf, b, off, now).0)
    decreases a.rings[off].enq - a.rings[off].deq
  {
    TryAlike(cf, a, b, off, now);
    var x, y := Try(cf, a, off, now), Try(cf, b, off, now);
    if x.Again? {
      assert SimRing(x.r.rings[off], y.r.rings[off]);
      DequeueAlike(cf, x.r, y.r, off, now);
    }
  }

  // ---- Compaction ----

  lemma ClearedRingAlike(g: RingMem, g': RingMem)
    requires SimRing(g, g')
    ensures SimRing(ClearedFrom(g, 0), ClearedFrom(g', 0))
  {
    forall i | 0 <= i < |g.slots|
      ensures SimSlot(ClearedFrom(g, 0).slots[i], ClearedFrom(g', 0).slots[i], i, |g.slots|)
    {
      assert SimSlot(g.slots[i], g'.slots[i], i, |g.slots|);
    }
  }

  ghost predicate BothSee(a: Region, b: Region) {
    Sees(a) && Sees(b) && SimChans(a.chans, b.chans) && SimRings(a.rings, b.rings)
  }

  lemma CompactOneAlike(cf: Config, a: Region, b: Region, off: nat)
    requires BothSee(a, b) && off in a.rings
    ensures off in b.rings && Max(a.rings[off].enq, a.rings[off].deq) == Max(b.rings[off].enq, b.rings[off].deq)
    ensures var m := Max(a.rings[off].enq, a.rings[off].deq);
            BothSee(CompactRing(cf, a, off, 0, m), CompactRing(cf, b, off, 0, m))
  {
    var m := Max(a.rings[off].enq, a.rings[off].deq);
    assert SimRing(a.rings[off], b.rings[off]);
    RingClears(cf, a, off, 0, m);
    RingClears(cf, b, off, 0, m);
    RingUnmarked(cf, a, off, 0, m);
    RingUnmarked(cf, b, off, 0, m);
    ClearedRingAlike(a.rings[off], b.rings[off]);
  }

  lemma RegistersAlike(a: Region, b: Region, k: nat, off: nat)
    requires SimChans(a.chans, b.chans) && SimRings(a.rings, b.rings) && k < |a.chans| && off == a.chans[k].ring
    ensures k < |b.chans| && off == b.chans[k].ring && Registers(a, k, off) == Registers(b, k, off)
  {
    assert SimChan(a.chans[k], b.chans[k]);
  }

  lemma {:induction false} AllRingsAlike(cf: Config, a: Region, b: Region, k: nat)
    requires BothSee(a, b)
    ensures SimRings(CompactAll(cf, a, k).rings, CompactAll(cf, b, k).rings)
    decreases |a.chans| - k
  {
    if k < |a.chans| {
      var off := a.chans[k].ring;
      RegistersAlike(a, b, k, off);
      CompactNext(cf, a, k, off);
      CompactNext(cf, b, k, off);
      if Registers(a, k, off) {
        CompactOneAlike(cf, a, b, off);
        var m := Max(a.rings[off].enq, a.rings[off].deq);
        AllRingsAlike(cf, CompactRing(cf, a, off, 0, m), CompactRing(cf, b, off, 0, m), k + 1);
      } else {
        AllRingsAlike(cf, a, b, k + 1);
      }
    }
  }

  lemma MarksLeavePages(r: Region, r': Region)
    requires Sees(r) && MarksOnly(r, r')
    ensures PagesFrom(r, r', 0)
  {
    forall o | o in r'.pages && o != 0 ensures PageFrom(r, r', o) {
      SlotWithPage(r, o);
      assert SameButMarks(r.rings[r.use[o].ring], r'.rings[r.use[o].ring]);
    }
  }

  lemma CompactAllAlike(cf: Config, a: Region, b: Region)
    requires Sim(cf, a, b)
    ensures Sim(cf, CompactAll(cf, a, 0), CompactAll(cf, b, 0))
  {
    var a', b' := CompactAll(cf, a, 0), CompactAll(cf, b, 0);
    CompactInvisible(cf, a);
    CompactInvisible(cf, b);
    AllRingsAlike(cf, a, b, 0);
    MarksLeavePages(a, a');
    MarksLeavePages(b, b');
    NoPageZero(cf, a', b');
    PagesAlike(a, b, a', b', 0);
  }

  // ---- Members ----

  lemma {:induction false} MAddAlike(a: seq<Member>, b: seq<Member>, name: Bytes, now: nat, expiry: nat, i: nat,
                                     empty: Option<nat>)
    requires SimMembers(a, b)
    ensures AddFrom(a, name, now, expiry, i, empty).1 == AddFrom(b, name, now, expiry, i, empty).1
    ensures SimMembers(AddFrom(a, name, now, expiry, i, empty).0, AddFrom(b, name, now, expiry, i, empty).0)
    decreases |a| - i
  {
    if i < |a| {
      assert SimMember(a[i], b[i]);
      var e := if empty.None? then Some(i) else empty;
      if a[i].active {
        MAddAlike(a[i := a[i].(active := false)], b[i := b[i].(active := false)], name, now, expiry, i + 1, e);
        MAddAlike(a, b, name, now, expiry, i + 1, empty);
      } else {
        MAddAlike(a, b, name, now, expiry, i + 1, e);
      }
    }
  }

  lemma {:induction false} MRemoveAlike(a: seq<Member>, b: seq<Member>, name: Bytes, i: nat)
    requires SimMembers(a, b)
    ensures RemoveFrom(a, name, i).1 == RemoveFrom(b, name, i).1
    ensures SimMembers(RemoveFrom(a, name, i).0, RemoveFrom(b, name, i).0)
    decreases |a| - i
  {
    if i < |a| {
      assert SimMember(a[i], b[i]);
      MRemoveAlike(a, b, name, i + 1);
    }
  }

  lemma {:induction false} MReadAlike(a: seq<Member>, b: seq<Member>, now: nat, expiry: nat, i: nat)
    requires SimMembers(a, b)
    ensures ReadFrom(a, now, expiry, i) == ReadFrom(b, now, expiry, i)
    decreases |a| - i
  {
    if i < |a| {
      assert SimMember(a[i], b[i]);
      MReadAlike(a, b, now, expiry, i + 1);
    }
  }

  /** A new array's names are whatever the block held; nobody reads them. */
  lemma ClearedAlike(raw: seq<Member>, raw': seq<Member>)
    requires |raw| == |raw'|
    ensures SimMembers(G.Cleared(raw), G.Cleared(raw'))
  {
  }

  // ---- Group index ----

  lemma {:induction false} FindGroupAlike(a: seq<G.Slot>, b: seq<G.Slot>, h: nat, name: Bytes, i: nat)
    requires SimGroups(a, b)
    ensures G.Find(a, h, name, i) == G.Find(b, h, name, i)
    decreases |a| - i
  {
    if i < |a| {
      assert SimGroup(a[i], b[i]);
      FindGroupAlike(a, b, h, name, i + 1);
    }
  }

  lemma {:induction false} RepairGroupsAlike(a: seq<G.Slot>, b: seq<G.Slot>, h: nat, name: Bytes, i: nat)
    requires SimGroups(a, b)
    ensures G.Repaired(a, h, name, i).1 == G.Repaired(b, h, name, i).1
    ensures SimGroups(G.Repaired(a, h, name, i).0, G.Repaired(b, h, name, i).0)
    decreases |a| - i
  {
    if i < |a| {
      assert SimGroup(a[i], b[i]);
      if a[i].version % 2 != 0 {
        RepairGroupsAlike(a[i := G.Erased(a[i])], b[i := G.Erased(b[i])], h, name, i + 1);
      } else {
        RepairGroupsAlike(a, b, h, name, i + 1);
      }
    }
  }

  lemma {:induction false} InactiveGroupAlike(a: seq<G.Slot>, b: seq<G.Slot>, i: nat)
    requires SimGroups(a, b)
    ensures G.FirstInactive(a, i) == G.FirstInactive(b, i)
    decreases |a| - i
  {
    if i < |a| {
      assert SimGroup(a[i], b[i]);
      InactiveGroupAlike(a, b, i + 1);
    }
  }

  lemma PutGroupAlike(a: seq<G.Slot>, b: seq<G.Slot>, i: nat, s: G.Slot, s': G.Slot)
    requires SimGroups(a, b) && i < |a| && SimGroup(s, s')
    ensures SimGroups(a[i := s], b[i := s'])
  {
  }

  lemma PutArrayAlike(a: map<nat, seq<Member>>, b: map<nat, seq<Member>>, o: nat, ms: seq<Member>, ms': seq<Member>)
    requires SimArrays(a, b) && SimMembers(ms, ms')
    ensures SimArrays(a[o := ms], b[o := ms'])
  {
  }

  lemma OpenedAlike(hash: Bytes -> nat, a: seq<G.Slot>, b: seq<G.Slot>, x: map<nat, seq<Member>>,
                    y: map<nat, seq<Member>>, name: Bytes, off: nat, raw: seq<Member>, raw': seq<Member>)
    requires SimGroups(a, b) && SimArrays(x, y) && |raw| == |raw'|
    ensures G.Asks(hash, a, name) == G.Asks(hash, b, name)
    ensures var r, t := G.OpenedIn(hash, a, x, name, off, raw), G.OpenedIn(hash, b, y, name, off, raw');
            r.2 == t.2 && SimGroups(r.0, t.0) && SimArrays(r.1, t.1)
  {
    var h := hash(name);
    RepairGroupsAlike(a, b, h, name, 0);
    var gs, gs' := G.Repaired(a, h, name, 0).0, G.Repaired(b, h, name, 0).0;
    InactiveGroupAlike(gs, gs', 0);
    ClearedAlike(raw, raw');
    var i := G.FirstInactive(gs, 0);
    if i.Some? {
      assert SimGroup(gs[i.value], gs'[i.value]);
      PutGroupAlike(gs, gs', i.value, G.Filled(gs[i.value], name, h, off), G.Filled(gs'[i.value], name, h, off));
      PutArrayAlike(x, y, off, G.Cleared(raw), G.Cleared(raw'));
    }
  }

  lemma AddedAlike(a: seq<G.Slot>, b: seq<G.Slot>, x: map<nat, seq<Member>>, y: map<nat, seq<Member>>, i: nat,
                   channel: Bytes, now: nat, expiry: nat)
    requires SimGroups(a, b) && SimArrays(x, y) && i < |a| && a[i].members in x && b[i].members in y
    ensures var r, t := G.AddedIn(a, x, i, channel, now, expiry), G.AddedIn(b, y, i, channel, now, expiry);
            r.2 == t.2 && SimGroups(r.0, t.0) && SimArrays(r.1, t.1)
  {
    var s, s' := a[i], b[i];
    assert SimGroup(s, s');
    assert SimMembers(x[s.members], y[s.members]);
    MAddAlike(x[s.members], y[s.members], channel, now, expiry, 0, None);
    var p, q := AddFrom(x[s.members], channel, now, expiry, 0, None), AddFrom(y[s.members], channel, now, expiry, 0, None);
    PutGroupAlike(a, b, i, G.Counted(s, p.1), G.Counted(s', q.1));
    PutArrayAlike(x, y, s.members, p.0, q.0);
  }

  lemma JoinedAlike(gc: G.Config, a: seq<G.Slot>, b: seq<G.Slot>, x: map<nat, seq<Member>>, y: map<nat, seq<Member>>,
                    group: Bytes, channel: Bytes, now: nat, off: nat, raw: seq<Member>, raw': seq<Member>)
    requires SimGroups(a, b) && SimArrays(x, y) && |raw| == |raw'|
    ensures var r, t := G.JoinedIn(gc, a, x, group, channel, now, off, raw), G.JoinedIn(gc, b, y, group, channel, now, off, raw');
            r.2 == t.2 && SimGroups(r.0, t.0) && SimArrays(r.1, t.1)
  {
    OpenedAlike(gc.hash, a, b, x, y, group, off, raw, raw');
    var (gs, ks, i) := G.OpenedIn(gc.hash, a, x, group, off, raw);
    var (gs', ks', i') := G.OpenedIn(gc.hash, b, y, group, off, raw');
    if i.Some? {
      assert SimGroup(gs[i.value], gs'[i.value]);
      if gs[i.value].members in ks {
        AddedAlike(gs, gs', ks, ks', i.value, channel, now, gc.expiry);
      }
    }
  }

  lemma LeftAlike(hash: Bytes -> nat, a: seq<G.Slot>, b: seq<G.Slot>, x: map<nat, seq<Member>>, y: map<nat, seq<Member>>,
                  group: Bytes, channel: Bytes)
    requires SimGroups(a, b) && SimArrays(x, y)
    ensures var r, t := G.LeftIn(hash, a, x, group, channel), G.LeftIn(hash, b, y, group, channel);
            SimGroups(r.0, t.0) && SimArrays(r.1, t.1)
  {
    FindGroupAlike(a, b, hash(group), group, 0);
    var i := G.Find(a, hash(group), group, 0);
    if i.Some? {
      var s, s' := a[i.value], b[i.value];
      assert SimGroup(s, s');
      if s.members in x {
        assert SimMembers(x[s.members], y[s.members]);
        MRemoveAlike(x[s.members], y[s.members], channel, 0);
        var p, q := RemoveFrom(x[s.members], channel, 0), RemoveFrom(y[s.members], channel, 0);
        PutGroupAlike(a, b, i.value, G.AfterRemoval(s), G.AfterRemoval(s'));
        PutArrayAlike(x, y, s.members, p.0, q.0);
      }
    }
  }

  lemma ListedAlike(gc: G.Config, a: Region, b: Region, group: Bytes, now: nat)
    requires SimGroups(a.groups, b.groups) && SimArrays(a.arrays, b.arrays)
    ensures G.ListedIn(gc, a.groups, a.arrays, group, now) == G.ListedIn(gc, b.groups, b.arrays, group, now)
  {
    FindGroupAlike(a.groups, b.groups, gc.hash(group), group, 0);
    var i := G.Find(a.groups, gc.hash(group), group, 0);
    if i.Some? {
      var s := a.groups[i.value];
      assert SimGroup(s, b.groups[i.value]);
      if s.members in a.arrays {
        MReadAlike(a.arrays[s.members], b.arrays[s.members], now, gc.expiry, 0);
      }
    }
  }

  /** Pages stay as they are when only other blocks change their use. */
  lemma OtherBlocksOnly(r: Region, r': Region)
    requires RingsOk(r) && r'.pages == r.pages && r'.rings == r.rings
    requires forall o :: IsPage(r', o) == IsPage(r, o) && (IsPage(r, o) ==> r'.use[o] == r.use[o])
    ensures PagesFrom(r, r', 0)
  {
    SeesWith(r, r');
    forall o | o in r'.pages && o != 0 ensures PageFrom(r, r', o) {
    }
  }

  lemma ArrayAlike(cf: Config, a: Region, b: Region, group: Bytes)
    requires Fits(cf, a) && Fits(cf, b) && SimSlab(cf, a, b) && SimGroups(a.groups, b.groups)
    ensures ArrayFor(cf, a, group).1 == ArrayFor(cf, b, group).1
    ensures SimSlab(cf, ArrayFor(cf, a, group).0, ArrayFor(cf, b, group).0)
  {
    OpenedAlike(cf.hash, a.groups, b.groups, map[], map[], group, 0, [], []);
    AllocAlike(cf, a, b, cf.maxMembers * MEMBER_SIZE, ArrayBlock);
  }

  lemma ArrayLeavesPages(cf: Config, r: Region, group: Bytes)
    requires Ok(cf, r)
    ensures var (r1, off) := ArrayFor(cf, r, group); SameViews(r, r1) && PagesFrom(r, r1, 0)
  {
    ArrayAnswered(cf, r, group);
    OtherBlocksOnly(r, ArrayFor(cf, r, group).0);
  }

  lemma JoinAlike(cf: Config, a: Region, b: Region, group: Bytes, channel: Bytes, now: nat, j: Junk, k: Junk)
    requires Sim(cf, a, b)
    ensures Join(cf, a, group, channel, now, j).1 == Join(cf, b, group, channel, now, k).1
    ensures Sim(cf, Join(cf, a, group, channel, now, j).0, Join(cf, b, group, channel, now, k).0)
  {
    var (a1, off) := ArrayFor(cf, a, group);
    var b1 := ArrayFor(cf, b, group).0;
    var a', b' := Join(cf, a, group, channel, now, j).0, Join(cf, b, group, channel, now, k).0;
    ArrayAlike(cf, a, b, group);
    ArrayLeavesPages(cf, a, group);
    ArrayLeavesPages(cf, b, group);
    JoinedAlike(GroupConfig(cf), a1.groups, b1.groups, a1.arrays, b1.arrays, group, channel, now, off,
                RawMembers(j, cf.maxMembers), RawMembers(k, cf.maxMembers));
    JoinOk(cf, a, group, channel, now, j);
    JoinOk(cf, b, group, channel, now, k);
    GroupsChanged(cf, a, b, a1, b1, a', b');
  }

  lemma GroupsChanged(cf: Config, a: Region, b: Region, a1: Region, b1: Region, a': Region, b': Region)
    requires Sim(cf, a, b) && Ok(cf, a') && Ok(cf, b') && SimSlab(cf, a1, b1)
    requires SameViews(a, a1) && SameViews(b, b1) && PagesFrom(a, a1, 0) && PagesFrom(b, b1, 0)
    requires a' == WithGroups(a1, a'.groups, a'.arrays) && b' == WithGroups(b1, b'.groups, b'.arrays)
    requires SimGroups(a'.groups, b'.groups) && SimArrays(a'.arrays, b'.arrays)
    ensures Sim(cf, a', b')
  {
    NoPageZero(cf, a', b');
    GroupPages(a, b, a1, b1, a', b');
  }

  lemma GroupPages(a: Region, b: Region, a1: Region, b1: Region, a': Region, b': Region)
    requires SimPages(a, b) && PagesFrom(a, a1, 0) && PagesFrom(b, b1, 0) && SimPage(a', b', 0)
    requires a' == WithGroups(a1, a'.groups, a'.arrays) && b' == WithGroups(b1, b'.groups, b'.arrays)
    ensures SimPages(a', b')
  {
    forall o ensures SimPage(a', b', o) {
      assert SimPage(a, b, o);
      if o in a'.pages && o in b'.pages && o != 0 {
        assert PageFrom(a, a1, o) && PageFrom(b, b1, o);
      }
    }
  }

  lemma LeaveAlike(cf: Config, a: Region, b: Region, group: Bytes, channel: Bytes)
    requires Sim(cf, a, b)
    ensures Sim(cf, Leave(cf, a, group, channel), Leave(cf, b, group, channel))
  {
    LeftAlike(cf.hash, a.groups, b.groups, a.arrays, b.arrays, group, channel);
    LeaveOk(cf, a, group, channel);
    LeaveOk(cf, b, group, channel);
    OtherBlocksOnly(a, a);
    OtherBlocksOnly(b, b);
    GroupsChanged(cf, a, b, a, b, Leave(cf, a, group, channel), Leave(cf, b, group, channel));
  }

  // ---- Channels and their rings ----

  lemma NewRingPages(r: Region, r1: Region, b: nat, size: nat, g: RingMem)
    requires ViewsOk(r) && Given(r, r1, b, size, RingBlock)
    ensures PagesFrom(r, WithRing(r1, b, g), 0)
  {
    var r' := WithRing(r1, b, g);
    forall o | o in r'.pages && o != 0 ensures PageFrom(r, r', o) {
      assert ViewOk(r, o) && ViewOk(r, b);
    }
  }

  lemma BlockGonePages(r: Region, r': Region, b: nat)
    requires ViewsOk(r) && TakenBack(r, r', b) && !IsPage(r, b) && NoPagesAt(r, b)
    ensures PagesFrom(r, r', 0)
  {
    forall o | o in r'.pages && o != 0 ensures PageFrom(r, r', o) {
      assert ViewOk(r, o) && ViewOk(r, b);
      assert IsPage(r, o) && IsPage(r', o);
    }
  }

  lemma NewRingAlike(cf: Config, a: Region, b: Region, a1: Region, b1: Region, off: nat, capacity: nat, j: Junk, k: Junk)
    requires Sim(cf, a, b) && Fits(cf, a1) && Fits(cf, b1) && SimSlab(cf, a1, b1) && 2 <= capacity
    requires Given(a, a1, off, RingSize(capacity), RingBlock) && Given(b, b1, off, RingSize(capacity), RingBlock)
    ensures Sim(cf, WithRing(a1, off, FreshRing(j, capacity)), WithRing(b1, off, FreshRing(k, capacity)))
    ensures NoPagesAt(WithRing(a1, off, FreshRing(j, capacity)), off)
    ensures NoPagesAt(WithRing(b1, off, FreshRing(k, capacity)), off)
  {
    var a', b' := WithRing(a1, off, FreshRing(j, capacity)), WithRing(b1, off, FreshRing(k, capacity));
    NewRingOk(cf, a, a1, off, capacity, j);
    NewRingOk(cf, b, b1, off, capacity, k);
    NewRingPages(a, a1, off, RingSize(capacity), FreshRing(j, capacity));
    NewRingPages(b, b1, off, RingSize(capacity), FreshRing(k, capacity));
    NoPageZero(cf, a', b');
    PagesAlike(a, b, a', b', 0);
    FreshRingAlike(j, k, capacity);
    NewRingViews(a, b, a1, b1, off, FreshRing(j, capacity), FreshRing(k, capacity));
  }

  lemma NewRingViews(a: Region, b: Region, a1: Region, b1: Region, off: nat, g: RingMem, g': RingMem)
    requires SimViews(a, b) && SameViews(a, a1) && SameViews(b, b1) && SimRing(g, g')
    ensures SimViews(WithRing(a1, off, g), WithRing(b1, off, g'))
  {
  }

  lemma ChansAlike(cf: Config, a: Region, b: Region, cs: seq<C.Slot>, cs': seq<C.Slot>)
    requires Sim(cf, a, b) && SimChans(cs, cs')
    ensures Sim(cf, a.(chans := cs), b.(chans := cs'))
  {
    ChansOnly(cf, a, cs);
    ChansOnly(cf, b, cs');
    ChansPages(a, b, cs, cs');
  }

  lemma ChansPages(a: Region, b: Region, cs: seq<C.Slot>, cs': seq<C.Slot>)
    requires SimPages(a, b)
    ensures SimPages(a.(chans := cs), b.(chans := cs'))
  {
    forall o ensures SimPage(a.(chans := cs), b.(chans := cs'), o) {
      assert SimPage(a, b, o);
    }
  }

  /** A block that is no page and has none is given back in both regions. */
  lemma BlockGoneAlike(cf: Config, a: Region, b: Region, o: nat, size: nat)
    requires Sim(cf, a, b) && o in a.use && !IsPage(a, o) && NoPagesAt(a, o)
    requires o in a.pool.blocks && a.pool.blocks[o] == S.ClassFor(size)
    ensures Sim(cf, Free(cf, a, o, size), Free(cf, b, o, size))
  {
    var a', b' := Free(cf, a, o, size), Free(cf, b, o, size);
    FreeTakesBack(cf, a, o, size);
    FreeTakesBack(cf, b, o, size);
    SameNoPages(cf, a, b, o);
    BlockGone(a, a', o);
    BlockGone(b, b', o);
    BlockGonePages(a, a', o);
    BlockGonePages(b, b', o);
    FreeAlike(cf, a, b, o, size);
    NoPageZero(cf, a', b');
    PagesAlike(a, b, a', b', 0);
    GoneViews(a, b, a', b', o);
  }

  lemma SameNoPages(cf: Config, a: Region, b: Region, o: nat)
    requires SimSlab(cf, a, b) && NoPagesAt(a, o) && !IsPage(a, o)
    ensures NoPagesAt(b, o) && !IsPage(b, o)
  {
    forall p | IsPage(b, p) ensures b.use[p].ring != o {
      assert IsPage(a, p);
    }
  }

  lemma GoneViews(a: Region, b: Region, a': Region, b': Region, o: nat)
    requires SimViews(a, b) && TakenBack(a, a', o) && TakenBack(b, b', o)
    ensures SimViews(a', b')
  {
  }

  lemma RegisterAlike(cf: Config, a: Region, b: Region, off: nat, name: Bytes, capacity: nat, nonLocal: bool)
    requires Sim(cf, a, b) && UsedAs(a, off, RingBlock) && NoPagesAt(a, off)
    requires off in a.pool.blocks && a.pool.blocks[off] == S.ClassFor(RingSize(capacity))
    ensures Register(cf, a, off, name, capacity, nonLocal).1 == Register(cf, b, off, name, capacity, nonLocal).1
    ensures Sim(cf, Register(cf, a, off, name, capacity, nonLocal).0, Register(cf, b, off, name, capacity, nonLocal).0)
  {
    var e := C.Entry(off, capacity, nonLocal);
    CreateChanAlike(cf, a.chans, b.chans, name, e);
    var x, y := C.CreatedIn(cf.hash, a.chans, name, e), C.CreatedIn(cf.hash, b.chans, name, e);
    ChansAlike(cf, a, b, x.0, y.0);
    if x.1.None? {
      BlockGoneAlike(cf, a.(chans := x.0), b.(chans := y.0), off, RingSize(capacity));
    }
  }

  /** Where opening a ring ends up when it has to be made. */
  lemma OpenRingIs(cf: Config, r: Region, name: Bytes, capacity: nat, nonLocal: bool, junk: Junk)
    requires capacity >= 2 && RingOf(cf, r, name).None?
    ensures var (r1, off) := Alloc(cf, r, RingSize(capacity), RingBlock);
            OpenRing(cf, r, name, capacity, nonLocal, junk) ==
            if off == 0 then (r1, None)
            else Register(cf, WithRing(r1, off, FreshRing(junk, capacity)), off, name, capacity, nonLocal)
  {
  }

  lemma MakeRingAlike(cf: Config, a: Region, b: Region, name: Bytes, capacity: nat, nonLocal: bool, j: Junk, k: Junk)
    requires Sim(cf, a, b) && capacity >= 2 && RingOf(cf, a, name).None? && RingOf(cf, b, name).None?
    ensures OpenRing(cf, a, name, capacity, nonLocal, j).1 == OpenRing(cf, b, name, capacity, nonLocal, k).1
    ensures Sim(cf, OpenRing(cf, a, name, capacity, nonLocal, j).0, OpenRing(cf, b, name, capacity, nonLocal, k).0)
  {
    var (a1, off) := Alloc(cf, a, RingSize(capacity), RingBlock);
    var b1 := Alloc(cf, b, RingSize(capacity), RingBlock).0;
    BothGiven(cf, a, b, RingSize(capacity), RingBlock);
    OpenRingIs(cf, a, name, capacity, nonLocal, j);
    OpenRingIs(cf, b, name, capacity, nonLocal, k);
    if off != 0 {
      NewRingAlike(cf, a, b, a1, b1, off, capacity, j, k);
      RegisterAlike(cf, WithRing(a1, off, FreshRing(j, capacity)), WithRing(b1, off, FreshRing(k, capacity)), off, name,
                    capacity, nonLocal);
    }
  }

  lemma OpenRingAlike(cf: Config, a: Region, b: Region, name: Bytes, capacity: nat, nonLocal: bool, j: Junk, k: Junk)
    requires Sim(cf, a, b)
    ensures OpenRing(cf, a, name, capacity, nonLocal, j).1 == OpenRing(cf, b, name, capacity, nonLocal, k).1
    ensures Sim(cf, OpenRing(cf, a, name, capacity, nonLocal, j).0, OpenRing(cf, b, name, capacity, nonLocal, k).0)
  {
    RingOfAlike(cf, a, b, name);
    if capacity >= 2 && RingOf(cf, a, name).None? {
      MakeRingAlike(cf, a, b, name, capacity, nonLocal, j, k);
    }
  }

  lemma BothGiven(cf: Config, a: Region, b: Region, size: nat, u: Use)
    requires Fits(cf, a) && Fits(cf, b) && SimSlab(cf, a, b)
    ensures var (a1, x), (b1, y) := Alloc(cf, a, size, u), Alloc(cf, b, size, u);
            && x == y && Answered(a, a1, x, size, u) && Answered(b, b1, y, size, u)
            && Fits(cf, a1) && Fits(cf, b1) && SimSlab(cf, a1, b1)
  {
    AllocAlike(cf, a, b, size, u);
    AllocAnswers(cf, a, size, u);
    AllocAnswers(cf, b, size, u);
    AllocFits(cf, a, Alloc(cf, a, size, u).0, size, u);
    AllocFits(cf, b, Alloc(cf, b, size, u).0, size, u);
  }

  // ---- Blocks on loan ----

  lemma LoanAlike(cf: Config, a: Region, b: Region, size: nat)
    requires Sim(cf, a, b)
    ensures Alloc(cf, a, size, Loaned).1 == Alloc(cf, b, size, Loaned).1
    ensures Sim(cf, Alloc(cf, a, size, Loaned).0, Alloc(cf, b, size, Loaned).0)
  {
    var (a1, x) := Alloc(cf, a, size, Loaned);
    var b1 := Alloc(cf, b, size, Loaned).0;
    BothGiven(cf, a, b, size, Loaned);
    if x != 0 {
      LoanedAlike(cf, a, b, a1, b1, x, size);
    }
  }

  lemma LoanedAlike(cf: Config, a: Region, b: Region, a1: Region, b1: Region, x: nat, size: nat)
    requires Sim(cf, a, b) && Fits(cf, a1) && Fits(cf, b1) && SimSlab(cf, a1, b1)
    requires Given(a, a1, x, size, Loaned) && Given(b, b1, x, size, Loaned)
    ensures Sim(cf, a1, b1)
  {
    LoanSees(a, a1, x, size);
    LoanSees(b, b1, x, size);
    OtherBlocksOnly(a, a1);
    OtherBlocksOnly(b, b1);
    NoPageZero(cf, a1, b1);
    PagesAlike(a, b, a1, b1, 0);
  }

  lemma GiveBackAlike(cf: Config, a: Region, b: Region, o: nat, size: nat)
    requires Sim(cf, a, b) && MayGiveBack(a, o, size)
    ensures Sim(cf, Free(cf, a, o, size), Free(cf, b, o, size))
  {
    if o != 0 && S.ClassFor(size) < S.NUM_CLASSES {
      LoanHasNoPages(a, o);
      BlockGoneAlike(cf, a, b, o, size);
    }
  }

  // ---- Every sequence of operations ----

  /** One operation, over two regions alike, whatever junk each meets. */
  lemma StepAlike(cf: Config, a: Region, b: Region, op: Op, j: Junk, k: Junk)
    requires Sim(cf, a, b) && Legal(a, op)
    ensures Legal(b, op)
    ensures Step(cf, a, op, j).1 == Step(cf, b, op, k).1 && Sim(cf, Step(cf, a, op, j).0, Step(cf, b, op, k).0)
  {
    match op
    case OpLookup(name) => RingOfAlike(cf, a, b, name);
    case OpOpenRing(name, capacity, nonLocal) => OpenRingAlike(cf, a, b, name, capacity, nonLocal, j, k);
    case OpSend(name, m) => SendAlike(cf, a, b, name, m, j, k);
    case OpReceive(name, now) => ReceiveAlike(cf, a, b, name, now);
    case OpCompact => CompactAllAlike(cf, a, b);
    case OpJoin(group, channel, at) => JoinAlike(cf, a, b, group, channel, at, j, k);
    case OpLeave(group, channel) => LeaveAlike(cf, a, b, group, channel);
    case OpList(group, at) => ListedAlike(GroupConfig(cf), a, b, group, at);
    case OpAlloc(size) => LoanAlike(cf, a, b, size);
    case OpFree(o, size) => GiveBackAlike(cf, a, b, o, size);
  }

  lemma LiveRingAlike(cf: Config, a: Region, b: Region, name: Bytes)
    requires SimViews(a, b)
    ensures LiveRing(cf, a, name) == LiveRing(cf, b, name)
    ensures var off := LiveRing(cf, a, name); off.Some? ==> SimRing(a.rings[off.value], b.rings[off.value])
  {
    RingOfAlike(cf, a, b, name);
    var off := RingOf(cf, a, name);
    if off.Some? && off.value in a.rings {
      assert SimRing(a.rings[off.value], b.rings[off.value]);
    }
  }

  lemma SendAlike(cf: Config, a: Region, b: Region, name: Bytes, m: Q.Sent, j: Junk, k: Junk)
    requires Sim(cf, a, b)
    ensures Send(cf, a, name, m, j).1 == Send(cf, b, name, m, k).1
    ensures Sim(cf, Send(cf, a, name, m, j).0, Send(cf, b, name, m, k).0)
  {
    LiveRingAlike(cf, a, b, name);
    var off := LiveRing(cf, a, name);
    if off.Some? {
      EnqueueAlike(cf, a, b, off.value, m, j, k);
    }
  }

  lemma ReceiveAlike(cf: Config, a: Region, b: Region, name: Bytes, now: int)
    requires Sim(cf, a, b)
    ensures Receive(cf, a, name, now).1 == Receive(cf, b, name, now).1
    ensures Sim(cf, Receive(cf, a, name, now).0, Receive(cf, b, name, now).0)
  {
    LiveRingAlike(cf, a, b, name);
    var off := LiveRing(cf, a, name);
    if off.Some? {
      DequeueAlike(cf, a, b, off.value, now);
    }
  }

  lemma {:induction false} ResultsAlike(cf: Config, a: Region, b: Region, ops: seq<Op>, j: seq<Junk>, k: seq<Junk>)
    requires Sim(cf, a, b) && |j| == |k| == |ops| && AllLegal(cf, a, ops, j)
    ensures Results(cf, a, ops, j) == Results(cf, b, ops, k)
    decreases |ops|
  {
    if ops != [] {
      StepAlike(cf, a, b, ops[0], j[0], k[0]);
      ResultsAlike(cf, Step(cf, a, ops[0], j[0]).0, Step(cf, b, ops[0], k[0]).0, ops[1..], j[1..], k[1..]);
    }
  }

  /** After a quiescent flush of any region, every sequence of index, group, ring
      and slab operations returns exactly what it returns on a freshly initialised
      region of the same shape, whatever either of them held. */
  lemma FlushedIsFresh(cf: Config, used: Region, raw: Region, ops: seq<Op>, j: seq<Junk>, k: seq<Junk>)
    requires SameShape(cf, used, raw) && |j| == |k| == |ops| && AllLegal(cf, Blank(cf, used), ops, j)
    ensures Results(cf, Blank(cf, used), ops, j) == Results(cf, Blank(cf, raw), ops, k)
  {
    BlankAlike(cf, used, raw);
    ResultsAlike(cf, Blank(cf, used), Blank(cf, raw), ops, j, k);
  }
}
