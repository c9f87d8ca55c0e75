/** A whole region: the two index tables, the slab's memory, and what is kept in
    the blocks it handed out, each by the operations of its own module. Every block
    in use has one purpose, every overflow page belongs to one waiting message and
    is long enough for it, and each ring stands for a queue of its own. */
module Regions {
  import opened Prelude
  import C = ChannelIndex
  import G = Groups
  import opened Members
  import Q = RingQueue
  import S = Slab

  datatype RingMem = RingMem(enq: nat, deq: nat, slots: seq<Q.Slot>)

  /** What a block in use is: a ring, a member array, the overflow page of a ring's
      slot, or on loan to a caller of the slab. */
  datatype Use = RingBlock | ArrayBlock | PageOf(ring: nat, slot: nat) | Loaned

  /** `mem`: the slab's memory, where its metadata and the links of free blocks are;
      `rings`, `arrays` and `pages`: the contents of blocks in use. `pool` and `use`
      are an observer's record of the blocks; no operation decides anything by it. */
  datatype Region = Region(
    chans: seq<C.Slot>,
    groups: seq<G.Slot>,
    mem: seq<nat>,
    rings: map<nat, RingMem>,
    arrays: map<nat, seq<Member>>,
    pages: map<nat, Bytes>,
    pool: S.Pool,
    use: map<nat, Use>)

  datatype Config = Config(hash: Bytes -> nat, inlineSize: nat, maxMembers: nat, groupExpiry: nat, pool: nat, end: nat)

  function GroupConfig(cf: Config): G.Config { G.Config(cf.hash, cf.maxMembers, cf.groupExpiry) }

  /** What a block or slot happens to hold where nothing has been written yet. */
  datatype Junk = Junk(channels: nat -> Bytes, inlines: nat -> Bytes, members: nat -> Member, page: Bytes)

  // ---- What every region keeps ----

  predicate UsedAs(r: Region, o: nat, u: Use) { o in r.use && r.use[o] == u }

  /** The slab's memory is a valid pool whose blocks in use are those recorded. */
  ghost predicate Fits(cf: Config, r: Region) {
    S.PoolOk(r.mem, cf.pool, cf.end, r.pool) && r.use.Keys == r.pool.live
  }

  predicate IsPage(r: Region, o: nat) { o in r.use && r.use[o].PageOf? }

  /** The message length in the slot that page o belongs to. */
  function LengthOf(r: Region, o: nat): nat {
    if IsPage(r, o) && r.use[o].ring in r.rings && r.use[o].slot < |r.rings[r.use[o].ring].slots|
    then r.rings[r.use[o].ring].slots[r.use[o].slot].msgLen
    else 0
  }

  /** Page o is long enough for its message, and of the message's size class. */
  predicate PageOk(r: Region, o: nat)
    requires IsPage(r, o) && o in r.pages
  {
    && r.use[o].ring in r.rings && r.use[o].slot < |r.rings[r.use[o].ring].slots|
    && LengthOf(r, o) <= |r.pages[o]|
    && o in r.pool.blocks && r.pool.blocks[o] == S.ClassFor(LengthOf(r, o))
  }

  /** Block o is seen as what it is used for. */
  predicate ViewOk(r: Region, o: nat) {
    && (o in r.rings <==> UsedAs(r, o, RingBlock))
    && (o in r.arrays <==> UsedAs(r, o, ArrayBlock))
    && (o in r.pages <==> IsPage(r, o))
    && (o in r.pages ==> PageOk(r, o))
  }

  /** The pages of the ring at `off`, with the slot each belongs to. */
  function HolderOf(r: Region, off: nat): map<nat, nat> {
    map o | o in r.use && r.use[o].PageOf? && r.use[o].ring == off :: r.use[o].slot
  }

  /** The ring is sound with exactly the pages recorded as its own. */
  ghost predicate SoundWith(g: RingMem, holder: map<nat, nat>) {
    Q.Sound(g.slots, g.deq, g.enq, holder.Keys, holder)
  }

  ghost predicate RingOk(r: Region, off: nat)
    requires off in r.rings
  {
    SoundWith(r.rings[off], HolderOf(r, off))
  }

  ghost predicate ViewsOk(r: Region) { forall o :: ViewOk(r, o) }

  ghost predicate RingsOk(r: Region) { forall off | off in r.rings :: RingOk(r, off) }

  /** What is kept in the blocks agrees with what they are used for. */
  ghost predicate Sees(r: Region) { ViewsOk(r) && RingsOk(r) }

  ghost predicate Ok(cf: Config, r: Region) { Fits(cf, r) && Sees(r) }

  /** The queue that the ring at `off` stands for. */
  function QueueOf(r: Region, off: nat): Q.Queue
    requires off in r.rings && 0 < |r.rings[off].slots|
  {
    QueueIn(r.rings[off], r.pages)
  }

  function QueueIn(g: RingMem, pages: map<nat, Bytes>): Q.Queue
    requires 0 < |g.slots|
  {
    Q.Queue(g.deq, g.enq, Q.Window(g.slots, pages, g.deq, g.enq))
  }

  // ---- Slab ----

  /** `alloc`, for a block that is going to be used as u. */
  function Alloc(cf: Config, r: Region, size: nat, u: Use): (Region, nat) {
    if S.BumpWord(cf.pool) >= |r.mem| then (r, 0)
    else
      var (mem, b) := S.AllocIn(r.mem, cf.pool, cf.end, size);
      if b == 0 then (r, 0)
      else (r.(mem := mem, pool := S.AllocPool(r.mem, cf.pool, cf.end, r.pool, size), use := r.use[b := u]), b)
  }

  /** `free`; what was kept in the block is gone. */
  function Free(cf: Config, r: Region, b: nat, size: nat): Region {
    if b == 0 || S.ClassFor(size) == S.NUM_CLASSES || S.BumpWord(cf.pool) >= |r.mem| then r
    else
      r.(mem := S.FreedIn(r.mem, cf.pool, b, size), pool := S.FreedPool(r.pool, b, size), use := r.use - {b},
         rings := r.rings - {b}, arrays := r.arrays - {b}, pages := r.pages - {b})
  }

  /** Only slab memory and the record of blocks differ. */
  predicate SameViews(r: Region, r': Region) {
    r' == r.(mem := r'.mem, pool := r'.pool, use := r'.use)
  }

  /** Block b, which nobody had, is now used as u. */
  ghost predicate Given(r: Region, r': Region, b: nat, size: nat, u: Use) {
    && SameViews(r, r') && |r'.mem| == |r.mem|
    && b != 0 && b !in r.use && r'.use == r.use[b := u]
    && b in r'.pool.blocks && r'.pool.blocks[b] == S.ClassFor(size)
    && (forall o | o in r.pool.blocks :: o in r'.pool.blocks && r'.pool.blocks[o] == r.pool.blocks[o])
  }

  /** What the slab's answer comes to. */
  ghost predicate Answered(r: Region, r': Region, b: nat, size: nat, u: Use) {
    if b == 0 then r' == r else Given(r, r', b, size, u)
  }

  /** The slab has nothing for that many bytes: no class is large enough, or its list
      is empty and one more block would pass the end of the pool. */
  predicate NoRoomFor(cf: Config, r: Region, bytes: nat) {
    var c := S.ClassFor(bytes);
    c < S.NUM_CLASSES && S.BumpWord(cf.pool) < |r.mem| && |r.pool.lists| == S.NUM_CLASSES ==>
      S.Exhausted(r.mem, cf.pool, cf.end, r.pool, c)
  }

  lemma AllocFits(cf: Config, r: Region, r': Region, size: nat, u: Use)
    requires Fits(cf, r) && r' == Alloc(cf, r, size, u).0
    ensures Fits(cf, r')
  {
    S.AllocKeepsPool(r.mem, cf.pool, cf.end, r.pool, size);
  }

  lemma AllocAnswers(cf: Config, r: Region, size: nat, u: Use)
    requires Fits(cf, r)
    ensures Answered(r, Alloc(cf, r, size, u).0, Alloc(cf, r, size, u).1, size, u)
    ensures Alloc(cf, r, size, u).1 == 0 <==> NoRoomFor(cf, r, size)
  {
    S.AllocKeepsPool(r.mem, cf.pool, cf.end, r.pool, size);
    HandedIsGiven(cf, r, size, u);
  }

  lemma HandedIsGiven(cf: Config, r: Region, size: nat, u: Use)
    requires r.use.Keys == r.pool.live && S.BumpWord(cf.pool) < |r.mem|
    requires var b := S.AllocIn(r.mem, cf.pool, cf.end, size).1;
             b == 0 || S.Handed(r.pool, S.AllocPool(r.mem, cf.pool, cf.end, r.pool, size), b, S.ClassFor(size))
    ensures Answered(r, Alloc(cf, r, size, u).0, Alloc(cf, r, size, u).1, size, u)
  {
  }

  lemma NeverZero(cf: Config, r: Region)
    requires Fits(cf, r)
    ensures 0 !in r.use && forall o | o in r.use :: o in r.pool.blocks
  {
    assert S.Inside(r.pool.blocks, 0, S.DataStart(cf.pool), S.Frontier(r.mem, cf.pool));
  }

  /** Block b, which was in use, is free. */
  ghost predicate TakenBack(r: Region, r': Region, b: nat) {
    && |r'.mem| == |r.mem| && b in r.use && r'.use == r.use - {b} && r'.pool.blocks == r.pool.blocks
    && r' == r.(mem := r'.mem, pool := r'.pool, use := r'.use, rings := r.rings - {b}, arrays := r.arrays - {b},
                pages := r.pages - {b})
  }

  lemma FreeTakesBack(cf: Config, r: Region, b: nat, size: nat)
    requires Fits(cf, r) && b in r.use && b in r.pool.blocks && r.pool.blocks[b] == S.ClassFor(size)
    ensures Fits(cf, Free(cf, r, b, size)) && TakenBack(r, Free(cf, r, b, size), b)
  {
    NeverZero(cf, r);
    S.FreeKeepsPool(r.mem, cf.pool, cf.end, r.pool, b, size);
  }

  // ---- Changes to one ring ----

  function WithRing(r: Region, off: nat, g: RingMem): Region { r.(rings := r.rings[off := g]) }

  function WithPage(r: Region, page: nat, body: Bytes): Region { r.(pages := r.pages[page := body]) }

  /** Pages other than `page` are as before, and hold messages as long as before. */
  ghost predicate PagesFrom(r: Region, r': Region, page: nat) {
    forall o | o in r'.pages && o != page :: PageFrom(r, r', o)
  }

  predicate PageFrom(r: Region, r': Region, o: nat)
    requires o in r'.pages
  {
    o in r.pages && r'.pages[o] == r.pages[o] && LengthOf(r', o) == LengthOf(r, o)
  }

  /** Slots that have a page keep the length of their message. */
  ghost predicate SameLengths(g: RingMem, g': RingMem) {
    |g'.slots| == |g.slots|
    && forall i | 0 <= i < |g.slots| && g'.slots[i].overflow != 0 && g'.slots[i].overflow == g.slots[i].overflow ::
         g'.slots[i].msgLen == g.slots[i].msgLen
  }

  ghost predicate SameQueue(r: Region, r': Region, k: nat) {
    && k in r.rings && k in r'.rings && 0 < |r.rings[k].slots| && 0 < |r'.rings[k].slots|
    && r'.rings[k] == r.rings[k] && QueueOf(r', k) == QueueOf(r, k)
  }

  /** One ring changed, with at most one new page; nothing else did. */
  ghost predicate RingStep(r: Region, r': Region, off: nat, page: nat) {
    && Sees(r') && r'.chans == r.chans && r'.groups == r.groups && r'.arrays == r.arrays
    && off in r.rings && r'.rings.Keys == r.rings.Keys
    && |r'.rings[off].slots| == |r.rings[off].slots| >= 2
    && (forall k | k in r.rings && k != off :: SameQueue(r, r', k))
    && PagesFrom(r, r', page)
  }

  lemma SlotWithPage(r: Region, o: nat)
    requires Sees(r) && o in r.pages
    ensures IsPage(r, o) && r.use[o].ring in r.rings && r.use[o].slot < |r.rings[r.use[o].ring].slots|
    ensures r.rings[r.use[o].ring].slots[r.use[o].slot].overflow == o != 0
  {
    assert ViewOk(r, o);
    var u := r.use[o];
    assert RingOk(r, u.ring);
    assert o in HolderOf(r, u.ring) && HolderOf(r, u.ring)[o] == u.slot;
    assert Q.SlotOfPage(r.rings[u.ring].slots, HolderOf(r, u.ring), o);
  }

  /** A page that a ring's slot names is recorded as that slot's. */
  lemma PageOfRing(r: Region, off: nat, i: nat)
    requires Sees(r) && off in r.rings && i < |r.rings[off].slots|
    requires r.rings[off].slots[i].overflow != 0
    ensures var o := r.rings[off].slots[i].overflow; UsedAs(r, o, PageOf(off, i)) && o in r.pages && PageOk(r, o)
  {
    assert RingOk(r, off);
    assert Q.PageOfSlot(r.rings[off].slots, r.rings[off].deq, r.rings[off].enq, HolderOf(r, off), i);
    assert ViewOk(r, r.rings[off].slots[i].overflow);
  }

  /** What a ring stands for only depends on its own pages. */
  lemma OtherPages(g: RingMem, holder: map<nat, nat>, pages: map<nat, Bytes>, pages': map<nat, Bytes>)
    requires SoundWith(g, holder)
    requires forall o | o in holder :: (o in pages' <==> o in pages) && (o in pages ==> pages'[o] == pages[o])
    ensures QueueIn(g, pages') == QueueIn(g, pages)
  {
    forall t: nat | g.deq <= t < g.enq ensures Q.SameMessage(g.slots, pages, g.slots, pages', t) {
      assert Q.PageOfSlot(g.slots, g.deq, g.enq, holder, SlotOf(t, |g.slots|));
    }
    Q.WindowFrame(g.slots, pages, g.slots, pages', g.deq, g.enq);
  }

  /** The ring at `off` becomes g, with the same pages. */
  lemma RingOnly(r: Region, r': Region, off: nat, g: RingMem)
    requires Sees(r) && off in r.rings && r' == WithRing(r, off, g)
    requires SoundWith(g, HolderOf(r, off)) && SameLengths(r.rings[off], g)
    ensures RingStep(r, r', off, 0)
  {
    assert RingOk(r, off);
    SameHolders(r, r', off);
    forall o | o in r'.pages ensures PageFrom(r, r', o) {
      RingOnlyPage(r, r', off, g, o);
    }
    forall o ensures ViewOk(r', o) {
      assert ViewOk(r, o);
      if o in r.pages {
        RingOnlyPage(r, r', off, g, o);
      }
    }
  }

  /** Rings whose pages did not change still stand for the same queues. */
  lemma SameHolders(r: Region, r': Region, off: nat)
    requires RingsOk(r) && off in r.rings && off in r'.rings && r'.rings == r.rings[off := r'.rings[off]]
    requires SoundWith(r'.rings[off], HolderOf(r', off))
    requires forall k | k in r.rings && k != off :: HolderOf(r', k) == HolderOf(r, k)
    requires forall o | o in r.use && r.use[o].PageOf? && r.use[o].ring != off ::
               (o in r'.pages <==> o in r.pages) && (o in r.pages ==> r'.pages[o] == r.pages[o])
    ensures RingsOk(r') && forall k | k in r.rings && k != off :: SameQueue(r, r', k)
  {
    forall k | k in r'.rings ensures RingOk(r', k) && (k != off ==> SameQueue(r, r', k)) {
      if k != off {
        assert RingOk(r, k);
        OtherPages(r.rings[k], HolderOf(r, k), r.pages, r'.pages);
      }
    }
  }

  lemma RingOnlyPage(r: Region, r': Region, off: nat, g: RingMem, o: nat)
    requires Sees(r) && off in r.rings && r' == WithRing(r, off, g) && o in r.pages
    requires SoundWith(g, HolderOf(r, off)) && SameLengths(r.rings[off], g)
    ensures PageFrom(r, r', o) && IsPage(r', o) && PageOk(r', o)
  {
    SlotWithPage(r, o);
    assert ViewOk(r, o);
    var u := r.use[o];
    if u.ring == off {
      assert o in HolderOf(r, off) && HolderOf(r, off)[o] == u.slot;
      assert Q.SlotOfPage(g.slots, HolderOf(r, off), o);
    }
  }

  /** The ring at `off` becomes g, and a new page is its slot i's. */
  lemma RingAttach(r: Region, r1: Region, r': Region, off: nat, g: RingMem, i: nat, page: nat, body: Bytes)
    requires Sees(r) && off in r.rings && i < |g.slots| && Given(r, r1, page, g.slots[i].msgLen, PageOf(off, i))
    requires r' == WithRing(WithPage(r1, page, body), off, g)
    requires SoundWith(g, HolderOf(r, off)[page := i]) && SameLengths(r.rings[off], g) && g.slots[i].msgLen <= |body|
    ensures RingStep(r, r', off, page)
  {
    assert ViewOk(r, page);
    AttachFields(r, r1, r', off, g, i, page, body);
    AttachRings(r, r', off, g, i, page, body);
    AttachViews(r, r1, r', off, g, i, page, body);
  }

  lemma AttachFields(r: Region, r1: Region, r': Region, off: nat, g: RingMem, i: nat, page: nat, body: Bytes)
    requires i < |g.slots| && off in r.rings && Given(r, r1, page, g.slots[i].msgLen, PageOf(off, i))
    requires r' == WithRing(WithPage(r1, page, body), off, g)
    ensures r'.chans == r.chans && r'.groups == r.groups && r'.arrays == r.arrays && r'.rings.Keys == r.rings.Keys
    ensures r'.use == r.use[page := PageOf(off, i)] && r'.rings == r.rings[off := g] && r'.pages == r.pages[page := body]
    ensures off in r'.rings && r'.rings[off] == g && page !in r.use
  {
  }

  lemma AttachRings(r: Region, r': Region, off: nat, g: RingMem, i: nat, page: nat, body: Bytes)
    requires RingsOk(r) && off in r.rings && page !in r.use
    requires r'.use == r.use[page := PageOf(off, i)] && r'.rings == r.rings[off := g] && r'.pages == r.pages[page := body]
    requires SoundWith(g, HolderOf(r, off)[page := i])
    ensures RingsOk(r') && forall k | k in r.rings && k != off :: SameQueue(r, r', k)
  {
    AttachHolders(r, r', off, i, page);
    SameHolders(r, r', off);
  }

  lemma AttachViews(r: Region, r1: Region, r': Region, off: nat, g: RingMem, i: nat, page: nat, body: Bytes)
    requires Sees(r) && off in r.rings && i < |g.slots| && Given(r, r1, page, g.slots[i].msgLen, PageOf(off, i))
    requires r' == WithRing(WithPage(r1, page, body), off, g)
    requires SoundWith(g, HolderOf(r, off)[page := i]) && SameLengths(r.rings[off], g) && g.slots[i].msgLen <= |body|
    ensures ViewsOk(r') && PagesFrom(r, r', page)
  {
    forall o | o in r'.pages && o != page ensures PageFrom(r, r', o) {
      AttachPage(r, r1, r', off, g, i, page, body, o);
    }
    forall o ensures ViewOk(r', o) {
      AttachView(r, r1, r', off, g, i, page, body, o);
    }
  }

  lemma AttachHolders(r: Region, r': Region, off: nat, i: nat, page: nat)
    requires page !in r.use && r'.use == r.use[page := PageOf(off, i)]
    ensures HolderOf(r', off) == HolderOf(r, off)[page := i]
    ensures forall k | k != off :: HolderOf(r', k) == HolderOf(r, k)
  {
  }

  lemma DetachHolders(r: Region, r': Region, off: nat, i: nat, page: nat)
    requires UsedAs(r, page, PageOf(off, i)) && r'.use == r.use - {page}
    ensures HolderOf(r', off) == HolderOf(r, off) - {page}
    ensures forall k | k != off :: HolderOf(r', k) == HolderOf(r, k)
  {
  }

  lemma DetachRings(r: Region, r': Region, off: nat, g: RingMem, i: nat, page: nat)
    requires RingsOk(r) && off in r.rings && UsedAs(r, page, PageOf(off, i))
    requires r'.use == r.use - {page} && r'.rings == r.rings[off := g] && r'.pages == r.pages - {page}
    requires SoundWith(g, HolderOf(r, off) - {page})
    ensures RingsOk(r') && forall k | k in r.rings && k != off :: SameQueue(r, r', k)
  {
    DetachHolders(r, r', off, i, page);
    SameHolders(r, r', off);
  }

  lemma AttachPage(r: Region, r1: Region, r': Region, off: nat, g: RingMem, i: nat, page: nat, body: Bytes,
                   o: nat)
    requires Sees(r) && off in r.rings && i < |g.slots| && Given(r, r1, page, g.slots[i].msgLen, PageOf(off, i))
    requires r' == WithRing(WithPage(r1, page, body), off, g)
    requires SoundWith(g, HolderOf(r, off)[page := i]) && SameLengths(r.rings[off], g) && g.slots[i].msgLen <= |body|
    requires o in r.pages
    ensures o in r'.pages && PageFrom(r, r', o) && IsPage(r', o) && PageOk(r', o)
  {
    SlotWithPage(r, o);
    assert ViewOk(r, o);
    var u := r.use[o];
    if u.ring == off {
      assert o in HolderOf(r, off) && HolderOf(r, off)[o] == u.slot;
      assert Q.SlotOfPage(g.slots, HolderOf(r, off)[page := i], o);
    }
  }

  lemma AttachView(r: Region, r1: Region, r': Region, off: nat, g: RingMem, i: nat, page: nat, body: Bytes,
                   o: nat)
    requires Sees(r) && off in r.rings && i < |g.slots| && Given(r, r1, page, g.slots[i].msgLen, PageOf(off, i))
    requires r' == WithRing(WithPage(r1, page, body), off, g)
    requires SoundWith(g, HolderOf(r, off)[page := i]) && SameLengths(r.rings[off], g) && g.slots[i].msgLen <= |body|
    ensures ViewOk(r', o)
  {
    assert ViewOk(r, o);
    if o in r.pages {
      AttachPage(r, r1, r', off, g, i, page, body, o);
    }
  }

  /** The ring at `off` becomes g, which no longer has its page. */
  lemma RingDetach(r: Region, r1: Region, r': Region, off: nat, g: RingMem, i: nat, page: nat)
    requires Sees(r) && off in r.rings && UsedAs(r, page, PageOf(off, i)) && TakenBack(r, r1, page)
    requires r' == WithRing(r1, off, g)
    requires SoundWith(g, HolderOf(r, off) - {page}) && SameLengths(r.rings[off], g)
    ensures RingStep(r, r', off, 0)
  {
    assert ViewOk(r, page);
    assert r1.rings == r.rings && r1.arrays == r.arrays;
    DetachRings(r, r', off, g, i, page);
    DetachViews(r, r1, r', off, g, i, page);
  }

  lemma DetachViews(r: Region, r1: Region, r': Region, off: nat, g: RingMem, i: nat, page: nat)
    requires Sees(r) && off in r.rings && UsedAs(r, page, PageOf(off, i)) && TakenBack(r, r1, page)
    requires r' == WithRing(r1, off, g) && r1.rings == r.rings && r1.arrays == r.arrays
    requires SoundWith(g, HolderOf(r, off) - {page}) && SameLengths(r.rings[off], g)
    ensures ViewsOk(r') && PagesFrom(r, r', 0)
  {
    forall o | o in r'.pages ensures PageFrom(r, r', o) {
      DetachPage(r, r1, r', off, g, i, page, o);
    }
    forall o ensures ViewOk(r', o) {
      assert ViewOk(r, o);
      if o in r.pages && o != page {
        DetachPage(r, r1, r', off, g, i, page, o);
      }
    }
  }

  lemma DetachPage(r: Region, r1: Region, r': Region, off: nat, g: RingMem, i: nat, page: nat, o: nat)
    requires Sees(r) && off in r.rings && UsedAs(r, page, PageOf(off, i)) && TakenBack(r, r1, page)
    requires r' == WithRing(r1, off, g) && r1.rings == r.rings
    requires SoundWith(g, HolderOf(r, off) - {page}) && SameLengths(r.rings[off], g)
    requires o in r.pages && o != page
    ensures o in r'.pages && PageFrom(r, r', o) && IsPage(r', o) && PageOk(r', o)
  {
    SlotWithPage(r, o);
    assert ViewOk(r, o);
    var u := r.use[o];
    if u.ring == off {
      assert o in HolderOf(r, off) && HolderOf(r, off)[o] == u.slot;
      assert Q.SlotOfPage(g.slots, HolderOf(r, off) - {page}, o);
    }
  }

  // ---- Enqueue ----

  /** The ring after its next ticket was published with message m, or tombstoned. */
  function Published(g: RingMem, m: Q.Sent, page: nat): RingMem
    requires 0 < |g.slots|
  {
    var i := SlotOf(g.enq, |g.slots|);
    RingMem(g.enq + 1, g.deq, g.slots[i := Q.Filled(g.slots[i], m, page).(seq_ := g.enq + 1, owner := 0, ownerTicket := 0)])
  }

  function Tombstoned(g: RingMem): RingMem
    requires 0 < |g.slots|
  {
    var i := SlotOf(g.enq, |g.slots|);
    RingMem(g.enq + 1, g.deq, g.slots[i := g.slots[i].(seq_ := g.enq + |g.slots|, owner := 0, ownerTicket := 0)])
  }

  /** The end of an enqueue that asked for a page: the message is copied over whatever
      the page held. */
  function Overflow(r: Region, page: nat, off: nat, g: RingMem, m: Q.Sent, junk: Junk): (Region, bool)
    requires 0 < |g.slots|
  {
    if page == 0 then (WithRing(r, off, Tombstoned(g)), false)
    else (WithRing(WithPage(r, page, Overlay(junk.page, m.body)), off, Published(g, m, page)), true)
  }

  /** `try_enqueue` with nobody else running. */
  function Enqueue(cf: Config, r: Region, off: nat, m: Q.Sent, junk: Junk): (Region, bool)
    requires off in r.rings && 0 < |r.rings[off].slots|
  {
    var g := r.rings[off];
    var i := SlotOf(g.enq, |g.slots|);
    if g.slots[i].seq_ != g.enq then (r, false)
    else if |m.body| <= cf.inlineSize then (WithRing(r, off, Published(g, m, 0)), true)
    else
      var (r1, page) := Alloc(cf, r, |m.body|, PageOf(off, i));
      Overflow(r1, page, off, g, m, junk)
  }

  /** The page an enqueue is given, 0 if it asks for none or gets none. */
  function PageGiven(cf: Config, r: Region, off: nat, m: Q.Sent): nat
    requires off in r.rings && 0 < |r.rings[off].slots|
  {
    var g := r.rings[off];
    var i := SlotOf(g.enq, |g.slots|);
    if g.slots[i].seq_ != g.enq || |m.body| <= cf.inlineSize then 0 else Alloc(cf, r, |m.body|, PageOf(off, i)).1
  }

  function Appended(a: Q.Queue, m: Q.Sent, page: nat): Q.Queue {
    a.(next := a.next + 1, q := a.q + [Q.Queued(a.next, Clip(m.channel), m.body, m.expiry, page)])
  }

  /** An enqueue changes its own ring only, and there it is the enqueue of `RingQueue`,
      with the page that the region's slab hands out. */
  lemma EnqueueRefines(cf: Config, r: Region, off: nat, m: Q.Sent, junk: Junk)
    requires Ok(cf, r) && off in r.rings && 2 <= |r.rings[off].slots|
    ensures var (r', ok) := Enqueue(cf, r, off, m, junk);
            && Fits(cf, r') && RingStep(r, r', off, PageGiven(cf, r, off, m))
            && (QueueOf(r', off), ok) ==
               Q.Enqueued(QueueOf(r, off), |r.rings[off].slots|, cf.inlineSize, m, PageGiven(cf, r, off, m))
  {
    EnqueueFits(cf, r, off, m, junk);
    AllocAnswers(cf, r, |m.body|, PageOf(off, SlotOf(r.rings[off].enq, |r.rings[off].slots|)));
    EnqueueSees(cf, r, off, m, junk);
  }

  lemma EnqueueFits(cf: Config, r: Region, off: nat, m: Q.Sent, junk: Junk)
    requires Fits(cf, r) && off in r.rings && 2 <= |r.rings[off].slots|
    ensures Fits(cf, Enqueue(cf, r, off, m, junk).0)
  {
    var u := PageOf(off, SlotOf(r.rings[off].enq, |r.rings[off].slots|));
    var r1 := Alloc(cf, r, |m.body|, u).0;
    AllocFits(cf, r, r1, |m.body|, u);
    EnqueueMemory(cf, r, r1, off, m, junk, Enqueue(cf, r, off, m, junk).0);
    SameFit(cf, r, r1, Enqueue(cf, r, off, m, junk).0);
  }

  /** An enqueue touches slab memory only by its allocation. */
  predicate SameSlab(r: Region, r': Region) { r'.mem == r.mem && r'.pool == r.pool && r'.use == r.use }

  lemma EnqueueMemory(cf: Config, r: Region, r1: Region, off: nat, m: Q.Sent, junk: Junk, r': Region)
    requires off in r.rings && 2 <= |r.rings[off].slots|
    requires r1 == Alloc(cf, r, |m.body|, PageOf(off, SlotOf(r.rings[off].enq, |r.rings[off].slots|))).0
    requires r' == Enqueue(cf, r, off, m, junk).0
    ensures SameSlab(r, r') || SameSlab(r1, r')
  {
    var g := r.rings[off];
    if g.slots[SlotOf(g.enq, |g.slots|)].seq_ != g.enq {
      assert r' == r;
    } else if |m.body| <= cf.inlineSize {
      assert r' == WithRing(r, off, Published(g, m, 0));
    } else {
      var page := Alloc(cf, r, |m.body|, PageOf(off, SlotOf(g.enq, |g.slots|))).1;
      assert r' == Overflow(r1, page, off, g, m, junk).0;
    }
  }

  /** Fitting is a matter of the slab's memory and the record alone. */
  lemma SameFit(cf: Config, r: Region, r1: Region, r': Region)
    requires Fits(cf, r) && Fits(cf, r1) && (SameSlab(r, r') || SameSlab(r1, r'))
    ensures Fits(cf, r')
  {
  }

  lemma EnqueueSees(cf: Config, r: Region, off: nat, m: Q.Sent, junk: Junk)
    requires Sees(r) && off in r.rings && 2 <= |r.rings[off].slots|
    requires var u := PageOf(off, SlotOf(r.rings[off].enq, |r.rings[off].slots|));
             Answered(r, Alloc(cf, r, |m.body|, u).0, Alloc(cf, r, |m.body|, u).1, |m.body|, u)
    ensures var (r', ok) := Enqueue(cf, r, off, m, junk);
            && RingStep(r, r', off, PageGiven(cf, r, off, m))
            && (QueueOf(r', off), ok) ==
               Q.Enqueued(QueueOf(r, off), |r.rings[off].slots|, cf.inlineSize, m, PageGiven(cf, r, off, m))
  {
    var g, a := r.rings[off], QueueOf(r, off);
    assert RingOk(r, off);
    Q.OldestAtFrontier(g.slots, r.pages, g.deq, g.enq);
    if g.slots[SlotOf(g.enq, |g.slots|)].seq_ != g.enq {
      NoRingStep(r, off);
      assert Enqueue(cf, r, off, m, junk) == (r, false) && PageGiven(cf, r, off, m) == 0;
    } else if |m.body| <= cf.inlineSize {
      PublishInline(r, off, m);
      assert Enqueue(cf, r, off, m, junk) == (WithRing(r, off, Published(g, m, 0)), true) && PageGiven(cf, r, off, m) == 0;
      assert Q.Enqueued(a, |g.slots|, cf.inlineSize, m, 0) == (Appended(a, m, 0), true);
    } else {
      OverflowSees(cf, r, off, m, junk);
      var page := PageGiven(cf, r, off, m);
      assert Q.Enqueued(a, |g.slots|, cf.inlineSize, m, page)
          == if page == 0 then (a.(next := a.next + 1), false) else (Appended(a, m, page), true);
    }
  }

  lemma OverflowSees(cf: Config, r: Region, off: nat, m: Q.Sent, junk: Junk)
    requires Sees(r) && off in r.rings && 2 <= |r.rings[off].slots| && |m.body| > cf.inlineSize
    requires r.rings[off].slots[SlotOf(r.rings[off].enq, |r.rings[off].slots|)].seq_ == r.rings[off].enq
    requires var u := PageOf(off, SlotOf(r.rings[off].enq, |r.rings[off].slots|));
             Answered(r, Alloc(cf, r, |m.body|, u).0, Alloc(cf, r, |m.body|, u).1, |m.body|, u)
    ensures var (r', ok), page := Enqueue(cf, r, off, m, junk), PageGiven(cf, r, off, m);
            && RingStep(r, r', off, page) && ok == (page != 0)
            && QueueOf(r', off) == if page == 0 then QueueOf(r, off).(next := r.rings[off].enq + 1)
                                   else Appended(QueueOf(r, off), m, page)
  {
    var g := r.rings[off];
    var (r1, page) := Alloc(cf, r, |m.body|, PageOf(off, SlotOf(g.enq, |g.slots|)));
    OverflowRefines(r, r1, page, off, m, junk);
    assert Enqueue(cf, r, off, m, junk) == Overflow(r1, page, off, g, m, junk);
  }

  lemma OverflowRefines(r: Region, r1: Region, page: nat, off: nat, m: Q.Sent, junk: Junk)
    requires Sees(r) && off in r.rings && 2 <= |r.rings[off].slots|
    requires var g := r.rings[off];
             var i := SlotOf(g.enq, |g.slots|);
             g.slots[i].seq_ == g.enq && if page == 0 then r1 == r else Given(r, r1, page, |m.body|, PageOf(off, i))
    ensures var (r', ok) := Overflow(r1, page, off, r.rings[off], m, junk);
            && RingStep(r, r', off, page) && ok == (page != 0)
            && r'.mem == r1.mem && r'.pool == r1.pool && r'.use == r1.use
            && QueueOf(r', off) == if page == 0 then QueueOf(r, off).(next := r.rings[off].enq + 1)
                                   else Appended(QueueOf(r, off), m, page)
  {
    if page == 0 {
      Tombstone(r, off, m);
    } else {
      PublishPage(r, r1, off, m, page, Overlay(junk.page, m.body));
    }
  }

  lemma NoRingStep(r: Region, off: nat)
    requires Sees(r) && off in r.rings
    ensures RingStep(r, r, off, 0)
  {
    assert r == WithRing(r, off, r.rings[off]);
    assert RingOk(r, off);
    RingOnly(r, r, off, r.rings[off]);
  }

  lemma PublishInline(r: Region, off: nat, m: Q.Sent)
    requires Sees(r) && off in r.rings && 2 <= |r.rings[off].slots|
    requires var g := r.rings[off]; g.slots[SlotOf(g.enq, |g.slots|)].seq_ == g.enq
    ensures var r' := WithRing(r, off, Published(r.rings[off], m, 0));
            RingStep(r, r', off, 0) && QueueOf(r', off) == Appended(QueueOf(r, off), m, 0)
  {
    var g, h := r.rings[off], HolderOf(r, off);
    assert RingOk(r, off);
    Q.PublishedAhead(g.slots, Published(g, m, 0).slots, r.pages, g.deq, g.enq, m, 0, h.Keys, h);
    RingOnly(r, WithRing(r, off, Published(g, m, 0)), off, Published(g, m, 0));
  }

  lemma Tombstone(r: Region, off: nat, m: Q.Sent)
    requires Sees(r) && off in r.rings && 2 <= |r.rings[off].slots|
    requires var g := r.rings[off]; g.slots[SlotOf(g.enq, |g.slots|)].seq_ == g.enq
    ensures var r' := WithRing(r, off, Tombstoned(r.rings[off]));
            RingStep(r, r', off, 0) && QueueOf(r', off) == QueueOf(r, off).(next := r.rings[off].enq + 1)
  {
    var g, h := r.rings[off], HolderOf(r, off);
    assert RingOk(r, off);
    Q.Tombstoned(g.slots, Tombstoned(g).slots, r.pages, g.deq, g.enq, h.Keys, h, m);
    RingOnly(r, WithRing(r, off, Tombstoned(g)), off, Tombstoned(g));
  }

  lemma PublishPage(r: Region, r1: Region, off: nat, m: Q.Sent, page: nat, body: Bytes)
    requires Sees(r) && off in r.rings && 2 <= |r.rings[off].slots|
    requires var g := r.rings[off];
             var i := SlotOf(g.enq, |g.slots|);
             g.slots[i].seq_ == g.enq && Given(r, r1, page, |m.body|, PageOf(off, i))
    requires m.body <= body
    ensures var r' := WithRing(WithPage(r1, page, body), off, Published(r.rings[off], m, page));
            RingStep(r, r', off, page) && QueueOf(r', off) == Appended(QueueOf(r, off), m, page)
  {
    var g := r.rings[off];
    var i, g' := SlotOf(g.enq, |g.slots|), Published(g, m, page);
    assert RingOk(r, off) && ViewOk(r, page);
    PublishedIn(g, HolderOf(r, off), r.pages, m, page, body);
    RingAttach(r, r1, WithRing(WithPage(r1, page, body), off, g'), off, g', i, page, body);
  }

  /** The ring itself, once message m is published with a page that starts with it. */
  lemma PublishedIn(g: RingMem, holder: map<nat, nat>, pages: map<nat, Bytes>, m: Q.Sent, page: nat, body: Bytes)
    requires SoundWith(g, holder) && g.slots[SlotOf(g.enq, |g.slots|)].seq_ == g.enq
    requires page != 0 && page !in holder && m.body <= body
    ensures var g' := Published(g, m, page);
            && SoundWith(g', holder[page := SlotOf(g.enq, |g.slots|)]) && SameLengths(g, g')
            && QueueIn(g', pages[page := body]) == Appended(QueueIn(g, pages), m, page)
  {
    var held := pages[page := body];
    OtherPages(g, holder, pages, held);
    assert Overlay(body, m.body) == body;
    assert Q.Stored(held, page, m.body) == held;
    Q.PublishedAhead(g.slots, Published(g, m, page).slots, held, g.deq, g.enq, m, page, holder.Keys, holder);
    assert holder[page := SlotOf(g.enq, |g.slots|)].Keys == holder.Keys + {page};
    Q.EmptyHoldsNothing(g.slots, g.deq, g.enq, holder);
  }

  /** Two changes of one ring, the second without a new page. */
  lemma RingStepTwice(r: Region, r1: Region, r2: Region, off: nat, page: nat)
    requires RingStep(r, r1, off, page) && RingStep(r1, r2, off, 0) && 0 !in r2.pages
    ensures RingStep(r, r2, off, page)
  {
    forall k | k in r.rings && k != off ensures SameQueue(r, r2, k) {
      assert SameQueue(r, r1, k) && SameQueue(r1, r2, k);
    }
    forall o | o in r2.pages && o != page ensures PageFrom(r, r2, o) {
      assert PageFrom(r1, r2, o) && PageFrom(r, r1, o);
    }
  }

  // ---- Dequeue ----

  function Body(r: Region, s: Q.Slot): Bytes {
    ReadBytes(if s.overflow != 0 then Q.Lookup(r.pages, s.overflow) else s.inline, s.msgLen)
  }

  /** The ring after the message at its dequeue position was recycled. */
  function Recycled(g: RingMem): RingMem
    requires 0 < |g.slots|
  {
    RingMem(g.enq, g.deq + 1, Q.AfterTake(g.slots, g.deq))
  }

  /** The slot and page of the message at the dequeue position, given back. */
  function Consume(cf: Config, r: Region, off: nat): (r': Region)
    requires off in r.rings && 0 < |r.rings[off].slots|
    ensures off in r'.rings && r'.rings[off] == Recycled(r.rings[off])
  {
    var g := r.rings[off];
    var s := g.slots[SlotOf(g.deq, |g.slots|)];
    WithRing(Free(cf, r, s.overflow, s.msgLen), off, Recycled(g))
  }

  /** One turn of the dequeue loop: go round again, or stop with an answer. */
  datatype Turn = Again(r: Region) | Stop(r: Region, m: Option<(Bytes, Bytes)>)

  /** The slot at the dequeue position is behind exactly when the two positions meet
      (`RingQueue.DequeuePosition`). */
  function Try(cf: Config, r: Region, off: nat, now: int): (t: Turn)
    requires off in r.rings && 0 < |r.rings[off].slots|
    ensures t.Again? ==>
              && off in t.r.rings && |t.r.rings[off].slots| == |r.rings[off].slots|
              && t.r.rings[off].enq == r.rings[off].enq && t.r.rings[off].deq == r.rings[off].deq + 1 <= r.rings[off].enq
  {
    var g := r.rings[off];
    var s := g.slots[SlotOf(g.deq, |g.slots|)];
    if g.deq >= g.enq || s.seq_ < g.deq + 1 then Stop(r, None)
    else if s.seq_ > g.deq + 1 then Again(WithRing(r, off, g.(deq := g.deq + 1)))
    else if now > s.expiry then Again(Consume(cf, r, off))
    else Stop(Consume(cf, r, off), Some((ReadBytes(s.channel, s.channelLen), Body(r, s))))
  }

  /** `try_dequeue` with nobody else running. */
  function Dequeue(cf: Config, r: Region, off: nat, now: int): (Region, Option<(Bytes, Bytes)>)
    requires off in r.rings && 0 < |r.rings[off].slots|
    decreases r.rings[off].enq - r.rings[off].deq
  {
    match Try(cf, r, off, now)
    case Again(r') => Dequeue(cf, r', off, now)
    case Stop(r', m) => (r', m)
  }

  /** The message at the dequeue position, which is waiting. */
  ghost predicate Waiting(r: Region, off: nat)
    requires off in r.rings
  {
    var g := r.rings[off];
    2 <= |g.slots| && g.deq < g.enq && g.slots[SlotOf(g.deq, |g.slots|)].seq_ == g.deq + 1
  }

  /** What freeing the page of slot i comes to. */
  ghost predicate Released(r: Region, r1: Region, page: nat) {
    if page == 0 then r1 == r else TakenBack(r, r1, page)
  }

  lemma ReleasePage(cf: Config, r: Region, off: nat, i: nat)
    requires Ok(cf, r) && off in r.rings && i < |r.rings[off].slots|
    ensures var s := r.rings[off].slots[i];
            && Released(r, Free(cf, r, s.overflow, s.msgLen), s.overflow)
            && Fits(cf, Free(cf, r, s.overflow, s.msgLen))
  {
    var s := r.rings[off].slots[i];
    if s.overflow != 0 {
      PageOfRing(r, off, i);
      FreeTakesBack(cf, r, s.overflow, s.msgLen);
    }
  }

  lemma ConsumeSees(r: Region, r1: Region, off: nat)
    requires Sees(r) && off in r.rings && Waiting(r, off)
    requires var g := r.rings[off]; Released(r, r1, g.slots[SlotOf(g.deq, |g.slots|)].overflow)
    ensures var r' := WithRing(r1, off, Recycled(r.rings[off]));
            && RingStep(r, r', off, 0)
            && var g := r.rings[off];
               && QueueOf(r', off).head == g.deq + 1 && QueueOf(r', off).next == g.enq
               && QueueOf(r, off).q == [Q.Held(g.slots[SlotOf(g.deq, |g.slots|)], r.pages, g.deq)] + QueueOf(r', off).q
  {
    var g, h := r.rings[off], HolderOf(r, off);
    var i := SlotOf(g.deq, |g.slots|);
    var page := g.slots[i].overflow;
    var r' := WithRing(r1, off, Recycled(g));
    assert RingOk(r, off);
    Q.Taken(g.slots, r.pages, g.deq, g.enq, h.Keys, h);
    assert Q.Without(h.Keys, page) == Q.WithoutKey(h, page).Keys;
    if page == 0 {
      RingOnly(r, r', off, Recycled(g));
    } else {
      PageOfRing(r, off, i);
      OtherPages(Recycled(g), h - {page}, r.pages, r.pages - {page});
      RingDetach(r, r1, r', off, Recycled(g), i, page);
    }
  }

  /** Freeing the page at the dequeue position, whether or not it happens. */
  function FreeHead(cf: Config, r: Region, off: nat): Region
    requires off in r.rings && 0 < |r.rings[off].slots|
  {
    var g := r.rings[off];
    var s := g.slots[SlotOf(g.deq, |g.slots|)];
    Free(cf, r, s.overflow, s.msgLen)
  }

  ghost predicate HeadReleased(cf: Config, r: Region, off: nat)
    requires off in r.rings && 0 < |r.rings[off].slots|
  {
    var g := r.rings[off];
    Released(r, FreeHead(cf, r, off), g.slots[SlotOf(g.deq, |g.slots|)].overflow)
  }

  lemma SkipRefines(r: Region, off: nat, r': Region)
    requires Sees(r) && off in r.rings && r.rings[off].deq < r.rings[off].enq && 2 <= |r.rings[off].slots|
    requires var g := r.rings[off];
             g.slots[SlotOf(g.deq, |g.slots|)].seq_ != g.deq + 1 && r' == WithRing(r, off, g.(deq := g.deq + 1))
    ensures RingStep(r, r', off, 0) && QueueOf(r', off) == QueueOf(r, off).(head := r.rings[off].deq + 1)
  {
    var g, h := r.rings[off], HolderOf(r, off);
    assert RingOk(r, off);
    Q.StepOver(g.slots, r.pages, g.deq, g.enq, h.Keys, h);
    RingOnly(r, r', off, g.(deq := g.deq + 1));
  }

  /** What one turn comes to. */
  ghost predicate TurnOk(r: Region, off: nat, now: int, t: Turn)
    requires off in r.rings && 2 <= |r.rings[off].slots|
  {
    && RingStep(r, t.r, off, 0)
    && (t.Again? ==> Q.Dequeued(QueueOf(t.r, off), now) == Q.Dequeued(QueueOf(r, off), now))
    && (t.Stop? ==> Q.Dequeued(QueueOf(r, off), now) == (QueueOf(t.r, off), t.m))
  }

  lemma TakeTurn(cf: Config, r: Region, off: nat, now: int)
    requires Sees(r) && off in r.rings && Waiting(r, off) && HeadReleased(cf, r, off)
    ensures TurnOk(r, off, now, Try(cf, r, off, now))
  {
    var g := r.rings[off];
    var s, r' := g.slots[SlotOf(g.deq, |g.slots|)], Consume(cf, r, off);
    ConsumeSees(r, FreeHead(cf, r, off), off);
    TakenIs(r, r', off, now, g, s);
    if now > s.expiry {
      assert Try(cf, r, off, now) == Again(r');
    } else {
      assert Try(cf, r, off, now) == Stop(r', Some((ReadBytes(s.channel, s.channelLen), Body(r, s))));
    }
  }

  lemma TakenIs(r: Region, r': Region, off: nat, now: int, g: RingMem, s: Q.Slot)
    requires off in r.rings && off in r'.rings && g == r.rings[off] && 0 < |g.slots| && 0 < |r'.rings[off].slots|
    requires s == g.slots[SlotOf(g.deq, |g.slots|)]
    requires QueueOf(r', off).head == g.deq + 1 && QueueOf(r', off).next == g.enq
    requires QueueOf(r, off).q == [Q.Held(s, r.pages, g.deq)] + QueueOf(r', off).q
    ensures Q.Dequeued(QueueOf(r, off), now) ==
            if now > s.expiry then Q.Dequeued(QueueOf(r', off), now)
            else (QueueOf(r', off), Some((ReadBytes(s.channel, s.channelLen), Body(r, s))))
  {
    Q.DequeuedHead(g.deq, g.enq, Q.Held(s, r.pages, g.deq), QueueOf(r', off).q, now);
  }

  lemma EmptyTurn(cf: Config, r: Region, off: nat, now: int)
    requires Sees(r) && off in r.rings && 2 <= |r.rings[off].slots| && r.rings[off].deq >= r.rings[off].enq
    ensures TurnOk(r, off, now, Try(cf, r, off, now))
  {
    var g := r.rings[off];
    assert RingOk(r, off);
    NoRingStep(r, off);
    assert QueueOf(r, off) == Q.Queue(g.deq, g.deq, []);
    assert Try(cf, r, off, now) == Stop(r, None);
  }

  lemma SkipTurn(cf: Config, r: Region, off: nat, now: int)
    requires Sees(r) && off in r.rings && 2 <= |r.rings[off].slots| && r.rings[off].deq < r.rings[off].enq
    requires !Waiting(r, off)
    ensures TurnOk(r, off, now, Try(cf, r, off, now))
  {
    var g := r.rings[off];
    var r' := WithRing(r, off, g.(deq := g.deq + 1));
    assert RingOk(r, off);
    Q.DequeuePosition(g.slots, r.pages, g.deq, g.enq);
    SkipRefines(r, off, r');
    Q.DequeuedAnyHead(g.deq, g.deq + 1, g.enq, QueueOf(r, off).q, now);
    assert Try(cf, r, off, now) == Again(r');
  }

  lemma TryFits(cf: Config, r: Region, off: nat, now: int)
    requires Ok(cf, r) && off in r.rings && 2 <= |r.rings[off].slots|
    ensures Fits(cf, Try(cf, r, off, now).r) && HeadReleased(cf, r, off)
  {
    var r1, r' := FreeHead(cf, r, off), Try(cf, r, off, now).r;
    ReleasePage(cf, r, off, SlotOf(r.rings[off].deq, |r.rings[off].slots|));
    TryMemory(cf, r, off, now);
    SameFit(cf, r, r1, r');
  }

  lemma TryMemory(cf: Config, r: Region, off: nat, now: int)
    requires off in r.rings && 2 <= |r.rings[off].slots|
    ensures SameSlab(r, Try(cf, r, off, now).r) || SameSlab(FreeHead(cf, r, off), Try(cf, r, off, now).r)
  {
    var g := r.rings[off];
    var s, r' := g.slots[SlotOf(g.deq, |g.slots|)], Try(cf, r, off, now).r;
    if g.deq >= g.enq || s.seq_ < g.deq + 1 {
      assert r' == r;
    } else if s.seq_ > g.deq + 1 {
      assert r' == WithRing(r, off, g.(deq := g.deq + 1));
    } else {
      assert r' == WithRing(FreeHead(cf, r, off), off, Recycled(g));
    }
  }

  /** One turn of a dequeue is one turn of the queue's. */
  lemma TryRefines(cf: Config, r: Region, off: nat, now: int)
    requires Sees(r) && off in r.rings && 2 <= |r.rings[off].slots| && HeadReleased(cf, r, off)
    ensures TurnOk(r, off, now, Try(cf, r, off, now))
  {
    if Waiting(r, off) {
      TakeTurn(cf, r, off, now);
    } else if r.rings[off].deq >= r.rings[off].enq {
      EmptyTurn(cf, r, off, now);
    } else {
      SkipTurn(cf, r, off, now);
    }
  }

  /** A dequeue changes its own ring only, and there it is the dequeue of `RingQueue`;
      the pages of the messages it removes go back to the slab. */
  lemma {:induction false} DequeueRefines(cf: Config, r: Region, off: nat, now: int)
    requires Ok(cf, r) && off in r.rings && 2 <= |r.rings[off].slots|
    ensures var (r', m) := Dequeue(cf, r, off, now);
            && Fits(cf, r') && RingStep(r, r', off, 0)
            && (QueueOf(r', off), m) == Q.Dequeued(QueueOf(r, off), now)
    decreases r.rings[off].enq - r.rings[off].deq
  {
    TryFits(cf, r, off, now);
    TryRefines(cf, r, off, now);
    var t := Try(cf, r, off, now);
    if t.Again? {
      DequeueRefines(cf, t.r, off, now);
      var r' := Dequeue(cf, t.r, off, now).0;
      PagesNotZero(cf, r');
      RingStepTwice(r, t.r, r', off, 0);
    }
  }

  lemma PagesNotZero(cf: Config, r: Region)
    requires Fits(cf, r) && Sees(r)
    ensures 0 !in r.pages
  {
    NeverZero(cf, r);
    assert ViewOk(r, 0);
  }

  // ---- Compaction ----

  /** One slot of a compact pass. */
  function CompactSlot(cf: Config, r: Region, off: nat, i: nat, m: nat): (r': Region)
    requires off in r.rings && i < |r.rings[off].slots|
    ensures r'.chans == r.chans && off in r'.rings && |r'.rings[off].slots| == |r.rings[off].slots|
  {
    var g := r.rings[off];
    var s, cap := g.slots[i], |g.slots|;
    WithRing(if Q.Stuck(s, m, cap) && s.mark then Free(cf, r, s.overflow, s.msgLen) else r,
             off, g.(slots := g.slots[i := Q.Compacted(s, i, m, cap)]))
  }

  function CompactRing(cf: Config, r: Region, off: nat, i: nat, m: nat): (r': Region)
    requires off in r.rings
    ensures r'.chans == r.chans
    decreases |r.rings[off].slots| - i
  {
    if i >= |r.rings[off].slots| then r else CompactRing(cf, CompactSlot(cf, r, off, i, m), off, i + 1, m)
  }

  /** `index::compact`: every ring registered in the index. */
  function CompactAll(cf: Config, r: Region, k: nat): Region
    decreases |r.chans| - k
  {
    if k >= |r.chans| then r
    else if r.chans[k].nameLen > 0 && r.chans[k].ring != 0 && r.chans[k].ring in r.rings then
      var g := r.rings[r.chans[k].ring];
      CompactAll(cf, CompactRing(cf, r, r.chans[k].ring, 0, Max(g.enq, g.deq)), k + 1)
    else CompactAll(cf, r, k + 1)
  }

  /** The two rings differ in marks only, and none was set. */
  ghost predicate SameButMarks(g: RingMem, g': RingMem) {
    && g'.enq == g.enq && g'.deq == g.deq && |g'.slots| == |g.slots|
    && forall i | 0 <= i < |g.slots| ::
         g'.slots[i] == g.slots[i].(mark := g'.slots[i].mark) && (g'.slots[i].mark ==> g.slots[i].mark)
  }

  /** Only marks of ring slots differ. */
  ghost predicate MarksOnly(r: Region, r': Region) {
    && r' == r.(rings := r'.rings) && r'.rings.Keys == r.rings.Keys
    && forall k | k in r.rings :: SameButMarks(r.rings[k], r'.rings[k])
  }

  /** Marks matter to nobody. */
  lemma MarksInvisible(r: Region, r': Region)
    requires Sees(r) && MarksOnly(r, r')
    ensures Sees(r')
    ensures forall k | k in r.rings :: 2 <= |r.rings[k].slots| == |r'.rings[k].slots| && QueueOf(r', k) == QueueOf(r, k)
  {
    forall k | k in r.rings
      ensures RingOk(r', k) && 2 <= |r.rings[k].slots| == |r'.rings[k].slots| && QueueOf(r', k) == QueueOf(r, k)
    {
      var g, g', h := r.rings[k], r'.rings[k], HolderOf(r, k);
      assert RingOk(r, k) && SameButMarks(g, g');
      assert HolderOf(r', k) == h;
      Q.MarksInvisible(g.slots, g'.slots, r.pages, g.deq, g.enq, h.Keys, h);
    }
    forall o ensures ViewOk(r', o) {
      assert ViewOk(r, o);
      if IsPage(r, o) {
        assert SameButMarks(r.rings[r.use[o].ring], r'.rings[r.use[o].ring]);
      }
    }
  }

  lemma SlotUnmarked(cf: Config, r: Region, off: nat, i: nat)
    requires Sees(r) && off in r.rings && i < |r.rings[off].slots|
    ensures var g := r.rings[off];
            var r' := CompactSlot(cf, r, off, i, Max(g.enq, g.deq));
            MarksOnly(r, r') && r' == WithRing(r, off, g.(slots := g.slots[i := g.slots[i].(mark := false)]))
  {
    var g := r.rings[off];
    var m := Max(g.enq, g.deq);
    assert RingOk(r, off);
    Q.NothingStuck(g.slots, g.deq, g.enq, i);
    assert CompactSlot(cf, r, off, i, m) == WithRing(r, off, g.(slots := g.slots[i := g.slots[i].(mark := false)]));
  }

  lemma MarksTwice(r: Region, r1: Region, r2: Region)
    requires MarksOnly(r, r1) && MarksOnly(r1, r2)
    ensures MarksOnly(r, r2)
  {
    forall k | k in r.rings ensures SameButMarks(r.rings[k], r2.rings[k]) {
      assert SameButMarks(r.rings[k], r1.rings[k]) && SameButMarks(r1.rings[k], r2.rings[k]);
    }
  }

  lemma {:induction false} RingUnmarked(cf: Config, r: Region, off: nat, i: nat, m: nat)
    requires Sees(r) && off in r.rings && m == Max(r.rings[off].enq, r.rings[off].deq)
    ensures MarksOnly(r, CompactRing(cf, r, off, i, m)) && Sees(CompactRing(cf, r, off, i, m))
    decreases |r.rings[off].slots| - i
  {
    if i < |r.rings[off].slots| {
      var r1 := CompactSlot(cf, r, off, i, m);
      SlotUnmarked(cf, r, off, i);
      MarksInvisible(r, r1);
      assert SameButMarks(r.rings[off], r1.rings[off]);
      RingUnmarked(cf, r1, off, i + 1, m);
      MarksTwice(r, r1, CompactRing(cf, r1, off, i + 1, m));
    }
  }

  lemma {:induction false} AllUnmarked(cf: Config, r: Region, k: nat)
    requires Sees(r)
    ensures MarksOnly(r, CompactAll(cf, r, k))
    decreases |r.chans| - k
  {
    if k < |r.chans| {
      var off := r.chans[k].ring;
      if r.chans[k].nameLen > 0 && off != 0 && off in r.rings {
        var m := Max(r.rings[off].enq, r.rings[off].deq);
        RingUnmarked(cf, r, off, 0, m);
        AllUnmarked(cf, CompactRing(cf, r, off, 0, m), k + 1);
        MarksTwice(r, CompactRing(cf, r, off, 0, m), CompactAll(cf, r, k));
      } else {
        AllUnmarked(cf, r, k + 1);
      }
    } else {
      assert CompactAll(cf, r, k) == r;
    }
  }

  /** The marks of slots i and later are cleared. */
  function ClearedFrom(g: RingMem, i: nat): RingMem {
    g.(slots := seq(|g.slots|, j requires 0 <= j < |g.slots| =>
                      if i <= j then g.slots[j].(mark := false) else g.slots[j]))
  }

  /** One slot of a pass, and the same to do from the next slot on. */
  lemma ClearStep(cf: Config, r: Region, r1: Region, off: nat, i: nat)
    requires Sees(r) && off in r.rings && i < |r.rings[off].slots|
    requires r1 == CompactSlot(cf, r, off, i, Max(r.rings[off].enq, r.rings[off].deq))
    ensures Sees(r1) && SameButMarks(r.rings[off], r1.rings[off])
    ensures WithRing(r1, off, ClearedFrom(r1.rings[off], i + 1)) == WithRing(r, off, ClearedFrom(r.rings[off], i))
  {
    var g := r.rings[off];
    SlotUnmarked(cf, r, off, i);
    MarksInvisible(r, r1);
    ClearOneMore(g, r1.rings[off], i);
  }

  lemma NothingLeft(r: Region, off: nat, i: nat)
    requires off in r.rings && |r.rings[off].slots| <= i
    ensures WithRing(r, off, ClearedFrom(r.rings[off], i)) == r
  {
    assert ClearedFrom(r.rings[off], i).slots == r.rings[off].slots;
  }

  /** All that a pass does to a ring. */
  lemma {:induction false} RingClears(cf: Config, r: Region, off: nat, i: nat, m: nat)
    requires Sees(r) && off in r.rings && m == Max(r.rings[off].enq, r.rings[off].deq)
    ensures CompactRing(cf, r, off, i, m) == WithRing(r, off, ClearedFrom(r.rings[off], i))
    decreases |r.rings[off].slots| - i
  {
    if i < |r.rings[off].slots| {
      var r1 := CompactSlot(cf, r, off, i, m);
      ClearStep(cf, r, r1, off, i);
      RingClears(cf, r1, off, i + 1, m);
    } else {
      NothingLeft(r, off, i);
    }
  }

  lemma ClearOneMore(g: RingMem, g1: RingMem, i: nat)
    requires i < |g.slots| && g1 == g.(slots := g.slots[i := g.slots[i].(mark := false)])
    ensures ClearedFrom(g1, i + 1) == ClearedFrom(g, i)
  {
    var a, b := ClearedFrom(g1, i + 1).slots, ClearedFrom(g, i).slots;
    assert |a| == |b| && forall j | 0 <= j < |a| :: a[j] == b[j];
  }

  /** The ring that the k-th channel registers, if it is one. */
  predicate Registers(r: Region, k: nat, off: nat) {
    k < |r.chans| && r.chans[k].nameLen > 0 && r.chans[k].ring == off != 0 && off in r.rings
  }

  lemma CompactNext(cf: Config, r: Region, k: nat, off: nat)
    requires k < |r.chans| && off == r.chans[k].ring
    ensures CompactAll(cf, r, k) ==
            if Registers(r, k, off) then
              CompactAll(cf, CompactRing(cf, r, off, 0, Max(r.rings[off].enq, r.rings[off].deq)), k + 1)
            else CompactAll(cf, r, k + 1)
  {
  }

  predicate NoMarks(g: RingMem) { forall i | 0 <= i < |g.slots| :: !g.slots[i].mark }

  lemma RingCleared(cf: Config, r: Region, off: nat, m: nat)
    requires Sees(r) && off in r.rings && m == Max(r.rings[off].enq, r.rings[off].deq)
    ensures off in CompactRing(cf, r, off, 0, m).rings && NoMarks(CompactRing(cf, r, off, 0, m).rings[off])
  {
    RingClears(cf, r, off, 0, m);
  }

  /** The ring that the j-th channel registers has no marks after the pass. */
  lemma {:induction false} AllCleared(cf: Config, r: Region, k: nat, j: nat, off: nat)
    requires Sees(r) && k <= j && Registers(r, j, off)
    ensures off in CompactAll(cf, r, k).rings && NoMarks(CompactAll(cf, r, k).rings[off])
    decreases j - k
  {
    var o := r.chans[k].ring;
    CompactNext(cf, r, k, o);
    if Registers(r, k, o) {
      var m := Max(r.rings[o].enq, r.rings[o].deq);
      var r1 := CompactRing(cf, r, o, 0, m);
      RingUnmarked(cf, r, o, 0, m);
      if k == j {
        RingCleared(cf, r, off, m);
        AllUnmarked(cf, r1, k + 1);
        StayCleared(r1, CompactAll(cf, r1, k + 1), off);
      } else {
        AllCleared(cf, r1, k + 1, j, off);
      }
    } else {
      AllCleared(cf, r, k + 1, j, off);
    }
  }

  lemma StayCleared(r: Region, r': Region, off: nat)
    requires MarksOnly(r, r') && off in r.rings && NoMarks(r.rings[off])
    ensures off in r'.rings && NoMarks(r'.rings[off])
  {
    assert SameButMarks(r.rings[off], r'.rings[off]);
  }

  /** A compact pass over every registered ring clears its marks and is invisible
      otherwise: no ring's queue changes, and nothing at all but marks, so slab, pages,
      members and both indexes are as they were. */
  lemma CompactInvisible(cf: Config, r: Region)
    requires Ok(cf, r)
    ensures var r' := CompactAll(cf, r, 0);
            && MarksOnly(r, r') && Ok(cf, r')
            && (forall off | off in r.rings :: 2 <= |r.rings[off].slots| == |r'.rings[off].slots|
                                              && QueueOf(r', off) == QueueOf(r, off))
            && forall j: nat, off | Registers(r, j, off) :: off in r'.rings && NoMarks(r'.rings[off])
  {
    var r' := CompactAll(cf, r, 0);
    AllUnmarked(cf, r, 0);
    MarksInvisible(r, r');
    SameFit(cf, r, r, r');
    forall j: nat, off | Registers(r, j, off) ensures off in r'.rings && NoMarks(r'.rings[off]) {
      AllCleared(cf, r, 0, j, off);
    }
  }

  // ---- Groups ----

  const MEMBER_SIZE: nat := 144

  /** What a block for a member array holds before it is one. */
  function RawMembers(junk: Junk, n: nat): (r: seq<Member>)
    ensures |r| == n
  {
    seq(n, i requires 0 <= i < n => junk.members(i))
  }

  /** The slab's answer to an add: a member array, if the group has to be opened. */
  function ArrayFor(cf: Config, r: Region, group: Bytes): (Region, nat) {
    if G.Asks(cf.hash, r.groups, group) then Alloc(cf, r, cf.maxMembers * MEMBER_SIZE, ArrayBlock) else (r, 0)
  }

  function WithGroups(r: Region, groups: seq<G.Slot>, arrays: map<nat, seq<Member>>): Region {
    r.(groups := groups, arrays := arrays)
  }

  /** `GroupManager.add`. */
  function Join(cf: Config, r: Region, group: Bytes, channel: Bytes, now: nat, junk: Junk): (Region, G.Joining) {
    var (r1, off) := ArrayFor(cf, r, group);
    var (groups, arrays, j) := G.JoinedIn(GroupConfig(cf), r1.groups, r1.arrays, group, channel, now, off,
                                          RawMembers(junk, cf.maxMembers));
    (WithGroups(r1, groups, arrays), j)
  }

  /** `GroupManager.discard`. */
  function Leave(cf: Config, r: Region, group: Bytes, channel: Bytes): Region {
    var (groups, arrays) := G.LeftIn(cf.hash, r.groups, r.arrays, group, channel);
    WithGroups(r, groups, arrays)
  }

  lemma ArraysOnly(r: Region, r': Region)
    requires Sees(r) && r' == WithGroups(r, r'.groups, r'.arrays) && r'.arrays.Keys == r.arrays.Keys
    ensures Sees(r')
  {
    SeesWith(r, r');
    forall o ensures ViewOk(r', o) {
      assert ViewOk(r, o);
    }
  }

  /** Rings and their pages do not depend on blocks used for something else. */
  lemma SeesWith(r: Region, r': Region)
    requires RingsOk(r) && r'.rings == r.rings && r'.pages == r.pages
    requires forall o :: IsPage(r', o) == IsPage(r, o) && (IsPage(r, o) ==> r'.use[o] == r.use[o])
    ensures RingsOk(r') && forall o :: LengthOf(r', o) == LengthOf(r, o)
  {
    forall k | k in r'.rings ensures RingOk(r', k) {
      assert RingOk(r, k);
      assert HolderOf(r', k) == HolderOf(r, k);
    }
  }

  lemma ArrayGiven(r: Region, r1: Region, r': Region, b: nat, size: nat)
    requires Sees(r) && Given(r, r1, b, size, ArrayBlock)
    requires r' == WithGroups(r1, r'.groups, r'.arrays) && r'.arrays.Keys == r.arrays.Keys + {b}
    ensures Sees(r')
  {
    SeesWith(r, r');
    forall o ensures ViewOk(r', o) {
      assert ViewOk(r, o);
    }
  }

  lemma JoinArrays(cf: Config, groups: seq<G.Slot>, arrays: map<nat, seq<Member>>, group: Bytes, channel: Bytes, now: nat,
                   off: nat, raw: seq<Member>)
    requires !G.Asks(cf.hash, groups, group) ==> off == 0
    ensures G.JoinedIn(GroupConfig(cf), groups, arrays, group, channel, now, off, raw).1.Keys
            == arrays.Keys + if off != 0 then {off} else {}
  {
    var (gs, kept, i) := G.OpenedIn(cf.hash, groups, arrays, group, off, raw);
    assert kept.Keys == arrays.Keys + if off != 0 then {off} else {};
    if i.Some? && gs[i.value].members in kept {
      var s := gs[i.value];
      assert kept[s.members := AddFrom(kept[s.members], channel, now, cf.groupExpiry, 0, None).0].Keys == kept.Keys;
    }
  }

  lemma LeaveArrays(hash: Bytes -> nat, groups: seq<G.Slot>, arrays: map<nat, seq<Member>>, group: Bytes, channel: Bytes)
    ensures G.LeftIn(hash, groups, arrays, group, channel).1.Keys == arrays.Keys
  {
    var i := G.Find(groups, hash(group), group, 0);
    if i.Some? && groups[i.value].members in arrays {
      var m := groups[i.value].members;
      assert arrays[m := RemoveFrom(arrays[m], channel, 0).0].Keys == arrays.Keys;
    }
  }

  lemma JoinFits(cf: Config, r: Region, group: Bytes, channel: Bytes, now: nat, junk: Junk)
    requires Fits(cf, r)
    ensures Fits(cf, Join(cf, r, group, channel, now, junk).0)
  {
    var r1 := Alloc(cf, r, cf.maxMembers * MEMBER_SIZE, ArrayBlock).0;
    AllocFits(cf, r, r1, cf.maxMembers * MEMBER_SIZE, ArrayBlock);
    SameFit(cf, r, r1, Join(cf, r, group, channel, now, junk).0);
  }

  lemma JoinSees(cf: Config, r: Region, r1: Region, off: nat, group: Bytes, channel: Bytes, now: nat, junk: Junk)
    requires Sees(r) && (r1, off) == ArrayFor(cf, r, group)
    requires Answered(r, r1, off, cf.maxMembers * MEMBER_SIZE, ArrayBlock)
    ensures Sees(Join(cf, r, group, channel, now, junk).0)
  {
    var r' := Join(cf, r, group, channel, now, junk).0;
    assert r1.groups == r.groups;
    JoinArrays(cf, r1.groups, r1.arrays, group, channel, now, off, RawMembers(junk, cf.maxMembers));
    if off == 0 {
      assert r'.arrays.Keys == r.arrays.Keys;
      ArraysOnly(r, r');
    } else {
      ArrayGiven(r, r1, r', off, cf.maxMembers * MEMBER_SIZE);
    }
  }

  lemma ArrayAnswered(cf: Config, r: Region, group: Bytes)
    requires Fits(cf, r)
    ensures var (r1, off) := ArrayFor(cf, r, group); Answered(r, r1, off, cf.maxMembers * MEMBER_SIZE, ArrayBlock)
    ensures G.Asks(cf.hash, r.groups, group) ==>
              (ArrayFor(cf, r, group).1 == 0 <==> NoRoomFor(cf, r, cf.maxMembers * MEMBER_SIZE))
  {
    AllocAnswers(cf, r, cf.maxMembers * MEMBER_SIZE, ArrayBlock);
  }

  lemma JoinOk(cf: Config, r: Region, group: Bytes, channel: Bytes, now: nat, junk: Junk)
    requires Ok(cf, r)
    ensures Ok(cf, Join(cf, r, group, channel, now, junk).0)
  {
    JoinFits(cf, r, group, channel, now, junk);
    ArrayAnswered(cf, r, group);
    JoinSees(cf, r, ArrayFor(cf, r, group).0, ArrayFor(cf, r, group).1, group, channel, now, junk);
  }

  lemma LeaveOk(cf: Config, r: Region, group: Bytes, channel: Bytes)
    requires Ok(cf, r)
    ensures Ok(cf, Leave(cf, r, group, channel))
  {
    LeaveArrays(cf.hash, r.groups, r.arrays, group, channel);
    ArraysOnly(r, Leave(cf, r, group, channel));
    SameFit(cf, r, r, Leave(cf, r, group, channel));
  }

  // ---- Channels and their rings ----

  /** `get_ring`: the ring of a channel, if its name is in the index. */
  function RingOf(cf: Config, r: Region, name: Bytes): Option<nat> {
    var i := C.Find(r.chans, cf.hash(name), name, 0);
    if i.None? || i.value >= |r.chans| || r.chans[i.value].ring == 0 then None else Some(r.chans[i.value].ring)
  }

  function FreshSlot(junk: Junk, i: nat): Q.Slot {
    Q.Slot(i, 0, 0, false, 0, 0, junk.channels(i), 0, junk.inlines(i), 0)
  }

  /** `Ring::init` over a block that may hold anything. */
  function FreshRing(junk: Junk, cap: nat): RingMem {
    RingMem(0, 0, seq(cap, i requires 0 <= i < cap => FreshSlot(junk, i)))
  }

  lemma FreshRingSound(junk: Junk, cap: nat)
    requires 2 <= cap
    ensures SoundWith(FreshRing(junk, cap), map[])
    ensures QueueIn(FreshRing(junk, cap), map[]) == Q.Queue(0, 0, [])
  {
    Q.FreshPositions(FreshRing(junk, cap).slots);
  }

  const RING_HEADER_SIZE: nat := 48
  const SLOT_SIZE: nat := 704

  function RingSize(capacity: nat): nat { RING_HEADER_SIZE + capacity * SLOT_SIZE }

  /** The end of `get_or_create_ring`: register the new ring, or give its block back. */
  function Register(cf: Config, r: Region, off: nat, name: Bytes, capacity: nat, nonLocal: bool): (Region, Option<nat>) {
    var (chans, i) := C.CreatedIn(cf.hash, r.chans, name, C.Entry(off, capacity, nonLocal));
    if i.None? then (Free(cf, r.(chans := chans), off, RingSize(capacity)), None) else (r.(chans := chans), Some(off))
  }

  /** `get_or_create_ring`, giving up when the pool is exhausted. */
  function OpenRing(cf: Config, r: Region, name: Bytes, capacity: nat, nonLocal: bool, junk: Junk): (Region, Option<nat>) {
    if capacity < 2 then (r, None)
    else if RingOf(cf, r, name).Some? then (r, RingOf(cf, r, name))
    else
      var (r1, off) := Alloc(cf, r, RingSize(capacity), RingBlock);
      if off == 0 then (r1, None)
      else Register(cf, WithRing(r1, off, FreshRing(junk, capacity)), off, name, capacity, nonLocal)
  }

  /** No page belongs to a ring at b. */
  ghost predicate NoPagesAt(r: Region, b: nat) { forall o | IsPage(r, o) :: r.use[o].ring != b }

  lemma RingGiven(r: Region, r1: Region, b: nat, size: nat, g: RingMem)
    requires Sees(r) && Given(r, r1, b, size, RingBlock) && SoundWith(g, map[])
    ensures Sees(WithRing(r1, b, g)) && NoPagesAt(WithRing(r1, b, g), b)
  {
    var r' := WithRing(r1, b, g);
    forall o | IsPage(r', o) ensures r'.use[o].ring != b {
      assert ViewOk(r, o) && ViewOk(r, b);
    }
    NewRingSees(r, r', b, g);
    forall o ensures ViewOk(r', o) {
      NewRingView(r, r1, r', b, size, g, o);
    }
  }

  lemma NewRingSees(r: Region, r': Region, b: nat, g: RingMem)
    requires RingsOk(r) && b !in r.use && r'.use == r.use[b := RingBlock] && r'.rings == r.rings[b := g]
    requires NoPagesAt(r', b) && SoundWith(g, map[])
    ensures RingsOk(r')
  {
    NoHolder(r', b);
    forall k | k in r'.rings ensures RingOk(r', k) {
      if k != b {
        assert RingOk(r, k);
        RingStays(r, r', k);
      }
    }
  }

  lemma NoHolder(r: Region, b: nat)
    requires NoPagesAt(r, b)
    ensures HolderOf(r, b) == map[]
  {
    forall o ensures o !in HolderOf(r, b) {
      assert IsPage(r, o) ==> r.use[o].ring != b;
    }
  }

  lemma RingStays(r: Region, r': Region, k: nat)
    requires k in r.rings && RingOk(r, k) && k in r'.rings && r'.rings[k] == r.rings[k]
    requires forall o :: IsPage(r', o) == IsPage(r, o) && (IsPage(r, o) ==> r'.use[o] == r.use[o])
    ensures RingOk(r', k)
  {
    assert HolderOf(r', k) == HolderOf(r, k);
  }

  lemma NewRingView(r: Region, r1: Region, r': Region, b: nat, size: nat, g: RingMem, o: nat)
    requires ViewsOk(r) && Given(r, r1, b, size, RingBlock) && r' == WithRing(r1, b, g) && NoPagesAt(r', b)
    ensures ViewOk(r', o)
  {
    assert ViewOk(r, o);
    if o in r.pages {
      assert IsPage(r', o);
      assert LengthOf(r', o) == LengthOf(r, o);
    }
  }

  /** Giving back a block that is no page and has none. */
  lemma BlockGone(r: Region, r': Region, b: nat)
    requires Sees(r) && TakenBack(r, r', b) && !IsPage(r, b) && NoPagesAt(r, b)
    ensures Sees(r')
  {
    forall k | k in r'.rings ensures RingOk(r', k) {
      assert RingOk(r, k);
      assert HolderOf(r', k) == HolderOf(r, k);
    }
    forall o ensures ViewOk(r', o) {
      BlockGoneView(r, r', b, o);
    }
  }

  lemma BlockGoneView(r: Region, r': Region, b: nat, o: nat)
    requires ViewsOk(r) && TakenBack(r, r', b) && !IsPage(r, b) && NoPagesAt(r, b)
    ensures ViewOk(r', o)
  {
    assert ViewOk(r, o) && ViewOk(r, b);
    if o in r.pages {
      assert IsPage(r, o) && IsPage(r', o);
      assert LengthOf(r', o) == LengthOf(r, o);
    }
  }

  lemma ChansOnly(cf: Config, r: Region, chans: seq<C.Slot>)
    requires Ok(cf, r)
    ensures Ok(cf, r.(chans := chans))
  {
    SeesWith(r, r.(chans := chans));
    forall o ensures ViewOk(r.(chans := chans), o) {
      assert ViewOk(r, o);
    }
  }

  lemma RegisterOk(cf: Config, r: Region, off: nat, name: Bytes, capacity: nat, nonLocal: bool)
    requires Ok(cf, r) && UsedAs(r, off, RingBlock) && NoPagesAt(r, off)
    requires off in r.pool.blocks && r.pool.blocks[off] == S.ClassFor(RingSize(capacity))
    ensures Ok(cf, Register(cf, r, off, name, capacity, nonLocal).0)
  {
    var (chans, i) := C.CreatedIn(cf.hash, r.chans, name, C.Entry(off, capacity, nonLocal));
    var r1 := r.(chans := chans);
    ChansOnly(cf, r, chans);
    if i.None? {
      FreeTakesBack(cf, r1, off, RingSize(capacity));
      BlockGone(r1, Free(cf, r1, off, RingSize(capacity)), off);
    }
  }

  lemma NewRingOk(cf: Config, r: Region, r1: Region, off: nat, capacity: nat, junk: Junk)
    requires Ok(cf, r) && Fits(cf, r1) && Given(r, r1, off, RingSize(capacity), RingBlock) && 2 <= capacity
    ensures var r2 := WithRing(r1, off, FreshRing(junk, capacity)); Ok(cf, r2) && NoPagesAt(r2, off)
  {
    FreshRingSound(junk, capacity);
    RingGiven(r, r1, off, RingSize(capacity), FreshRing(junk, capacity));
    SameFit(cf, r, r1, WithRing(r1, off, FreshRing(junk, capacity)));
  }

  lemma OpenRingOk(cf: Config, r: Region, name: Bytes, capacity: nat, nonLocal: bool, junk: Junk)
    requires Ok(cf, r)
    ensures Ok(cf, OpenRing(cf, r, name, capacity, nonLocal, junk).0)
  {
    if capacity >= 2 && RingOf(cf, r, name).None? {
      var (r1, off) := Alloc(cf, r, RingSize(capacity), RingBlock);
      AllocFits(cf, r, r1, RingSize(capacity), RingBlock);
      AllocAnswers(cf, r, RingSize(capacity), RingBlock);
      if off != 0 {
        NewRingOk(cf, r, r1, off, capacity, junk);
        RegisterOk(cf, WithRing(r1, off, FreshRing(junk, capacity)), off, name, capacity, nonLocal);
      }
    }
  }

  // ---- Blocks on loan ----

  /** The caller of a free gives back what it has on loan, or something that the
      allocator ignores: the safety contract of `SlabAllocator::free`. */
  predicate MayGiveBack(r: Region, b: nat, size: nat) {
    b != 0 && S.ClassFor(size) < S.NUM_CLASSES ==>
      UsedAs(r, b, Loaned) && b in r.pool.blocks && r.pool.blocks[b] == S.ClassFor(size)
  }

  lemma LoanOk(cf: Config, r: Region, size: nat)
    requires Ok(cf, r)
    ensures Ok(cf, Alloc(cf, r, size, Loaned).0)
  {
    var (r1, b) := Alloc(cf, r, size, Loaned);
    AllocFits(cf, r, r1, size, Loaned);
    AllocAnswers(cf, r, size, Loaned);
    if b != 0 {
      LoanSees(r, r1, b, size);
    }
  }

  lemma LoanSees(r: Region, r1: Region, b: nat, size: nat)
    requires Sees(r) && Given(r, r1, b, size, Loaned)
    ensures Sees(r1)
  {
    SeesWith(r, r1);
    forall o ensures ViewOk(r1, o) {
      assert ViewOk(r, o);
    }
  }

  lemma GiveBackOk(cf: Config, r: Region, b: nat, size: nat)
    requires Ok(cf, r) && MayGiveBack(r, b, size)
    ensures Ok(cf, Free(cf, r, b, size))
  {
    if b != 0 && S.ClassFor(size) < S.NUM_CLASSES {
      FreeTakesBack(cf, r, b, size);
      LoanHasNoPages(r, b);
      BlockGone(r, Free(cf, r, b, size), b);
    }
  }

  lemma LoanHasNoPages(r: Region, b: nat)
    requires Sees(r) && UsedAs(r, b, Loaned)
    ensures NoPagesAt(r, b)
  {
    forall o | IsPage(r, o) ensures r.use[o].ring != b {
      assert ViewOk(r, o) && ViewOk(r, b);
    }
  }
}
