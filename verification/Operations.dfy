/** All operations on a region together, and what a region stands for: a map of
    channels, a queue of messages per ring, and a map of groups with their leases.
    From an initialised or flushed region on, whatever garbage it started from,
    every operation does to these what it should, and nothing else. */
module Operations {
  import opened Prelude
  import C = ChannelIndex
  import G = Groups
  import opened Members
  import Q = RingQueue
  import S = Slab
  import opened Regions

  // ---- Initialisation and flush ----

  function FlushedChan(s: C.Slot): C.Slot {
    s.(nameLen := 0, ring := 0, capacity := 0, nonLocal := false, version := 0)
  }

  function FlushedGroup(s: G.Slot): G.Slot {
    s.(nameLen := 0, members := 0, count := 0, active := false, version := 0)
  }

  /** Both `flush` and `shm_init` write the same fields of every index slot and zero
      the slab's metadata; the data words stay, and nothing leads to them. */
  function Blank(cf: Config, r: Region): Region {
    Region(seq(|r.chans|, i requires 0 <= i < |r.chans| => FlushedChan(r.chans[i])),
           seq(|r.groups|, i requires 0 <= i < |r.groups| => FlushedGroup(r.groups[i])),
           S.Wiped(r.mem, cf.pool), map[], map[], map[], S.EmptyPool(), map[])
  }

  lemma BlankOk(cf: Config, r: Region)
    requires S.Shape(r.mem, cf.pool, cf.end)
    ensures Ok(cf, Blank(cf, r))
  {
    S.WipedIsEmpty(r.mem, cf.pool, cf.end);
    forall o ensures ViewOk(Blank(cf, r), o) {
    }
  }

  // ---- The operations ----

  datatype Op =
    | OpLookup(name: Bytes)
    | OpOpenRing(name: Bytes, capacity: nat, nonLocal: bool)
    | OpSend(name: Bytes, m: Q.Sent)
    | OpReceive(name: Bytes, now: int)
    | OpCompact
    | OpJoin(group: Bytes, channel: Bytes, at: nat)
    | OpLeave(group: Bytes, channel: Bytes)
    | OpList(group: Bytes, at: nat)
    | OpAlloc(size: nat)
    | OpFree(block: nat, size: nat)

  datatype Result =
    | Done
    | Offset(off: Option<nat>)
    | Accepted(ok: bool)
    | Received(m: Option<(Bytes, Bytes)>)
    | Joining(j: G.Joining)
    | Names(names: seq<Bytes>)

  /** The ring of a channel, as sends and receives find it. */
  function LiveRing(cf: Config, r: Region, name: Bytes): (off: Option<nat>)
    ensures off.Some? ==> off.value in r.rings && 0 < |r.rings[off.value].slots|
  {
    var off := RingOf(cf, r, name);
    if off.None? || off.value !in r.rings || |r.rings[off.value].slots| == 0 then None else off
  }

  function Send(cf: Config, r: Region, name: Bytes, m: Q.Sent, junk: Junk): (Region, Result) {
    var off := LiveRing(cf, r, name);
    if off.None? then (r, Offset(None))
    else var (r', ok) := Enqueue(cf, r, off.value, m, junk); (r', Accepted(ok))
  }

  function Receive(cf: Config, r: Region, name: Bytes, now: int): (Region, Result) {
    var off := LiveRing(cf, r, name);
    if off.None? then (r, Offset(None)) else var (r', m) := Dequeue(cf, r, off.value, now); (r', Received(m))
  }

  function Step(cf: Config, r: Region, op: Op, junk: Junk): (Region, Result) {
    match op
    case OpLookup(name) => (r, Offset(RingOf(cf, r, name)))
    case OpOpenRing(name, capacity, nonLocal) =>
      var (r', off) := OpenRing(cf, r, name, capacity, nonLocal, junk); (r', Offset(off))
    case OpSend(name, m) => Send(cf, r, name, m, junk)
    case OpReceive(name, now) => Receive(cf, r, name, now)
    case OpCompact => (CompactAll(cf, r, 0), Done)
    case OpJoin(group, channel, at) => var (r', j) := Join(cf, r, group, channel, at, junk); (r', Joining(j))
    case OpLeave(group, channel) => (Leave(cf, r, group, channel), Done)
    case OpList(group, at) => (r, Names(G.ListedIn(GroupConfig(cf), r.groups, r.arrays, group, at)))
    case OpAlloc(size) => var (r', b) := Alloc(cf, r, size, Loaned); (r', Offset(Some(b)))
    case OpFree(b, size) => (Free(cf, r, b, size), Done)
  }

  /** Only a block on loan may be given back; everything else is always allowed. */
  predicate Legal(r: Region, op: Op) { op.OpFree? ==> MayGiveBack(r, op.block, op.size) }

  // ---- Every operation keeps the region valid ----

  lemma LiveRingHasSlots(cf: Config, r: Region, name: Bytes)
    requires Sees(r)
    ensures var off := LiveRing(cf, r, name); off.Some? ==> 2 <= |r.rings[off.value].slots|
  {
    var off := LiveRing(cf, r, name);
    assert off.Some? ==> RingOk(r, off.value);
  }

  lemma SendOk(cf: Config, r: Region, name: Bytes, m: Q.Sent, junk: Junk)
    requires Ok(cf, r)
    ensures Ok(cf, Send(cf, r, name, m, junk).0)
  {
    LiveRingHasSlots(cf, r, name);
    if LiveRing(cf, r, name).Some? {
      EnqueueRefines(cf, r, LiveRing(cf, r, name).value, m, junk);
    }
  }

  lemma ReceiveOk(cf: Config, r: Region, name: Bytes, now: int)
    requires Ok(cf, r)
    ensures Ok(cf, Receive(cf, r, name, now).0)
  {
    LiveRingHasSlots(cf, r, name);
    if LiveRing(cf, r, name).Some? {
      DequeueRefines(cf, r, LiveRing(cf, r, name).value, now);
    }
  }

  lemma StepOk(cf: Config, r: Region, op: Op, junk: Junk)
    requires Ok(cf, r) && Legal(r, op)
    ensures Ok(cf, Step(cf, r, op, junk).0)
  {
    match op
    case OpLookup(_) =>
    case OpOpenRing(name, capacity, nonLocal) => OpenRingOk(cf, r, name, capacity, nonLocal, junk);
    case OpSend(name, m) => SendOk(cf, r, name, m, junk);
    case OpReceive(name, now) => ReceiveOk(cf, r, name, now);
    case OpCompact => CompactInvisible(cf, r);
    case OpJoin(group, channel, at) => JoinOk(cf, r, group, channel, at, junk);
    case OpLeave(group, channel) => LeaveOk(cf, r, group, channel);
    case OpList(_, _) =>
    case OpAlloc(size) => LoanOk(cf, r, size);
    case OpFree(b, size) => GiveBackOk(cf, r, b, size);
  }

  // ---- Every ring and every member array lies inside its block ----

  /** Where slot i of a ring at `off` ends: 48 bytes of header, then 704 a slot. */
  function SlotEnd(off: nat, i: nat): nat { off + 48 + 704 * (i + 1) }

  /** Where entry i of a member array at `off` ends, at 144 bytes an entry. */
  function EntryEnd(off: nat, i: nat): nat { off + 144 * (i + 1) }

  predicate RingInside(blocks: S.Blocks, off: nat, n: nat) {
    off in blocks && forall i: nat | i < n :: SlotEnd(off, i) <= S.End(blocks, off)
  }

  predicate ArrayInside(blocks: S.Blocks, off: nat, n: nat) {
    off in blocks && forall i: nat | i < n :: EntryEnd(off, i) <= S.End(blocks, off)
  }

  /** No slot of a ring and no entry of a member array reaches past its block. */
  ghost predicate Roomy(r: Region) {
    && (forall o | o in r.rings :: RingInside(r.pool.blocks, o, |r.rings[o].slots|))
    && (forall o | o in r.arrays :: ArrayInside(r.pool.blocks, o, |r.arrays[o]|))
  }

  /** Blocks stay what they are, and no ring or array has grown or is new. */
  ghost predicate NoBigger(r: Region, r': Region) {
    && BlocksKept(r, r')
    && (forall o | o in r'.rings :: o in r.rings && |r'.rings[o].slots| == |r.rings[o].slots|)
    && (forall o | o in r'.arrays :: o in r.arrays && |r'.arrays[o]| == |r.arrays[o]|)
  }

  ghost predicate BlocksKept(r: Region, r': Region) {
    forall o | o in r.pool.blocks :: o in r'.pool.blocks && r'.pool.blocks[o] == r.pool.blocks[o]
  }

  lemma StaysRoomy(r: Region, r': Region)
    requires Roomy(r) && NoBigger(r, r')
    ensures Roomy(r')
  {
    forall o | o in r'.rings ensures RingInside(r'.pool.blocks, o, |r'.rings[o].slots|) {
      assert RingInside(r.pool.blocks, o, |r.rings[o].slots|);
    }
    forall o | o in r'.arrays ensures ArrayInside(r'.pool.blocks, o, |r'.arrays[o]|) {
      assert ArrayInside(r.pool.blocks, o, |r.arrays[o]|);
    }
  }

  lemma NoBiggerTwice(r: Region, r1: Region, r2: Region)
    requires NoBigger(r, r1) && NoBigger(r1, r2)
    ensures NoBigger(r, r2)
  {
  }

  lemma AllocNoBigger(cf: Config, r: Region, size: nat, u: Use)
    requires Fits(cf, r)
    ensures NoBigger(r, Alloc(cf, r, size, u).0)
  {
    AllocAnswers(cf, r, size, u);
  }

  lemma FreeNoBigger(cf: Config, r: Region, b: nat, size: nat)
    ensures NoBigger(r, Free(cf, r, b, size))
  {
  }

  lemma RingNoBigger(r: Region, off: nat, g: RingMem)
    requires off in r.rings && |g.slots| == |r.rings[off].slots|
    ensures NoBigger(r, WithRing(r, off, g))
  {
  }

  lemma EnqueueNoBigger(cf: Config, r: Region, off: nat, m: Q.Sent, junk: Junk)
    requires Fits(cf, r) && off in r.rings && 0 < |r.rings[off].slots|
    ensures NoBigger(r, Enqueue(cf, r, off, m, junk).0)
  {
    var g := r.rings[off];
    var i := SlotOf(g.enq, |g.slots|);
    if g.slots[i].seq_ == g.enq {
      if |m.body| <= cf.inlineSize {
        RingNoBigger(r, off, Published(g, m, 0));
      } else {
        var (r1, page) := Alloc(cf, r, |m.body|, PageOf(off, i));
        AllocNoBigger(cf, r, |m.body|, PageOf(off, i));
        AllocAnswers(cf, r, |m.body|, PageOf(off, i));
        OverflowNoBigger(r1, page, off, g, m, junk);
        NoBiggerTwice(r, r1, Overflow(r1, page, off, g, m, junk).0);
      }
    }
  }

  lemma OverflowNoBigger(r: Region, page: nat, off: nat, g: RingMem, m: Q.Sent, junk: Junk)
    requires off in r.rings && |r.rings[off].slots| == |g.slots| > 0
    ensures NoBigger(r, Overflow(r, page, off, g, m, junk).0)
  {
    if page == 0 {
      RingNoBigger(r, off, Tombstoned(g));
    } else {
      RingNoBigger(WithPage(r, page, Overlay(junk.page, m.body)), off, Published(g, m, page));
    }
  }

  lemma TryNoBigger(cf: Config, r: Region, off: nat, now: int)
    requires off in r.rings && 0 < |r.rings[off].slots|
    ensures NoBigger(r, Try(cf, r, off, now).r)
  {
    var g := r.rings[off];
    var s := g.slots[SlotOf(g.deq, |g.slots|)];
    if g.deq < g.enq && s.seq_ > g.deq + 1 {
      RingNoBigger(r, off, g.(deq := g.deq + 1));
    } else if g.deq < g.enq && s.seq_ == g.deq + 1 {
      HeadNoBigger(cf, r, off);
    }
  }

  lemma HeadNoBigger(cf: Config, r: Region, off: nat)
    requires off in r.rings && 0 < |r.rings[off].slots|
    ensures NoBigger(r, WithRing(FreeHead(cf, r, off), off, Recycled(r.rings[off])))
  {
  }

  lemma {:induction false} DequeueNoBigger(cf: Config, r: Region, off: nat, now: int)
    requires Ok(cf, r) && off in r.rings && 2 <= |r.rings[off].slots|
    ensures NoBigger(r, Dequeue(cf, r, off, now).0)
    decreases r.rings[off].enq - r.rings[off].deq
  {
    var t := Try(cf, r, off, now);
    TryNoBigger(cf, r, off, now);
    TryFits(cf, r, off, now);
    TryRefines(cf, r, off, now);
    if t.Again? {
      DequeueNoBigger(cf, t.r, off, now);
      NoBiggerTwice(r, t.r, Dequeue(cf, t.r, off, now).0);
    }
  }

  lemma CompactNoBigger(r: Region, r': Region)
    requires MarksOnly(r, r')
    ensures NoBigger(r, r')
  {
    forall o | o in r'.rings ensures |r'.rings[o].slots| == |r.rings[o].slots| {
      assert SameButMarks(r.rings[o], r'.rings[o]);
    }
  }

  /** A block of the size's class has room for it. */
  lemma NewArrayInside(blocks: S.Blocks, off: nat, n: nat)
    requires off in blocks && blocks[off] == S.ClassFor(n * MEMBER_SIZE)
    ensures ArrayInside(blocks, off, n)
  {
  }

  lemma NewRingInside(blocks: S.Blocks, off: nat, n: nat)
    requires off in blocks && blocks[off] == S.ClassFor(RingSize(n))
    ensures RingInside(blocks, off, n)
  {
  }

  /** Arrays keep their lengths, or are made of as many entries as were asked for. */
  ghost predicate Lengths(arrays: map<nat, seq<Member>>, arrays': map<nat, seq<Member>>, off: nat, n: nat) {
    forall o | o in arrays' ::
      if o in arrays && o != off then |arrays'[o]| == |arrays[o]| else o == off && |arrays'[o]| == n
  }

  lemma {:induction false} AddKeepsLength(ms: seq<Member>, name: Bytes, now: nat, expiry: nat, i: nat, empty: Option<nat>)
    ensures |AddFrom(ms, name, now, expiry, i, empty).0| == |ms|
    decreases |ms| - i
  {
    if i < |ms| {
      var e := if empty.None? then Some(i) else empty;
      AddKeepsLength(ms[i := ms[i].(active := false)], name, now, expiry, i + 1, e);
      AddKeepsLength(ms, name, now, expiry, i + 1, e);
      AddKeepsLength(ms, name, now, expiry, i + 1, empty);
    }
  }

  lemma {:induction false} RemoveKeepsLength(ms: seq<Member>, name: Bytes, i: nat)
    ensures |RemoveFrom(ms, name, i).0| == |ms|
    decreases |ms| - i
  {
    if i < |ms| {
      RemoveKeepsLength(ms, name, i + 1);
    }
  }

  lemma JoinLengths(gc: G.Config, groups: seq<G.Slot>, arrays: map<nat, seq<Member>>, group: Bytes, channel: Bytes, now: nat,
                    off: nat, raw: seq<Member>)
    requires off !in arrays && |raw| == gc.maxMembers && (!G.Asks(gc.hash, groups, group) ==> off == 0)
    ensures Lengths(arrays, G.JoinedIn(gc, groups, arrays, group, channel, now, off, raw).1, off, gc.maxMembers)
  {
    var (gs, kept, i) := G.OpenedIn(gc.hash, groups, arrays, group, off, raw);
    assert Lengths(arrays, kept, off, gc.maxMembers);
    if i.Some? && gs[i.value].members in kept {
      AddKeepsLength(kept[gs[i.value].members], channel, now, gc.expiry, 0, None);
    }
  }

  lemma JoinRoomy(cf: Config, r: Region, group: Bytes, channel: Bytes, at: nat, junk: Junk)
    requires Ok(cf, r) && Roomy(r)
    ensures Roomy(Join(cf, r, group, channel, at, junk).0)
  {
    var (r1, off) := ArrayFor(cf, r, group);
    var r' := Join(cf, r, group, channel, at, junk).0;
    ArrayAnswered(cf, r, group);
    NeverZero(cf, r);
    assert ViewOk(r, off);
    JoinLengths(GroupConfig(cf), r1.groups, r1.arrays, group, channel, at, off, RawMembers(junk, cf.maxMembers));
    JoinArrays(cf, r1.groups, r1.arrays, group, channel, at, off, RawMembers(junk, cf.maxMembers));
    ArrayRoomy(cf, r, r1, r', off);
  }

  lemma ArrayRoomy(cf: Config, r: Region, r1: Region, r': Region, off: nat)
    requires Roomy(r) && Answered(r, r1, off, cf.maxMembers * MEMBER_SIZE, ArrayBlock) && off !in r.arrays
    requires r' == WithGroups(r1, r'.groups, r'.arrays) && Lengths(r.arrays, r'.arrays, off, cf.maxMembers)
    requires r'.arrays.Keys == r.arrays.Keys + if off != 0 then {off} else {}
    ensures Roomy(r')
  {
    forall o | o in r'.rings ensures RingInside(r'.pool.blocks, o, |r'.rings[o].slots|) {
      assert RingInside(r.pool.blocks, o, |r.rings[o].slots|);
    }
    forall o | o in r'.arrays ensures ArrayInside(r'.pool.blocks, o, |r'.arrays[o]|) {
      if o == off {
        NewArrayInside(r'.pool.blocks, off, cf.maxMembers);
      } else {
        assert ArrayInside(r.pool.blocks, o, |r.arrays[o]|);
      }
    }
  }

  lemma LeaveRoomy(cf: Config, r: Region, group: Bytes, channel: Bytes)
    requires Roomy(r)
    ensures Roomy(Leave(cf, r, group, channel))
  {
    var r' := Leave(cf, r, group, channel);
    var i := G.Find(r.groups, cf.hash(group), group, 0);
    if i.Some? && r.groups[i.value].members in r.arrays {
      RemoveKeepsLength(r.arrays[r.groups[i.value].members], channel, 0);
    }
    StaysRoomy(r, r');
  }

  lemma OpenRingRoomy(cf: Config, r: Region, name: Bytes, capacity: nat, nonLocal: bool, junk: Junk)
    requires Ok(cf, r) && Roomy(r)
    ensures Roomy(OpenRing(cf, r, name, capacity, nonLocal, junk).0)
  {
    var (r1, off) := Alloc(cf, r, RingSize(capacity), RingBlock);
    AllocAnswers(cf, r, RingSize(capacity), RingBlock);
    if capacity >= 2 && RingOf(cf, r, name).None? && off != 0 {
      var g := FreshRing(junk, capacity);
      NewRingRoomy(r, r1, off, capacity, g);
      RegisterRoomy(cf, WithRing(r1, off, g), off, name, capacity, nonLocal);
    }
  }

  lemma NewRingRoomy(r: Region, r1: Region, off: nat, capacity: nat, g: RingMem)
    requires Roomy(r) && Given(r, r1, off, RingSize(capacity), RingBlock) && |g.slots| == capacity
    ensures Roomy(WithRing(r1, off, g))
  {
    var r' := WithRing(r1, off, g);
    forall o | o in r'.rings ensures RingInside(r'.pool.blocks, o, |r'.rings[o].slots|) {
      if o == off {
        NewRingInside(r'.pool.blocks, off, capacity);
      } else {
        assert RingInside(r.pool.blocks, o, |r.rings[o].slots|);
      }
    }
    forall o | o in r'.arrays ensures ArrayInside(r'.pool.blocks, o, |r'.arrays[o]|) {
      assert ArrayInside(r.pool.blocks, o, |r.arrays[o]|);
    }
  }

  lemma RegisterRoomy(cf: Config, r: Region, off: nat, name: Bytes, capacity: nat, nonLocal: bool)
    requires Roomy(r)
    ensures Roomy(Register(cf, r, off, name, capacity, nonLocal).0)
  {
    var chans := C.CreatedIn(cf.hash, r.chans, name, C.Entry(off, capacity, nonLocal)).0;
    FreeNoBigger(cf, r.(chans := chans), off, RingSize(capacity));
    StaysRoomy(r, Register(cf, r, off, name, capacity, nonLocal).0);
  }

  lemma SendRoomy(cf: Config, r: Region, name: Bytes, m: Q.Sent, junk: Junk)
    requires Ok(cf, r) && Roomy(r)
    ensures Roomy(Send(cf, r, name, m, junk).0)
  {
    var off := LiveRing(cf, r, name);
    if off.Some? {
      EnqueueNoBigger(cf, r, off.value, m, junk);
      StaysRoomy(r, Send(cf, r, name, m, junk).0);
    }
  }

  lemma ReceiveRoomy(cf: Config, r: Region, name: Bytes, now: int)
    requires Ok(cf, r) && Roomy(r)
    ensures Roomy(Receive(cf, r, name, now).0)
  {
    LiveRingHasSlots(cf, r, name);
    var off := LiveRing(cf, r, name);
    if off.Some? {
      DequeueNoBigger(cf, r, off.value, now);
      StaysRoomy(r, Receive(cf, r, name, now).0);
    }
  }

  lemma StepRoomy(cf: Config, r: Region, op: Op, junk: Junk)
    requires Ok(cf, r) && Roomy(r)
    ensures Roomy(Step(cf, r, op, junk).0)
  {
    match op
    case OpLookup(_) =>
    case OpOpenRing(name, capacity, nonLocal) => OpenRingRoomy(cf, r, name, capacity, nonLocal, junk);
    case OpSend(name, m) => SendRoomy(cf, r, name, m, junk);
    case OpReceive(name, now) => ReceiveRoomy(cf, r, name, now);
    case OpCompact =>
      CompactInvisible(cf, r);
      CompactNoBigger(r, CompactAll(cf, r, 0));
      StaysRoomy(r, CompactAll(cf, r, 0));
    case OpJoin(group, channel, at) => JoinRoomy(cf, r, group, channel, at, junk);
    case OpLeave(group, channel) => LeaveRoomy(cf, r, group, channel);
    case OpList(_, _) =>
    case OpAlloc(size) =>
      AllocNoBigger(cf, r, size, Loaned);
      StaysRoomy(r, Alloc(cf, r, size, Loaned).0);
    case OpFree(b, size) =>
      FreeNoBigger(cf, r, b, size);
      StaysRoomy(r, Free(cf, r, b, size));
  }

  /** The results of a sequence of operations; `junk` gives the leftovers each meets. */
  function Results(cf: Config, r: Region, ops: seq<Op>, junk: seq<Junk>): seq<Result>
    requires |junk| == |ops|
    decreases |ops|
  {
    if ops == [] then []
    else [Step(cf, r, ops[0], junk[0]).1] + Results(cf, Step(cf, r, ops[0], junk[0]).0, ops[1..], junk[1..])
  }

  /** Every free in the sequence gives back a block that is then on loan. */
  predicate AllLegal(cf: Config, r: Region, ops: seq<Op>, junk: seq<Junk>)
    requires |junk| == |ops|
    decreases |ops|
  {
    ops == [] || (Legal(r, ops[0]) && AllLegal(cf, Step(cf, r, ops[0], junk[0]).0, ops[1..], junk[1..]))
  }

  function After(cf: Config, r: Region, ops: seq<Op>, junk: seq<Junk>): Region
    requires |junk| == |ops|
    decreases |ops|
  {
    if ops == [] then r else After(cf, Step(cf, r, ops[0], junk[0]).0, ops[1..], junk[1..])
  }

  lemma {:induction false} OkAfter(cf: Config, r: Region, ops: seq<Op>, junk: seq<Junk>)
    requires Ok(cf, r) && Roomy(r) && |junk| == |ops| && AllLegal(cf, r, ops, junk)
    ensures Ok(cf, After(cf, r, ops, junk)) && Roomy(After(cf, r, ops, junk))
    decreases |ops|
  {
    if ops != [] {
      StepOk(cf, r, ops[0], junk[0]);
      StepRoomy(cf, r, ops[0], junk[0]);
      OkAfter(cf, Step(cf, r, ops[0], junk[0]).0, ops[1..], junk[1..]);
    }
  }

  /** In every reachable region, whatever garbage it started from: every block in use
      has one purpose; a ring's pages are those of its waiting messages, each in one
      slot and long enough for its message; no slot of a ring and no entry of a member
      array reaches past its block; and the slab's pool is valid. */
  lemma RegionsStayOk(cf: Config, raw: Region, ops: seq<Op>, junk: seq<Junk>)
    requires S.Shape(raw.mem, cf.pool, cf.end) && |junk| == |ops| && AllLegal(cf, Blank(cf, raw), ops, junk)
    ensures var r := After(cf, Blank(cf, raw), ops, junk); Ok(cf, r) && Roomy(r)
  {
    BlankOk(cf, raw);
    OkAfter(cf, Blank(cf, raw), ops, junk);
  }
}
