/** The ring under every interleaving of any number of producers and consumers,
    without crashes, expiry or compaction: order, exactly-once, no loss, and the
    bytes delivered are the bytes sent. */
module RingOrder {
  import opened Prelude
  import opened RingMachine
  import RingPages

  /** The part of the state the ordering argument is about. */
  datatype View = View(cap: nat, inlineSize: nat, enq: nat, deq: nat, seqs: seq<nat>, pays: seq<Payload>,
                       pages: map<nat, Bytes>, h: History)

  function V(s: State): View {
    View(s.cap, s.inlineSize, s.enq, s.deq, s.seqs, s.pays, s.pages, s.h)
  }

  ghost predicate Sized(v: View) {
    && 2 <= v.cap && |v.seqs| == |v.pays| == v.cap
    && |v.h.jobs| == |v.h.claimers| == v.enq
  }

  function SeqV(v: View, t: nat): nat
    requires 0 < v.cap == |v.seqs|
  {
    v.seqs[SlotOf(t, v.cap)]
  }

  function PayV(v: View, t: nat): Payload
    requires 0 < v.cap == |v.pays|
  {
    v.pays[SlotOf(t, v.cap)]
  }

  function PageIn(pages: map<nat, Bytes>, o: nat): Bytes {
    if o in pages then pages[o] else []
  }

  // ---- Tickets ----

  /** The ticket's slot has been released for its next round. */
  predicate Done(h: History, t: nat) { t in h.tombs || t in h.recycled }

  predicate Written(h: History, t: nat) { t in h.published || t in h.tombs }

  ghost predicate TicketInv(v: View) {
    && v.deq <= v.enq
    && v.h.recycled <= v.h.takers.Keys <= v.h.published
    && v.h.published !! v.h.tombs
    && (forall t: nat | t in v.h.published :: t < v.enq)
    && (forall t: nat | t in v.h.tombs :: t < v.enq)
    && (forall t: nat | t in v.h.takers :: t < v.deq)
    && (forall t: nat | t < v.deq :: t in v.h.takers || t in v.h.tombs)
    && (forall t: nat :: t in v.h.skips <==> t in v.h.tombs && t < v.deq)
  }

  /** What the sequence word of a claimed ticket's slot says. */
  predicate SeqOk(v: View, t: nat)
    requires 0 < v.cap == |v.seqs|
  {
    if Done(v.h, t) then SeqV(v, t) >= t + v.cap
    else if t in v.h.published then SeqV(v, t) == t + 1
    else SeqV(v, t) == t
  }

  ghost predicate SeqInv(v: View)
    requires Sized(v)
  {
    && (forall t: nat | t < v.enq :: SeqOk(v, t))
    && (forall t: nat | v.enq <= t :: SeqV(v, t) <= t)
  }

  ghost predicate LogInv(v: View) {
    && (forall i, j | 0 <= i < j < |v.h.takeLog| :: v.h.takeLog[i] < v.h.takeLog[j])
    && (forall t: nat :: t in v.h.takeLog <==> t in v.h.takers)
    && (forall i, j | 0 <= i < j < |v.h.outs| :: v.h.outs[i].ticket != v.h.outs[j].ticket)
    && v.h.returned <= v.h.recycled
    && (forall j | 0 <= j < |v.h.outs| :: OutOk(v, v.h.outs[j]))
  }

  /** A delivery is the message its ticket's producer sent, handed to the consumer
      that claimed the ticket. */
  predicate OutOk(v: View, x: Out) {
    && x.ticket in v.h.returned && x.ticket in v.h.recycled
    && x.ticket in v.h.takers && v.h.takers[x.ticket] == x.pid
    && x.ticket < |v.h.jobs| && x.chan == Clip(v.h.jobs[x.ticket].chan) && x.data == v.h.jobs[x.ticket].data
  }

  // ---- Payloads ----

  /** The first k payload stores of an enqueue of `job` into payload y have happened. */
  predicate Filled(pages: map<nat, Bytes>, y: Payload, job: Job, g: nat, k: nat) {
    && (0 < k ==> y.expiry == job.expiry)
    && (1 < k ==> y.chanLen == |Clip(job.chan)|)
    && (2 < k ==> Clip(job.chan) <= y.chanBuf)
    && (3 < k ==> y.msgLen == |job.data|)
    && (4 < k ==> if g == 0 then job.data <= y.inlineBuf else job.data <= PageIn(pages, g))
  }

  /** Payload y holds message `job` in full. */
  predicate Holds(pages: map<nat, Bytes>, inlineSize: nat, y: Payload, job: Job) {
    Filled(pages, y, job, y.overflow, 5) && (y.overflow == 0 <==> |job.data| <= inlineSize)
  }

  /** The slot of ticket t holds its message in full. */
  predicate PayloadOk(v: View, t: nat)
    requires 0 < v.cap == |v.pays| && t < |v.h.jobs|
  {
    Holds(v.pages, v.inlineSize, PayV(v, t), v.h.jobs[t])
  }

  ghost predicate ReadyInv(v: View)
    requires Sized(v)
  {
    forall t: nat | t in v.h.published && t !in v.h.takers && t < v.enq :: PayloadOk(v, t)
  }

  ghost predicate ViewInv(v: View) {
    Sized(v) && TicketInv(v) && SeqInv(v) && LogInv(v) && ReadyInv(v)
  }

  // ---- Processes ----

  /** Steps that occur without crashes, expiry, repair and compaction. */
  predicate Allowed(pc: PC) {
    pc.Idle? || IsEnqueueClaim(pc) || IsEnqueueFill(pc) || IsDequeueClaim(pc) || IsDequeueRead(pc)
  }

  /** Holding a claimed ticket that is not yet published or tombstoned. */
  predicate IsWriting(pc: PC) {
    pc.EOwner? || pc.EAlloc? || (pc.ESkip? && pc.k == 0) || pc.EWrite? || pc.EPublish?
  }

  /** Holding a taken ticket that is not yet delivered. */
  predicate IsCarrying(pc: PC) { pc.DExpiry? || IsDequeueRead(pc) }

  predicate ScanOk(v: View, pc: PC)
    requires 0 < v.cap == |v.seqs|
  {
    && (pc.ELoadSeq? ==> pc.p <= v.enq)
    && (pc.EClaim? ==> pc.p <= v.enq && (pc.p == v.enq ==> SeqV(v, pc.p) == pc.p))
    && (pc.DLoadSeq? ==> pc.p <= v.deq)
    && (pc.DSkip? ==> pc.p <= v.deq && (pc.p == v.deq ==> SeqV(v, pc.p) > pc.p + 1))
    && (pc.DClaim? ==> pc.p <= v.deq && (pc.p == v.deq ==> SeqV(v, pc.p) == pc.p + 1))
  }

  predicate WriteOk(v: View, q: nat, pc: PC)
    requires Sized(v)
  {
    IsWriting(pc) ==>
      && pc.t < v.enq && !Written(v.h, pc.t) && v.h.claimers[pc.t] == q
      && (!pc.ESkip? ==> pc.job == v.h.jobs[pc.t])
      && (pc.EWrite? ==> pc.k <= 5 && (pc.page == 0 <==> |pc.job.data| <= v.inlineSize)
                         && Filled(v.pages, PayV(v, pc.t), pc.job, pc.page, pc.k))
      && (pc.EPublish? ==> PayloadOk(v, pc.t))
  }

  predicate HasChan(pc: PC) {
    || pc.DMsgLen? || pc.DOverflow? || pc.DPage? || pc.DPageCas? || pc.DPageFree? || pc.DInline? || pc.DRecycle?
    || pc.DClear?
  }

  /** What the consumer of `job` has read so far. */
  predicate RegsOk(y: Payload, job: Job, pc: PC) {
    && (pc.DChan? ==> pc.n == |Clip(job.chan)|)
    && (HasChan(pc) ==> pc.chan == Clip(job.chan))
    && (pc.DOverflow? || pc.DPage? || pc.DInline? ==> pc.n == |job.data|)
    && (pc.DPage? ==> pc.o == y.overflow != 0)
    && (pc.DInline? ==> y.overflow == 0)
    && (pc.DPageCas? || pc.DPageFree? || pc.DRecycle? || pc.DClear? ==> pc.data == job.data)
  }

  /** The consumer still needs the slot's payload. */
  predicate NeedsPayload(pc: PC) {
    IsCarrying(pc) && !pc.DPageCas? && !pc.DPageFree? && !pc.DRecycle? && !pc.DClear?
  }

  predicate ReadOk(v: View, q: nat, pc: PC)
    requires Sized(v)
  {
    IsCarrying(pc) ==>
      && pc.t < v.enq && pc.t in v.h.takers && v.h.takers[pc.t] == q && pc.t !in v.h.returned
      && (pc.t in v.h.recycled <==> pc.DClear?)
      && (NeedsPayload(pc) ==> PayloadOk(v, pc.t))
      && RegsOk(PayV(v, pc.t), v.h.jobs[pc.t], pc)
  }

  ghost predicate ProcOk(v: View, q: nat, pc: PC)
    requires Sized(v)
  {
    Allowed(pc) && ScanOk(v, pc) && WriteOk(v, q, pc) && ReadOk(v, q, pc)
  }

  ghost predicate WritesFor(procs: map<nat, PC>, q: nat, t: nat) {
    q in procs && IsWriting(procs[q]) && procs[q].t == t
  }

  ghost predicate CarriesFor(procs: map<nat, PC>, q: nat, t: nat) {
    q in procs && IsCarrying(procs[q]) && procs[q].t == t
  }

  /** No ticket is forgotten: whoever claimed it is still at work on it. */
  ghost predicate NoLoss(v: View, procs: map<nat, PC>)
    requires Sized(v)
  {
    && (forall t: nat | t < v.enq && !Written(v.h, t) :: WritesFor(procs, v.h.claimers[t], t))
    && (forall t: nat | t in v.h.takers && t !in v.h.returned :: CarriesFor(procs, v.h.takers[t], t))
  }

  ghost predicate Inv(s: State) {
    var v := V(s);
    && Wf(s)
    && ViewInv(v)
    && (forall q | q in s.procs :: ProcOk(v, q, s.procs[q]))
    && NoLoss(v, s.procs)
  }

  // ---- The steps of this setting ----

  ghost predicate CalmChoice(s: State, pid: nat, c: Choice) {
    && Enabled(s, pid, c)
    && !c.crash && !c.dead && !c.op.Compact?
    && (s.procs[pid].DExpiry? ==> c.now <= PayAt(s, s.procs[pid].t).expiry)
  }

  ghost predicate CalmNext(s: State, s': State) {
    exists pid: nat, c: Choice :: CalmChoice(s, pid, c) && s' == Step(s, pid, c)
  }

  ghost predicate CalmRun(r: seq<State>) {
    0 < |r| && Init(r[0]) && forall i: nat | i + 1 < |r| :: CalmNextAt(r, i)
  }

  ghost predicate CalmNextAt(r: seq<State>, i: nat)
    requires i + 1 < |r|
  {
    CalmNext(r[i], r[i + 1])
  }

  // ---- Slots ----

  /** Each slot carries at most one unfinished ticket. */
  lemma OneTicketPerSlot(v: View, t: nat, u: nat)
    requires Sized(v) && SeqInv(v)
    requires t < v.enq && u < v.enq && !Done(v.h, t) && !Done(v.h, u) && SlotOf(t, v.cap) == SlotOf(u, v.cap)
    ensures t == u
  {
    assert SeqOk(v, t) && SeqOk(v, u);
    if t < u {
      SlotGap(t, u, v.cap);
    } else if u < t {
      SlotGap(u, t, v.cap);
    }
  }

  /** An unclaimed ticket whose slot is EMPTY for it shares the slot with no
      unfinished ticket. */
  lemma EmptySlotIsFree(v: View, t: nat, p: nat)
    requires Sized(v) && SeqInv(v)
    requires t < v.enq <= p && !Done(v.h, t) && SeqV(v, p) == p
    ensures SlotOf(t, v.cap) != SlotOf(p, v.cap)
  {
    assert SeqOk(v, t);
    if SlotOf(t, v.cap) == SlotOf(p, v.cap) {
      SlotGap(t, p, v.cap);
    }
  }

  /** An unfinished ticket is never lapped: `enq <= t + cap`. */
  lemma NeverLapped(v: View, t: nat)
    requires Sized(v) && SeqInv(v) && t < v.enq && !Done(v.h, t)
    ensures v.enq <= t + v.cap
  {
    assert SlotOf(t + v.cap, v.cap) == SlotOf(t, v.cap);
    assert SeqOk(v, t);
    assert t + v.cap < v.enq ==> SeqOk(v, t + v.cap);
  }

  // ---- Clauses a step leaves alone ----

  lemma SameSeqs(v: View, v': View)
    requires Sized(v) && Sized(v') && SeqInv(v)
    requires v'.cap == v.cap && v'.enq == v.enq && v'.seqs == v.seqs
    requires v'.h.published == v.h.published && v'.h.tombs == v.h.tombs && v'.h.recycled == v.h.recycled
    ensures SeqInv(v')
  {
    forall t: nat | t < v'.enq ensures SeqOk(v', t) {
      assert SeqOk(v, t);
    }
    forall t: nat | v'.enq <= t ensures SeqV(v', t) <= t {
      assert SeqV(v, t) <= t;
    }
  }

  lemma SameOuts(v: View, v': View)
    requires LogInv(v)
    requires v'.h.outs == v.h.outs && v'.h.returned == v.h.returned && v.h.recycled <= v'.h.recycled
    requires v.h.jobs <= v'.h.jobs
    requires forall t: nat | t in v.h.takers :: t in v'.h.takers && v'.h.takers[t] == v.h.takers[t]
    requires forall i, j | 0 <= i < j < |v'.h.takeLog| :: v'.h.takeLog[i] < v'.h.takeLog[j]
    requires forall t: nat :: t in v'.h.takeLog <==> t in v'.h.takers
    ensures LogInv(v')
  {
    forall j | 0 <= j < |v'.h.outs| ensures OutOk(v', v'.h.outs[j]) {
      assert OutOk(v, v.h.outs[j]);
    }
  }

  lemma SamePays(v: View, v': View)
    requires Sized(v) && Sized(v') && ReadyInv(v)
    requires v'.cap == v.cap && v'.pays == v.pays && v'.pages == v.pages && v'.inlineSize == v.inlineSize
    requires v.h.jobs <= v'.h.jobs && v'.h.published == v.h.published && v.h.takers.Keys <= v'.h.takers.Keys
    requires forall t: nat | t in v.h.published :: t < v.enq
    ensures ReadyInv(v')
  {
    forall t: nat | t in v'.h.published && t !in v'.h.takers && t < v'.enq ensures PayloadOk(v', t) {
      assert PayloadOk(v, t);
    }
  }

  // ---- Steps that leave the view alone ----

  /** The mover loads, or stores an owner record, and keeps what it holds. */
  ghost predicate LocalMove(s: State, s': State, pid: nat)
    requires Wf(s) && Sized(V(s)) && pid in s.procs
  {
    && Wf(s') && V(s') == V(s) && pid in s'.procs && s'.procs == s.procs[pid := s'.procs[pid]]
    && ProcOk(V(s), pid, s'.procs[pid])
    && (IsWriting(s.procs[pid]) ==> IsWriting(s'.procs[pid]) && s'.procs[pid].t == s.procs[pid].t)
    && (IsCarrying(s.procs[pid]) ==> IsCarrying(s'.procs[pid]) && s'.procs[pid].t == s.procs[pid].t)
  }

  lemma LocalStep(s: State, s': State, pid: nat)
    requires Inv(s) && pid in s.procs && LocalMove(s, s', pid)
    ensures Inv(s')
  {
    var v := V(s);
    forall t: nat | t < v.enq && !Written(v.h, t) ensures WritesFor(s'.procs, v.h.claimers[t], t) {
      assert WritesFor(s.procs, v.h.claimers[t], t);
    }
    forall t: nat | t in v.h.takers && t !in v.h.returned ensures CarriesFor(s'.procs, v.h.takers[t], t) {
      assert CarriesFor(s.procs, v.h.takers[t], t);
    }
  }

  // ---- Steps that write a sequence word ----

  /** The word of a claimed, unfinished ticket's slot moves on to `w`. */
  function SeqWritten(v: View, t: nat, w: nat, h: History): View
    requires 0 < v.cap == |v.seqs|
  {
    v.(seqs := v.seqs[SlotOf(t, v.cap) := w], h := h)
  }

  /** The three ways to move it: publish, tombstone, recycle. */
  predicate Publishes(v: View, t: nat, w: nat, h: History) {
    w == t + 1 && !Written(v.h, t) && h == v.h.(published := v.h.published + {t})
  }

  predicate Tombs(v: View, t: nat, w: nat, h: History) {
    w == t + v.cap && !Written(v.h, t) && h == v.h.(tombs := v.h.tombs + {t})
  }

  predicate Recycles(v: View, t: nat, w: nat, h: History) {
    w == t + v.cap && t in v.h.takers && t !in v.h.recycled && h == v.h.(recycled := v.h.recycled + {t})
  }

  predicate Moves(v: View, t: nat, w: nat, h: History) {
    t < v.enq && (Publishes(v, t, w, h) || Tombs(v, t, w, h) || Recycles(v, t, w, h))
  }

  lemma MovesUnfinished(v: View, t: nat, w: nat, h: History)
    requires ViewInv(v) && Moves(v, t, w, h)
    ensures !Done(v.h, t) && SeqV(v, t) in {t, t + 1} && SeqV(v, t) < w
    ensures forall u: nat :: u != t ==> Done(h, u) == Done(v.h, u) && Written(h, u) == Written(v.h, u)
  {
    assert SeqOk(v, t);
  }

  lemma SeqWriteKeepsSeqInv(v: View, t: nat, w: nat, h: History)
    requires ViewInv(v) && Moves(v, t, w, h)
    ensures SeqInv(SeqWritten(v, t, w, h))
  {
    var v' := SeqWritten(v, t, w, h);
    MovesUnfinished(v, t, w, h);
    assert SeqOk(v', t);
    forall u: nat | u < v.enq && u != t ensures SeqOk(v', u) {
      assert SeqOk(v, u);
      if SlotOf(u, v.cap) == SlotOf(t, v.cap) && !Done(v.h, u) {
        OneTicketPerSlot(v, t, u);
      }
    }
    forall u: nat | v.enq <= u ensures SeqV(v', u) <= u {
      assert SeqV(v, u) <= u;
      if SlotOf(u, v.cap) == SlotOf(t, v.cap) {
        SlotGap(t, u, v.cap);
      }
    }
  }

  lemma SeqWriteKeepsViewInv(v: View, t: nat, w: nat, h: History)
    requires ViewInv(v) && Moves(v, t, w, h)
    requires Publishes(v, t, w, h) ==> PayloadOk(v, t)
    ensures ViewInv(SeqWritten(v, t, w, h))
  {
    var v' := SeqWritten(v, t, w, h);
    SeqWriteKeepsSeqInv(v, t, w, h);
    assert TicketInv(v') by {
      assert forall u: nat :: Written(v'.h, u) ==> Written(v.h, u) || u == t;
    }
    assert ReadyInv(v') by {
      forall u: nat | u in v'.h.published && u !in v'.h.takers && u < v'.enq ensures PayloadOk(v', u) {
        assert PayloadOk(v, u);
      }
    }
    assert LogInv(v') by {
      forall j | 0 <= j < |v'.h.outs| ensures OutOk(v', v'.h.outs[j]) {
        assert OutOk(v, v.h.outs[j]);
      }
    }
  }

  /** Nobody else is disturbed by it. */
  lemma SeqWriteStable(v: View, t: nat, w: nat, h: History, q: nat, pc: PC)
    requires ViewInv(v) && Moves(v, t, w, h) && ProcOk(v, q, pc)
    requires IsWriting(pc) || IsCarrying(pc) ==> pc.t != t
    ensures ProcOk(SeqWritten(v, t, w, h), q, pc)
  {
    SeqWriteScanStable(v, t, w, h, pc);
    HoldStable(v, SeqWritten(v, t, w, h), q, pc);
  }

  lemma SeqWriteScanStable(v: View, t: nat, w: nat, h: History, pc: PC)
    requires ViewInv(v) && Moves(v, t, w, h) && ScanOk(v, pc)
    ensures ScanOk(SeqWritten(v, t, w, h), pc)
  {
    MovesUnfinished(v, t, w, h);
    if pc.EClaim? && pc.p == v.enq {
      EmptySlotIsFree(v, t, pc.p);
    } else if pc.DClaim? && pc.p == v.deq {
      ReadyAtDeq(v, pc.p);
      if SlotOf(pc.p, v.cap) == SlotOf(t, v.cap) {
        OneTicketPerSlot(v, t, pc.p);
      }
    }
  }

  /** What a holder of ticket u relies on besides the sequence words. */
  lemma HoldStable(v: View, v': View, q: nat, pc: PC)
    requires Sized(v) && Sized(v') && WriteOk(v, q, pc) && ReadOk(v, q, pc)
    requires v'.cap == v.cap && v'.inlineSize == v.inlineSize
    requires IsWriting(pc) || IsCarrying(pc) ==> SameTicket(v, v', pc.t)
    requires v'.pages == v.pages || (IsWriting(pc) || IsCarrying(pc) ==> SamePages(v, v', pc))
    ensures WriteOk(v', q, pc) && ReadOk(v', q, pc)
  {
  }

  /** The pages a holder relies on keep their contents. */
  predicate SamePages(v: View, v': View, pc: PC)
    requires 0 < v.cap == |v.pays| && (IsWriting(pc) || IsCarrying(pc))
  {
    && PageIn(v'.pages, PayV(v, pc.t).overflow) == PageIn(v.pages, PayV(v, pc.t).overflow)
    && (pc.EWrite? && pc.page != 0 ==> PageIn(v'.pages, pc.page) == PageIn(v.pages, pc.page))
  }

  predicate SameTicket(v: View, v': View, u: nat)
    requires Sized(v) && Sized(v') && v'.cap == v.cap
  {
    && (u < v.enq ==> u < v'.enq && v'.h.jobs[u] == v.h.jobs[u] && v'.h.claimers[u] == v.h.claimers[u])
    && Written(v'.h, u) == Written(v.h, u)
    && (u in v'.h.takers) == (u in v.h.takers)
    && (u in v.h.takers ==> v'.h.takers[u] == v.h.takers[u])
    && (u in v'.h.recycled) == (u in v.h.recycled)
    && (u in v'.h.returned) == (u in v.h.returned)
    && PayV(v', u) == PayV(v, u)
  }

  /** A sequence word one past the dequeue position marks a message ready there. */
  lemma ReadyAtDeq(v: View, p: nat)
    requires ViewInv(v) && p == v.deq && SeqV(v, p) == p + 1
    ensures p < v.enq && p in v.h.published && !Done(v.h, p) && p !in v.h.takers
  {
    if p < v.enq {
      assert SeqOk(v, p);
    }
  }

  /** A sequence word further ahead marks a tombstone. */
  lemma TombAtDeq(v: View, p: nat)
    requires ViewInv(v) && p == v.deq && SeqV(v, p) > p + 1
    ensures p < v.enq && p in v.h.tombs
  {
    if p < v.enq {
      assert SeqOk(v, p);
    }
  }

  // ---- Putting a step together ----

  /** From one state to the next: the mover's own obligations, everybody else
      undisturbed, nothing lost. */
  lemma Combine(s: State, s': State, pid: nat, pc: PC)
    requires Inv(s) && Wf(s') && pid in s.procs && s'.procs == s.procs[pid := pc]
    requires ViewInv(V(s')) && ProcOk(V(s'), pid, pc)
    requires forall q | q in s.procs && q != pid :: ProcOk(V(s'), q, s.procs[q])
    requires NoLoss(V(s'), s'.procs)
    ensures Inv(s')
  {
  }

  /** Nothing is lost when the mover keeps or finishes what it was holding. */
  lemma NothingLost(v: View, v': View, procs: map<nat, PC>, pid: nat, pc: PC)
    requires Sized(v) && Sized(v') && NoLoss(v, procs) && pid in procs
    requires v.enq <= v'.enq && v.h.claimers <= v'.h.claimers
    requires v'.enq == v.enq || (v'.enq == v.enq + 1 && IsWriting(pc) && pc.t == v.enq && v'.h.claimers[v.enq] == pid)
    requires forall t: nat | t in v'.h.takers && t !in v.h.takers :: IsCarrying(pc) && pc.t == t && v'.h.takers[t] == pid
    requires forall t: nat | Written(v.h, t) :: Written(v'.h, t)
    requires forall t: nat | t in v.h.takers :: t in v'.h.takers && v'.h.takers[t] == v.h.takers[t]
    requires v.h.returned <= v'.h.returned
    requires IsWriting(procs[pid]) ==> Written(v'.h, procs[pid].t) || (IsWriting(pc) && pc.t == procs[pid].t)
    requires IsCarrying(procs[pid]) ==> procs[pid].t in v'.h.returned || (IsCarrying(pc) && pc.t == procs[pid].t)
    ensures NoLoss(v', procs[pid := pc])
  {
    forall t: nat | t < v'.enq && !Written(v'.h, t) ensures WritesFor(procs[pid := pc], v'.h.claimers[t], t) {
      if t < v.enq {
        assert WritesFor(procs, v.h.claimers[t], t);
      }
    }
    forall t: nat | t in v'.h.takers && t !in v'.h.returned ensures CarriesFor(procs[pid := pc], v'.h.takers[t], t) {
      if t in v.h.takers {
        assert CarriesFor(procs, v.h.takers[t], t);
      }
    }
  }

  /** Two processes never hold the same ticket. */
  lemma HoldersDiffer(v: View, p: nat, a: PC, q: nat, b: PC)
    requires Sized(v) && TicketInv(v) && p != q
    requires WriteOk(v, p, a) && ReadOk(v, p, a) && WriteOk(v, q, b) && ReadOk(v, q, b)
    requires (IsWriting(a) || IsCarrying(a)) && (IsWriting(b) || IsCarrying(b))
    ensures a.t != b.t
  {
  }

  // ---- Publish, tombstone, recycle ----

  lemma SeqStep(s: State, s': State, pid: nat, pc: PC, t: nat, w: nat)
    requires Inv(s) && Wf(s') && pid in s.procs && s'.procs == s.procs[pid := pc]
    requires IsWriting(s.procs[pid]) || IsCarrying(s.procs[pid])
    requires s.procs[pid].t == t && Moves(V(s), t, w, s'.h) && V(s') == SeqWritten(V(s), t, w, s'.h)
    requires Publishes(V(s), t, w, s'.h) ==> PayloadOk(V(s), t)
    requires ProcOk(V(s'), pid, pc)
    requires IsWriting(s.procs[pid]) ==> Written(s'.h, t)
    requires IsCarrying(s.procs[pid]) ==> IsCarrying(pc) && pc.t == t
    ensures Inv(s')
  {
    var v := V(s);
    SeqWriteKeepsViewInv(v, t, w, s'.h);
    forall q | q in s.procs && q != pid ensures ProcOk(V(s'), q, s.procs[q]) {
      if IsWriting(s.procs[q]) || IsCarrying(s.procs[q]) {
        HoldersDiffer(v, pid, s.procs[pid], q, s.procs[q]);
      }
      SeqWriteStable(v, t, w, s'.h, q, s.procs[q]);
    }
    NothingLost(v, V(s'), s.procs, pid, pc);
    Combine(s, s', pid, pc);
  }

  // ---- Payload stores ----

  /** Only payloads and pages differ. */
  ghost predicate PaysOnly(v: View, v': View) {
    && |v'.pays| == |v.pays| && v' == v.(pays := v'.pays, pages := v'.pages)
  }

  lemma PaysOnlyKeepsViewInv(v: View, v': View)
    requires ViewInv(v) && PaysOnly(v, v') && ReadyInv(v')
    ensures ViewInv(v')
  {
    SameSeqs(v, v');
    SameOuts(v, v');
  }

  lemma PaysOnlyStable(v: View, v': View, q: nat, b: PC)
    requires Sized(v) && Sized(v') && ProcOk(v, q, b) && PaysOnly(v, v')
    requires (IsWriting(b) || IsCarrying(b)) && !b.DClear? ==> PayV(v', b.t) == PayV(v, b.t) && SamePages(v, v', b)
    ensures ProcOk(v', q, b)
  {
    if !b.DClear? {
      HoldStable(v, v', q, b);
    }
  }

  /** The holder of ticket t, not yet recycled, updates its slot's payload. */
  lemma PayStep(s: State, s': State, pid: nat, pc: PC, t: nat, y: Payload)
    requires Inv(s) && Wf(s') && pid in s.procs && s'.procs == s.procs[pid := pc]
    requires (IsWriting(s.procs[pid]) && IsWriting(pc)) || (IsCarrying(s.procs[pid]) && IsCarrying(pc))
    requires s.procs[pid].t == pc.t == t && t !in s.h.recycled
    requires V(s') == V(s).(pays := s.pays[SlotOf(t, s.cap) := y])
    requires ProcOk(V(s'), pid, pc)
    ensures Inv(s')
  {
    var v, v' := V(s), V(s');
    assert t < v.enq && !Done(v.h, t);
    forall u: nat | u in v.h.published && u !in v.h.takers && u < v.enq ensures PayloadOk(v', u) {
      assert PayloadOk(v, u);
      if SlotOf(t, v.cap) == SlotOf(u, v.cap) {
        OneTicketPerSlot(v, t, u);
      }
    }
    PaysOnlyKeepsViewInv(v, v');
    forall q | q in s.procs && q != pid ensures ProcOk(v', q, s.procs[q]) {
      OthersSlotApart(s, pid, q);
      PaysOnlyStable(v, v', q, s.procs[q]);
    }
    NothingLost(v, v', s.procs, pid, pc);
    Combine(s, s', pid, pc);
  }

  lemma OthersSlotApart(s: State, pid: nat, q: nat)
    requires Inv(s) && pid in s.procs && q in s.procs && q != pid
    requires IsWriting(s.procs[pid]) || IsCarrying(s.procs[pid])
    requires s.procs[pid].t !in s.h.recycled
    ensures var b := s.procs[q];
            (IsWriting(b) || IsCarrying(b)) && !b.DClear? ==> SlotOf(b.t, s.cap) != SlotOf(s.procs[pid].t, s.cap)
  {
    var v, a, b := V(s), s.procs[pid], s.procs[q];
    if (IsWriting(b) || IsCarrying(b)) && !b.DClear? {
      HoldersDiffer(v, pid, a, q, b);
      if SlotOf(a.t, v.cap) == SlotOf(b.t, v.cap) {
        OneTicketPerSlot(v, a.t, b.t);
      }
    }
  }

  lemma OthersPageApart(s: State, q: nat, pid: nat, g: nat)
    requires RingPages.PageInv(s) && q in s.procs && pid in s.procs && q != pid && g == RingPages.HeldBy(s, pid) != 0
    ensures var b := s.procs[q];
            (IsWriting(b) || IsCarrying(b) ==> PayV(V(s), b.t).overflow != g) && (b.EWrite? ==> b.page != g)
  {
    var b := s.procs[q];
    assert RingPages.HeldBy(s, q) != g;
    if IsWriting(b) || IsCarrying(b) {
      assert s.pays[SlotOf(b.t, s.cap)].overflow != g;
    }
  }

  lemma PageView(s: State, v': View, pid: nat, g: nat, data: Bytes)
    requires Inv(s) && RingPages.PageInv(s) && g == RingPages.HeldBy(s, pid) != 0
    requires v' == V(s).(pages := s.pages[g := data])
    ensures ViewInv(v')
  {
    var v := V(s);
    forall u: nat | u in v.h.published && u !in v.h.takers && u < v.enq ensures PayloadOk(v', u) {
      assert PayloadOk(v, u);
      assert s.pays[SlotOf(u, s.cap)].overflow != g;
    }
    PaysOnlyKeepsViewInv(v, v');
  }

  lemma PageOthers(s: State, v': View, pid: nat, g: nat, data: Bytes)
    requires Inv(s) && RingPages.PageInv(s) && pid in s.procs && g == RingPages.HeldBy(s, pid) != 0
    requires v' == V(s).(pages := s.pages[g := data])
    ensures forall q | q in s.procs && q != pid :: ProcOk(v', q, s.procs[q])
  {
    forall q | q in s.procs && q != pid ensures ProcOk(v', q, s.procs[q]) {
      OthersPageApart(s, q, pid, g);
      PaysOnlyStable(V(s), v', q, s.procs[q]);
    }
  }

  /** A writer goes on writing the same ticket. */
  predicate WritesOn(a: PC, b: PC) { IsWriting(a) && IsWriting(b) && a.t == b.t }

  /** The holder of page g writes message bytes into it. */
  lemma PageStep(s: State, s': State, pid: nat, pc: PC, g: nat, data: Bytes)
    requires Inv(s) && Wf(s') && pid in s.procs && s'.procs == s.procs[pid := pc] && RingPages.PageInv(s)
    requires WritesOn(s.procs[pid], pc)
    requires g == RingPages.HeldBy(s, pid) != 0
    requires V(s') == V(s).(pages := s.pages[g := data])
    requires ProcOk(V(s'), pid, pc)
    ensures Inv(s')
  {
    var v, v' := V(s), V(s');
    PageView(s, v', pid, g, data);
    PageOthers(s, v', pid, g, data);
    NothingLost(v, v', s.procs, pid, pc);
    Combine(s, s', pid, pc);
  }

  // ---- Claiming, skipping, taking, returning ----

  lemma ClaimView(v: View, v': View, job: Job, pid: nat)
    requires ViewInv(v) && SeqV(v, v.enq) == v.enq
    requires v' == v.(enq := v.enq + 1, h := v.h.(jobs := v.h.jobs + [job], claimers := v.h.claimers + [pid]))
    ensures ViewInv(v') && !Written(v.h, v.enq)
  {
    forall t: nat | t < v'.enq ensures SeqOk(v', t) {
      if t < v.enq {
        assert SeqOk(v, t);
      }
    }
    forall t: nat | v'.enq <= t ensures SeqV(v', t) <= t {
      assert SeqV(v, t) <= t;
    }
    SameOuts(v, v');
    SamePays(v, v');
  }

  /** A producer wins ticket p = enq, whose slot is EMPTY for it. */
  lemma ClaimStep(s: State, s': State, pid: nat, job: Job)
    requires Inv(s) && Wf(s') && pid in s.procs && SeqV(V(s), s.enq) == s.enq
    requires s'.procs == s.procs[pid := EOwner(job, s.enq, 0)]
    requires !IsWriting(s.procs[pid]) && !IsCarrying(s.procs[pid])
    requires V(s') == V(s).(enq := s.enq + 1,
                            h := s.h.(jobs := s.h.jobs + [job], claimers := s.h.claimers + [pid]))
    ensures Inv(s')
  {
    var v, v' := V(s), V(s');
    ClaimView(v, v', job, pid);
    forall q | q in s.procs && q != pid ensures ProcOk(v', q, s.procs[q]) {
      HoldStable(v, v', q, s.procs[q]);
    }
    NothingLost(v, v', s.procs, pid, EOwner(job, s.enq, 0));
    Combine(s, s', pid, EOwner(job, s.enq, 0));
  }

  /** A consumer steps over the tombstone at p = deq. */
  lemma SkipStep(s: State, s': State, pid: nat)
    requires Inv(s) && Wf(s') && pid in s.procs && SeqV(V(s), s.deq) > s.deq + 1
    requires s'.procs == s.procs[pid := DLoadPos]
    requires !IsWriting(s.procs[pid]) && !IsCarrying(s.procs[pid])
    requires V(s') == V(s).(deq := s.deq + 1, h := s.h.(skips := s.h.skips + {s.deq}))
    ensures Inv(s')
  {
    var v, v' := V(s), V(s');
    TombAtDeq(v, s.deq);
    DeqMoves(v, v');
    forall q | q in s.procs && q != pid ensures ProcOk(v', q, s.procs[q]) {
      HoldStable(v, v', q, s.procs[q]);
    }
    NothingLost(v, v', s.procs, pid, DLoadPos);
    Combine(s, s', pid, DLoadPos);
  }

  lemma DeqMoves(v: View, v': View)
    requires ViewInv(v)
    requires v' == v.(deq := v.deq + 1, h := v'.h)
    requires v'.h == v.h.(skips := v'.h.skips, takeLog := v'.h.takeLog, takers := v'.h.takers)
    requires TicketInv(v')
    requires forall i, j | 0 <= i < j < |v'.h.takeLog| :: v'.h.takeLog[i] < v'.h.takeLog[j]
    requires forall t: nat :: t in v'.h.takeLog <==> t in v'.h.takers
    requires forall t: nat | t in v.h.takers :: t in v'.h.takers && v'.h.takers[t] == v.h.takers[t]
    ensures ViewInv(v')
  {
    SameSeqs(v, v');
    SameOuts(v, v');
    SamePays(v, v');
  }

  /** A consumer wins the message at p = deq. */
  lemma TakeStep(s: State, s': State, pid: nat)
    requires Inv(s) && Wf(s') && pid in s.procs && SeqV(V(s), s.deq) == s.deq + 1
    requires s'.procs == s.procs[pid := DExpiry(s.deq)]
    requires !IsWriting(s.procs[pid]) && !IsCarrying(s.procs[pid])
    requires V(s') == V(s).(deq := s.deq + 1, h := s.h.(takeLog := s.h.takeLog + [s.deq],
                                                          takers := s.h.takers[s.deq := pid]))
    ensures Inv(s')
  {
    var v, v', p := V(s), V(s'), s.deq;
    TakeView(v, v', pid);
    forall q | q in s.procs && q != pid ensures ProcOk(v', q, s.procs[q]) {
      TakeStable(v, v', pid, q, s.procs[q]);
    }
    NothingLost(v, v', s.procs, pid, DExpiry(p));
    Combine(s, s', pid, DExpiry(p));
  }

  lemma TakeView(v: View, v': View, pid: nat)
    requires ViewInv(v) && SeqV(v, v.deq) == v.deq + 1
    requires v' == v.(deq := v.deq + 1, h := v.h.(takeLog := v.h.takeLog + [v.deq],
                                                    takers := v.h.takers[v.deq := pid]))
    ensures ViewInv(v') && v.deq < v.enq && v.deq !in v.h.takers && v.deq in v.h.published
    ensures ProcOk(v', pid, DExpiry(v.deq))
  {
    ReadyAtDeq(v, v.deq);
    assert PayloadOk(v, v.deq);
    assert forall i | 0 <= i < |v.h.takeLog| :: v.h.takeLog[i] in v.h.takeLog;
    DeqMoves(v, v');
  }

  lemma TakeStable(v: View, v': View, pid: nat, q: nat, pc: PC)
    requires ViewInv(v) && v.deq !in v.h.takers && v.deq in v.h.published && ProcOk(v, q, pc)
    requires v' == v.(deq := v.deq + 1, h := v.h.(takeLog := v.h.takeLog + [v.deq],
                                                    takers := v.h.takers[v.deq := pid]))
    ensures ProcOk(v', q, pc)
  {
    HoldStable(v, v', q, pc);
  }

  lemma ReturnOthers(s: State, v': View, pid: nat, x: Out)
    requires Inv(s) && pid in s.procs && IsCarrying(s.procs[pid]) && s.procs[pid].t == x.ticket
    requires v' == V(s).(h := s.h.(outs := s.h.outs + [x], returned := s.h.returned + {x.ticket}))
    ensures forall q | q in s.procs && q != pid :: ProcOk(v', q, s.procs[q])
  {
    forall q | q in s.procs && q != pid ensures ProcOk(v', q, s.procs[q]) {
      if IsWriting(s.procs[q]) || IsCarrying(s.procs[q]) {
        HoldersDiffer(V(s), pid, s.procs[pid], q, s.procs[q]);
      }
      ReturnStable(V(s), v', x, q, s.procs[q]);
    }
  }

  lemma ReturnNoLoss(s: State, v': View, pid: nat, x: Out)
    requires Inv(s) && pid in s.procs && s.procs[pid].DClear? && s.procs[pid].t == x.ticket
    requires v' == V(s).(h := s.h.(outs := s.h.outs + [x], returned := s.h.returned + {x.ticket}))
    ensures NoLoss(v', s.procs[pid := Idle])
  {
    NothingLost(V(s), v', s.procs, pid, Idle);
  }

  /** A consumer returns the message of ticket t. */
  lemma ReturnStep(s: State, s': State, pid: nat, x: Out)
    requires Inv(s) && Wf(s') && pid in s.procs
    requires s.procs[pid].DClear? && x == Out(s.procs[pid].t, pid, s.procs[pid].chan, s.procs[pid].data)
    requires s'.procs == s.procs[pid := Idle]
    requires V(s') == V(s).(h := s.h.(outs := s.h.outs + [x], returned := s.h.returned + {x.ticket}))
    ensures Inv(s')
  {
    ReturnView(V(s), V(s'), x);
    ReturnOthers(s, V(s'), pid, x);
    ReturnNoLoss(s, V(s'), pid, x);
  }

  lemma ReturnView(v: View, v': View, x: Out)
    requires ViewInv(v) && x.ticket !in v.h.returned && x.ticket in v.h.recycled
    requires v' == v.(h := v.h.(outs := v.h.outs + [x], returned := v.h.returned + {x.ticket})) && OutOk(v', x)
    ensures ViewInv(v')
  {
    SameSeqs(v, v');
    SamePays(v, v');
    ReturnLog(v, v', x);
  }

  lemma ReturnStable(v: View, v': View, x: Out, q: nat, pc: PC)
    requires Sized(v) && ProcOk(v, q, pc) && (IsWriting(pc) || IsCarrying(pc) ==> pc.t != x.ticket)
    requires v' == v.(h := v.h.(outs := v.h.outs + [x], returned := v.h.returned + {x.ticket}))
    ensures ProcOk(v', q, pc)
  {
    HoldStable(v, v', q, pc);
  }

  lemma ReturnLog(v: View, v': View, x: Out)
    requires LogInv(v) && x.ticket !in v.h.returned && x.ticket in v.h.recycled
    requires v' == v.(h := v.h.(outs := v.h.outs + [x], returned := v.h.returned + {x.ticket})) && OutOk(v', x)
    ensures LogInv(v')
  {
    forall j | 0 <= j < |v'.h.outs| ensures OutOk(v', v'.h.outs[j]) {
      assert j < |v.h.outs| ==> OutOk(v, v.h.outs[j]);
    }
    forall i, j | 0 <= i < j < |v'.h.outs| ensures v'.h.outs[i].ticket != v'.h.outs[j].ticket {
      assert OutOk(v, v.h.outs[i]);
    }
  }

  // ---- Every calm step ----

  /** What a step may assume about the process that takes it. */
  ghost predicate Ready(s: State, pid: nat, pc: PC) {
    Wf(s) && Sized(V(s)) && pid in s.procs && pc == s.procs[pid] && ProcOk(V(s), pid, pc)
  }

  lemma ProbeLocal(s: State, pid: nat, pc: PC, c: Choice)
    requires Ready(s, pid, pc) && (pc.ELoadSeq? || (pc.EClaim? && s.enq != pc.p))
    ensures LocalMove(s, EnqueueClaimStep(s, pid, pc, c), pid)
  {
  }

  lemma ClaimLocal(s: State, pid: nat, pc: PC, c: Choice)
    requires Ready(s, pid, pc) && IsEnqueueClaim(pc) && !c.dead && !(pc.EClaim? && s.enq == pc.p)
    ensures LocalMove(s, EnqueueClaimStep(s, pid, pc, c), pid)
  {
    if pc.ELoadSeq? || pc.EClaim? {
      ProbeLocal(s, pid, pc, c);
    }
  }

  lemma CalmEnqueueClaim(s: State, s': State, pid: nat, pc: PC, c: Choice)
    requires Inv(s) && Ready(s, pid, pc) && IsEnqueueClaim(pc) && !c.dead && s' == EnqueueClaimStep(s, pid, pc, c)
    ensures Inv(s')
  {
    if pc.EClaim? && s.enq == pc.p {
      ClaimStep(s, s', pid, pc.job);
    } else {
      ClaimLocal(s, pid, pc, c);
      LocalStep(s, s', pid);
    }
  }

  /** The writer's own progress, one payload store further. */
  lemma WriteKeepsHolder(s: State, pid: nat, pc: PC, c: Choice)
    requires Ready(s, pid, pc) && pc.EWrite?
    ensures var s' := EnqueueFillStep(s, pid, pc, c); Wf(s') && ProcOk(V(s'), pid, s'.procs[pid])
  {
    if pc.k < 5 {
      StoreKeepsHolder(s, pid, pc, c);
    } else {
      AttachEndsWrite(s, pid, pc, c);
    }
  }

  lemma StoreKeepsHolder(s: State, pid: nat, pc: PC, c: Choice)
    requires Ready(s, pid, pc) && pc.EWrite? && pc.k < 5
    ensures var s' := EnqueueFillStep(s, pid, pc, c); Wf(s') && ProcOk(V(s'), pid, s'.procs[pid])
  {
  }

  lemma AttachEndsWrite(s: State, pid: nat, pc: PC, c: Choice)
    requires Ready(s, pid, pc) && pc.EWrite? && pc.k == 5
    ensures var s' := EnqueueFillStep(s, pid, pc, c); Wf(s') && ProcOk(V(s'), pid, s'.procs[pid])
  {
  }

  lemma CalmEnqueueWrite(s: State, s': State, pid: nat, pc: PC, c: Choice)
    requires Inv(s) && RingPages.PageInv(s) && Ready(s, pid, pc) && pc.EWrite? && s' == EnqueueFillStep(s, pid, pc, c)
    ensures Inv(s')
  {
    WriteKeepsHolder(s, pid, pc, c);
    if pc.k == 4 && pc.page != 0 {
      PageStep(s, s', pid, s'.procs[pid], pc.page, Overlay(PageBytes(s, pc.page), pc.job.data));
    } else {
      PayStep(s, s', pid, s'.procs[pid], pc.t, PayAt(s', pc.t));
    }
  }

  lemma AllocLocal(s: State, pid: nat, pc: PC, c: Choice)
    requires Ready(s, pid, pc) && pc.EAlloc?
    ensures LocalMove(s, EnqueueFillStep(s, pid, pc, c), pid)
  {
  }

  lemma OwnerLocal(s: State, pid: nat, pc: PC, c: Choice)
    requires Ready(s, pid, pc) && pc.EOwner?
    ensures LocalMove(s, EnqueueFillStep(s, pid, pc, c), pid)
  {
  }

  lemma ClearLocal(s: State, pid: nat, pc: PC, c: Choice)
    requires Ready(s, pid, pc) && pc.EClear?
    ensures LocalMove(s, EnqueueFillStep(s, pid, pc, c), pid)
  {
  }

  lemma SkipClearLocal(s: State, pid: nat, pc: PC, c: Choice)
    requires Ready(s, pid, pc) && pc.ESkip? && pc.k != 0
    ensures LocalMove(s, EnqueueFillStep(s, pid, pc, c), pid)
  {
  }

  lemma CalmEnqueueLocal(s: State, s': State, pid: nat, pc: PC, c: Choice)
    requires Inv(s) && Ready(s, pid, pc) && IsEnqueueFill(pc) && s' == EnqueueFillStep(s, pid, pc, c)
    requires pc.EOwner? || pc.EAlloc? || (pc.ESkip? && pc.k != 0) || pc.EClear?
    ensures Inv(s')
  {
    if pc.EOwner? {
      OwnerLocal(s, pid, pc, c);
    } else if pc.EAlloc? {
      AllocLocal(s, pid, pc, c);
    } else if pc.EClear? {
      ClearLocal(s, pid, pc, c);
    } else {
      SkipClearLocal(s, pid, pc, c);
    }
    LocalStep(s, s', pid);
  }

  lemma CalmEnqueueFill(s: State, s': State, pid: nat, pc: PC, c: Choice)
    requires Inv(s) && Ready(s, pid, pc) && IsEnqueueFill(pc) && !pc.EWrite? && s' == EnqueueFillStep(s, pid, pc, c)
    ensures Inv(s')
  {
    if pc.EPublish? {
      PublishMoves(s, pid, pc, c);
      SeqStep(s, s', pid, s'.procs[pid], pc.t, pc.t + 1);
    } else if pc.ESkip? && pc.k == 0 {
      TombMoves(s, pid, pc, c);
      SeqStep(s, s', pid, s'.procs[pid], pc.t, pc.t + s.cap);
    } else {
      CalmEnqueueLocal(s, s', pid, pc, c);
    }
  }

  /** The mover's side of a step that moves ticket t's word on to w. */
  ghost predicate MovesWord(s: State, s': State, pid: nat, t: nat, w: nat)
    requires Wf(s) && Sized(V(s))
  {
    && Wf(s') && pid in s'.procs && s'.procs == s.procs[pid := s'.procs[pid]]
    && Moves(V(s), t, w, s'.h) && V(s') == SeqWritten(V(s), t, w, s'.h)
    && ProcOk(V(s'), pid, s'.procs[pid])
  }

  lemma PublishMoves(s: State, pid: nat, pc: PC, c: Choice)
    requires Ready(s, pid, pc) && pc.EPublish?
    ensures MovesWord(s, EnqueueFillStep(s, pid, pc, c), pid, pc.t, pc.t + 1)
  {
  }

  lemma TombMoves(s: State, pid: nat, pc: PC, c: Choice)
    requires Ready(s, pid, pc) && TicketInv(V(s)) && SeqInv(V(s)) && pc.ESkip? && pc.k == 0
    ensures MovesWord(s, EnqueueFillStep(s, pid, pc, c), pid, pc.t, pc.t + s.cap)
  {
    assert SeqOk(V(s), pc.t);
  }

  lemma ScanLocal(s: State, pid: nat, pc: PC, c: Choice)
    requires Ready(s, pid, pc) && (pc.DLoadPos? || pc.DLoadSeq?)
    ensures LocalMove(s, DequeueClaimStep(s, pid, pc, c), pid)
  {
  }

  lemma GiveUpLocal(s: State, pid: nat, pc: PC, c: Choice)
    requires Ready(s, pid, pc) && !c.dead
    requires pc.DSuspectPid? || pc.DSuspectStart?
    ensures LocalMove(s, DequeueClaimStep(s, pid, pc, c), pid)
  {
  }

  lemma LostRaceLocal(s: State, pid: nat, pc: PC, c: Choice)
    requires Ready(s, pid, pc) && (pc.DSkip? || pc.DClaim?) && s.deq != pc.p
    ensures LocalMove(s, DequeueClaimStep(s, pid, pc, c), pid)
  {
  }

  lemma UnexpiredLocal(s: State, pid: nat, pc: PC, c: Choice)
    requires Ready(s, pid, pc) && pc.DExpiry? && c.now <= PayAt(s, pc.t).expiry
    ensures LocalMove(s, DequeueClaimStep(s, pid, pc, c), pid)
  {
  }

  lemma CalmDequeueClaim(s: State, s': State, pid: nat, pc: PC, c: Choice)
    requires Inv(s) && Ready(s, pid, pc) && IsDequeueClaim(pc) && !c.dead && s' == DequeueClaimStep(s, pid, pc, c)
    requires pc.DExpiry? ==> c.now <= PayAt(s, pc.t).expiry
    ensures Inv(s')
  {
    if pc.DSkip? && s.deq == pc.p {
      SkipStep(s, s', pid);
    } else if pc.DClaim? && s.deq == pc.p {
      TakeStep(s, s', pid);
    } else {
      if pc.DExpiry? {
        UnexpiredLocal(s, pid, pc, c);
      } else if pc.DLoadPos? || pc.DLoadSeq? {
        ScanLocal(s, pid, pc, c);
      } else if pc.DSkip? || pc.DClaim? {
        LostRaceLocal(s, pid, pc, c);
      } else {
        GiveUpLocal(s, pid, pc, c);
      }
      LocalStep(s, s', pid);
    }
  }

  /** The reader's own progress, one load further. */
  lemma ReadNameLocal(s: State, pid: nat, pc: PC, c: Choice)
    requires Ready(s, pid, pc) && (pc.DOwner? || pc.DChanLen? || pc.DChan?)
    ensures LocalMove(s, DequeueReadStep(s, pid, pc, c), pid)
  {
  }

  lemma ReadLenLocal(s: State, pid: nat, pc: PC, c: Choice)
    requires Ready(s, pid, pc) && (pc.DMsgLen? || pc.DOverflow?)
    ensures LocalMove(s, DequeueReadStep(s, pid, pc, c), pid)
  {
  }

  lemma ReadDataLocal(s: State, pid: nat, pc: PC, c: Choice)
    requires Ready(s, pid, pc) && (pc.DPage? || pc.DInline?)
    ensures LocalMove(s, DequeueReadStep(s, pid, pc, c), pid)
  {
  }

  lemma ReadDoneLocal(s: State, pid: nat, pc: PC, c: Choice)
    requires Ready(s, pid, pc) && (pc.DPageFree? || pc.DPageCas? || (pc.DClear? && pc.k == 0))
    requires !(pc.DPageCas? && PayAt(s, pc.t).overflow == pc.o)
    ensures LocalMove(s, DequeueReadStep(s, pid, pc, c), pid)
  {
  }

  lemma CalmReadLocal(s: State, s': State, pid: nat, pc: PC, c: Choice)
    requires Inv(s) && Ready(s, pid, pc) && IsDequeueRead(pc) && s' == DequeueReadStep(s, pid, pc, c)
    requires !pc.DRecycle? && !(pc.DPageCas? && PayAt(s, pc.t).overflow == pc.o) && !(pc.DClear? && pc.k != 0)
    ensures Inv(s')
  {
    if pc.DOwner? || pc.DChanLen? || pc.DChan? {
      ReadNameLocal(s, pid, pc, c);
    } else if pc.DMsgLen? || pc.DOverflow? {
      ReadLenLocal(s, pid, pc, c);
    } else if pc.DPage? || pc.DInline? {
      ReadDataLocal(s, pid, pc, c);
    } else {
      ReadDoneLocal(s, pid, pc, c);
    }
    LocalStep(s, s', pid);
  }

  lemma DetachKeepsHolder(s: State, pid: nat, pc: PC, c: Choice)
    requires Ready(s, pid, pc) && pc.DPageCas? && PayAt(s, pc.t).overflow == pc.o
    ensures var s' := DequeueReadStep(s, pid, pc, c); Wf(s') && ProcOk(V(s'), pid, s'.procs[pid])
  {
  }

  lemma CalmRecycle(s: State, s': State, pid: nat, pc: PC, c: Choice)
    requires Inv(s) && Ready(s, pid, pc) && pc.DRecycle? && s' == DequeueReadStep(s, pid, pc, c)
    ensures Inv(s')
  {
    RecycleMoves(s, pid, pc, c);
    SeqStep(s, s', pid, s'.procs[pid], pc.t, pc.t + s.cap);
  }

  lemma RecycleMoves(s: State, pid: nat, pc: PC, c: Choice)
    requires Ready(s, pid, pc) && pc.DRecycle?
    ensures MovesWord(s, DequeueReadStep(s, pid, pc, c), pid, pc.t, pc.t + s.cap)
  {
  }

  lemma CalmDequeueRead(s: State, s': State, pid: nat, pc: PC, c: Choice)
    requires Inv(s) && Ready(s, pid, pc) && IsDequeueRead(pc) && s' == DequeueReadStep(s, pid, pc, c)
    ensures Inv(s')
  {
    if pc.DRecycle? {
      CalmRecycle(s, s', pid, pc, c);
    } else if pc.DPageCas? && PayAt(s, pc.t).overflow == pc.o {
      DetachKeepsHolder(s, pid, pc, c);
      PayStep(s, s', pid, s'.procs[pid], pc.t, PayAt(s', pc.t));
    } else if pc.DClear? && pc.k != 0 {
      ReturnStep(s, s', pid, Out(pc.t, pid, pc.chan, pc.data));
    } else {
      CalmReadLocal(s, s', pid, pc, c);
    }
  }

  lemma CalmEnqueue(s: State, s': State, pid: nat, pc: PC, c: Choice)
    requires Inv(s) && RingPages.PageInv(s) && Ready(s, pid, pc) && IsEnqueueFill(pc) && s' == EnqueueFillStep(s, pid, pc, c)
    ensures Inv(s')
  {
    if pc.EWrite? {
      CalmEnqueueWrite(s, s', pid, pc, c);
    } else {
      CalmEnqueueFill(s, s', pid, pc, c);
    }
  }

  lemma CalmStart(s: State, s': State, pid: nat, op: Op)
    requires Inv(s) && Ready(s, pid, Idle) && !op.Compact? && s' == Goto(s, pid, Start(op))
    ensures Inv(s')
  {
    LocalStep(s, s', pid);
  }

  lemma CalmStepKeepsInv(s: State, pid: nat, c: Choice)
    requires Inv(s) && RingPages.PageInv(s) && CalmChoice(s, pid, c)
    ensures Inv(Step(s, pid, c))
  {
    var pc, s' := s.procs[pid], Step(s, pid, c);
    if pc.Idle? {
      CalmStart(s, s', pid, c.op);
    } else if IsEnqueueClaim(pc) {
      CalmEnqueueClaim(s, s', pid, pc, c);
    } else if IsEnqueueFill(pc) {
      CalmEnqueue(s, s', pid, pc, c);
    } else if IsDequeueClaim(pc) {
      CalmDequeueClaim(s, s', pid, pc, c);
    } else {
      CalmDequeueRead(s, s', pid, pc, c);
    }
  }

  lemma InitInv(s: State)
    requires Init(s)
    ensures Inv(s)
  {
    forall t: nat ensures SeqV(V(s), t) <= t {
      SlotOfBelow(t, s.cap);
    }
  }

  lemma CalmNextKeepsInv(s: State, s': State)
    requires Inv(s) && RingPages.PageInv(s) && CalmNext(s, s')
    ensures Inv(s') && RingPages.PageInv(s')
  {
    var pid: nat, c: Choice :| CalmChoice(s, pid, c) && s' == Step(s, pid, c);
    CalmStepKeepsInv(s, pid, c);
    RingPages.StepKeepsPageInv(s, pid, c);
  }

  lemma {:induction false} CalmRunInv(r: seq<State>, n: nat)
    requires CalmRun(r) && n < |r|
    ensures Inv(r[n]) && RingPages.PageInv(r[n])
  {
    if n == 0 {
      InitInv(r[n]);
      RingPages.InitPageInv(r[n]);
    } else {
      CalmRunInv(r, n - 1);
      assert CalmNextAt(r, n - 1);
      CalmNextKeepsInv(r[n - 1], r[n]);
    }
  }

  // ---- What holds in every run ----

  /** Consumers claim tickets in strictly increasing order, so no ticket twice. */
  lemma TakesInOrder(r: seq<State>, n: nat)
    requires CalmRun(r) && n < |r|
    ensures forall i, j | 0 <= i < j < |r[n].h.takeLog| :: r[n].h.takeLog[i] < r[n].h.takeLog[j]
  {
    CalmRunInv(r, n);
  }

  /** Below the dequeue position every ticket was either claimed by a consumer or
      is a SKIP tombstone, never both, and what consumers stepped over is exactly
      the tombstones; everything published there was claimed. */
  lemma TakenOrTombstone(r: seq<State>, n: nat, t: nat)
    requires CalmRun(r) && n < |r| && t < r[n].deq
    ensures t in r[n].h.takeLog <==> t !in r[n].h.tombs
    ensures t in r[n].h.skips <==> t in r[n].h.tombs
    ensures t in r[n].h.published <==> t in r[n].h.takeLog
    ensures r[n].deq <= r[n].enq
  {
    CalmRunInv(r, n);
    assert ViewInv(V(r[n]));
  }

  /** Nothing at or past the dequeue position has been claimed or stepped over. */
  lemma NothingTakenAhead(r: seq<State>, n: nat, t: nat)
    requires CalmRun(r) && n < |r| && (t in r[n].h.takeLog || t in r[n].h.skips)
    ensures t < r[n].deq
  {
    CalmRunInv(r, n);
    assert ViewInv(V(r[n]));
  }

  /** A delivery is made by the one consumer that claimed its ticket, at most once
      per ticket, and carries the channel name (as the name field keeps it) and
      the bytes the ticket's producer sent, inline or through an overflow page. */
  lemma DeliveredAsSent(r: seq<State>, n: nat, i: nat)
    requires CalmRun(r) && n < |r| && i < |r[n].h.outs|
    ensures var h, x := r[n].h, r[n].h.outs[i];
            && x.ticket in h.takeLog && x.ticket in h.takers && h.takers[x.ticket] == x.pid
            && x.ticket < |h.jobs| && x.chan == Clip(h.jobs[x.ticket].chan) && x.data == h.jobs[x.ticket].data
            && forall j | 0 <= j < |h.outs| && j != i :: h.outs[j].ticket != x.ticket
  {
    CalmRunInv(r, n);
    assert OutOk(V(r[n]), r[n].h.outs[i]);
  }

  /** Nothing is lost: a claimed ticket is published, tombstoned, or still being
      written by its producer; a taken ticket is delivered or still being read by
      its consumer. */
  lemma NothingForgotten(r: seq<State>, n: nat, t: nat)
    requires CalmRun(r) && n < |r| && t < r[n].enq
    ensures t < |r[n].h.claimers|
    ensures Written(r[n].h, t) || WritesFor(r[n].procs, r[n].h.claimers[t], t)
    ensures t in r[n].h.takeLog ==>
              Delivered(r[n].h, t) || (t in r[n].h.takers && CarriesFor(r[n].procs, r[n].h.takers[t], t))
    ensures t in r[n].h.published && t !in r[n].h.takeLog ==> r[n].deq <= t
  {
    CalmRunInv(r, n);
    assert ViewInv(V(r[n]));
    OutsComplete(r, n);
  }

  ghost predicate Delivered(h: History, t: nat) {
    exists j :: 0 <= j < |h.outs| && h.outs[j].ticket == t
  }

  lemma {:induction false} OutsComplete(r: seq<State>, n: nat)
    requires CalmRun(r) && n < |r|
    ensures forall t: nat | t in r[n].h.returned :: Delivered(r[n].h, t)
  {
    if n > 0 {
      OutsComplete(r, n - 1);
      CalmStepGrows(r, n - 1);
      OutsStayComplete(r[n - 1].h, r[n].h);
    }
  }

  lemma OutsStayComplete(h: History, h': History)
    requires OutsGrow(h, h') && forall t: nat | t in h.returned :: Delivered(h, t)
    ensures forall t: nat | t in h'.returned :: Delivered(h', t)
  {
    forall t: nat | t in h'.returned ensures Delivered(h', t) {
      if t in h.returned {
        var j :| 0 <= j < |h.outs| && h.outs[j].ticket == t;
        assert h'.outs[j].ticket == t;
      } else {
        assert h'.outs[|h.outs|].ticket == t;
      }
    }
  }

  /** A step returns at most one message, and logs it. */
  ghost predicate OutsGrow(h: History, h': History) {
    || (h'.outs == h.outs && h'.returned == h.returned)
    || (|h'.outs| == |h.outs| + 1 && h.outs <= h'.outs && h'.returned == h.returned + {h'.outs[|h.outs|].ticket})
  }

  lemma ClaimOuts(s: State, pid: nat, pc: PC, c: Choice)
    requires Wf(s)
    ensures IsEnqueueClaim(pc) ==> Grows(s, EnqueueClaimStep(s, pid, pc, c))
    ensures IsDequeueClaim(pc) ==> Grows(s, DequeueClaimStep(s, pid, pc, c))
  {
  }

  lemma FillOuts(s: State, pid: nat, pc: PC, c: Choice)
    requires Wf(s) && IsEnqueueFill(pc)
    ensures Grows(s, EnqueueFillStep(s, pid, pc, c))
  {
  }

  lemma ReadOuts(s: State, pid: nat, pc: PC, c: Choice)
    requires Wf(s) && IsDequeueRead(pc)
    ensures Grows(s, DequeueReadStep(s, pid, pc, c))
  {
  }

  lemma StepGrows(s: State, pid: nat, c: Choice)
    requires CalmChoice(s, pid, c) && Allowed(s.procs[pid])
    ensures Grows(s, Step(s, pid, c))
  {
    var pc := s.procs[pid];
    ClaimOuts(s, pid, pc, c);
    if IsEnqueueFill(pc) {
      FillOuts(s, pid, pc, c);
    } else if IsDequeueRead(pc) {
      ReadOuts(s, pid, pc, c);
    }
  }

  ghost predicate Grows(s: State, s': State) {
    s'.cap == s.cap && OutsGrow(s.h, s'.h)
  }

  lemma CalmStepGrows(r: seq<State>, n: nat)
    requires CalmRun(r) && n + 1 < |r|
    ensures Grows(r[n], r[n + 1]) && SeqsAdvance(r[n], r[n + 1])
  {
    CalmRunInv(r, n);
    assert CalmNextAt(r, n);
    var pid: nat, c: Choice :| CalmChoice(r[n], pid, c) && r[n + 1] == Step(r[n], pid, c);
    var pc := r[n].procs[pid];
    assert ProcOk(V(r[n]), pid, pc);
    StepGrows(r[n], pid, c);
    CalmWritesSeqs(r[n], pid, pc, c);
    StepSeqs(r[n], r[n + 1], pid, pc, c);
  }

  /** Slots: each carries at most one unfinished ticket, and no unfinished ticket is
      lapped. The bound `enq - deq <= cap` is not claimed: leading tombstones break it. */
  lemma SlotsNeverShared(r: seq<State>, n: nat, t: nat)
    requires CalmRun(r) && n < |r| && t < r[n].enq && !Done(r[n].h, t)
    ensures r[n].enq <= t + r[n].cap
    ensures forall u: nat | u < r[n].enq && u != t && !Done(r[n].h, u) :: SlotOf(u, r[n].cap) != SlotOf(t, r[n].cap)
  {
    CalmRunInv(r, n);
    NeverLapped(V(r[n]), t);
    forall u: nat | u < r[n].enq && u != t && !Done(r[n].h, u) ensures SlotOf(u, r[n].cap) != SlotOf(t, r[n].cap) {
      if SlotOf(u, r[n].cap) == SlotOf(t, r[n].cap) {
        OneTicketPerSlot(V(r[n]), t, u);
      }
    }
  }

  /** A sequence word of slot i names a ticket of slot i, EMPTY or published. */
  ghost predicate Phased(s: State) {
    forall i | 0 <= i < |s.seqs| :: PhaseOf(s.seqs[i], i, s.cap)
  }

  predicate PhaseOf(w: nat, i: nat, cap: nat) {
    0 < cap && (SlotOf(w, cap) == i || (0 < w && SlotOf(w - 1, cap) == i))
  }

  /** The sequence words of a step either stay or one of them moves forward to an
      EMPTY or published word of its own slot. */
  ghost predicate SeqsAdvance(s: State, s': State) {
    s'.seqs == s.seqs || exists t: nat, w: nat ::
      Wf(s) && s'.seqs == s.seqs[SlotOf(t, s.cap) := w] && SeqAt(s, t) < w && PhaseOf(w, SlotOf(t, s.cap), s.cap)
  }

  lemma FillSeqs(s: State, pid: nat, pc: PC, c: Choice)
    requires Ready(s, pid, pc) && SeqInv(V(s)) && TicketInv(V(s)) && IsEnqueueFill(pc)
    ensures SeqsAdvance(s, EnqueueFillStep(s, pid, pc, c))
  {
    if pc.EPublish? || (pc.ESkip? && pc.k == 0) {
      assert SeqOk(V(s), pc.t);
      var w := if pc.EPublish? then pc.t + 1 else pc.t + s.cap;
      assert SlotOf(pc.t + s.cap, s.cap) == SlotOf(pc.t, s.cap);
      assert PhaseOf(w, SlotOf(pc.t, s.cap), s.cap) && SeqAt(s, pc.t) < w;
    }
  }

  lemma ReadSeqs(s: State, pid: nat, pc: PC, c: Choice)
    requires Ready(s, pid, pc) && SeqInv(V(s)) && TicketInv(V(s)) && IsDequeueRead(pc)
    ensures SeqsAdvance(s, DequeueReadStep(s, pid, pc, c))
  {
    if pc.DRecycle? {
      assert SeqOk(V(s), pc.t);
      assert SlotOf(pc.t + s.cap, s.cap) == SlotOf(pc.t, s.cap);
      assert PhaseOf(pc.t + s.cap, SlotOf(pc.t, s.cap), s.cap) && SeqAt(s, pc.t) < pc.t + s.cap;
    }
  }

  lemma ScanSeqs(s: State, pid: nat, pc: PC, c: Choice)
    requires Wf(s)
    ensures IsEnqueueClaim(pc) ==> EnqueueClaimStep(s, pid, pc, c).seqs == s.seqs
    ensures IsDequeueClaim(pc) ==> DequeueClaimStep(s, pid, pc, c).seqs == s.seqs
  {
  }

  /** Only filling and reading steps write sequence words. */
  ghost predicate WritesSeqs(s: State, s': State, pid: nat, pc: PC, c: Choice)
    requires Wf(s)
  {
    if IsEnqueueFill(pc) then s' == EnqueueFillStep(s, pid, pc, c)
    else if IsDequeueRead(pc) then s' == DequeueReadStep(s, pid, pc, c)
    else s'.seqs == s.seqs
  }

  lemma CalmKeepsSeqs(s: State, pid: nat, pc: PC, c: Choice)
    requires CalmChoice(s, pid, c) && pc == s.procs[pid] && Allowed(pc)
    requires pc.Idle? || IsEnqueueClaim(pc) || IsDequeueClaim(pc)
    ensures Step(s, pid, c).seqs == s.seqs
  {
    if !pc.Idle? {
      ScanSeqs(s, pid, pc, c);
    }
  }

  lemma CalmFills(s: State, pid: nat, pc: PC, c: Choice)
    requires CalmChoice(s, pid, c) && pc == s.procs[pid] && IsEnqueueFill(pc)
    ensures Step(s, pid, c) == EnqueueFillStep(s, pid, pc, c)
  {
  }

  lemma CalmReads(s: State, pid: nat, pc: PC, c: Choice)
    requires CalmChoice(s, pid, c) && pc == s.procs[pid] && IsDequeueRead(pc)
    ensures Step(s, pid, c) == DequeueReadStep(s, pid, pc, c)
  {
  }

  lemma CalmWritesSeqs(s: State, pid: nat, pc: PC, c: Choice)
    requires CalmChoice(s, pid, c) && pc == s.procs[pid] && Allowed(pc)
    ensures WritesSeqs(s, Step(s, pid, c), pid, pc, c)
  {
    if pc.Idle? || IsEnqueueClaim(pc) || IsDequeueClaim(pc) {
      CalmKeepsSeqs(s, pid, pc, c);
    } else if IsEnqueueFill(pc) {
      CalmFills(s, pid, pc, c);
    } else {
      CalmReads(s, pid, pc, c);
    }
  }

  lemma StepSeqs(s: State, s': State, pid: nat, pc: PC, c: Choice)
    requires Ready(s, pid, pc) && SeqInv(V(s)) && TicketInv(V(s)) && WritesSeqs(s, s', pid, pc, c)
    ensures SeqsAdvance(s, s')
  {
    if IsEnqueueFill(pc) {
      FillSeqs(s, pid, pc, c);
    } else if IsDequeueRead(pc) {
      ReadSeqs(s, pid, pc, c);
    }
  }

  lemma AdvancePhased(s: State, s': State)
    requires SeqsAdvance(s, s') && s'.cap == s.cap && Phased(s)
    ensures Phased(s') && SeqsBelow(s, s')
  {
  }

  /** In every run the sequence word of slot i stays congruent to i (EMPTY) or
      i + 1 (published) and never decreases. */
  lemma {:induction false} SeqWordsPhasedAndMonotone(r: seq<State>, k: nat, n: nat)
    requires CalmRun(r) && k <= n < |r|
    ensures Phased(r[n]) && SeqsBelow(r[k], r[n])
  {
    if n == 0 {
      assert forall i | 0 <= i < r[0].cap :: SlotOf(i, r[0].cap) == i;
    } else {
      CalmStepGrows(r, n - 1);
      SeqWordsPhasedAndMonotone(r, Min(k, n - 1), n - 1);
      AdvancePhased(r[n - 1], r[n]);
    }
  }

  ghost predicate SeqsBelow(s: State, s': State) {
    s'.cap == s.cap && |s'.seqs| == |s.seqs| && forall i | 0 <= i < |s.seqs| :: s.seqs[i] <= s'.seqs[i]
  }
}
