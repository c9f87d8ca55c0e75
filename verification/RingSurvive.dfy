/** What crashes cannot break: repairs finish only tickets of dead processes, no
    live process's slot and no published message is touched, and every claimed
    ticket is accounted for. */
module RingSurvive {
  import opened Prelude
  import M = RingMachine
  import opened RingCrash

  /** The shared state, without the compact marks. */
  datatype View = View(cap: nat, enq: nat, deq: nat, seqs: seq<nat>, owners: seq<nat>, tickets: seq<nat>,
                       msgs: seq<M.Job>, dead: set<nat>, h: History)

  function V(s: State): View {
    View(s.cap, s.enq, s.deq, s.seqs, s.owners, s.tickets, s.msgs, s.dead, s.h)
  }

  ghost predicate Sized(v: View) {
    && 2 <= v.cap && |v.seqs| == |v.owners| == |v.tickets| == |v.msgs| == v.cap
    && |v.h.jobs| == |v.h.claimers| == v.enq
  }

  function SeqV(v: View, t: nat): nat
    requires 0 < v.cap == |v.seqs|
  {
    v.seqs[SlotOf(t, v.cap)]
  }

  // ---- Tickets ----

  /** The slot has been released for its next round. */
  predicate Finished(h: History, t: nat) { t in h.tombs || t in h.recycled || t in h.lost }

  /** The producer is through with the ticket. */
  predicate Settled(h: History, t: nat) { t in h.published || t in h.tombs || t in h.lost }

  ghost predicate TicketInv(v: View)
    requires Sized(v)
  {
    && v.deq <= v.enq
    && 0 !in v.dead && (forall t: nat | t < v.enq :: v.h.claimers[t] != 0)
    && (forall t: nat | t in v.h.published :: t < v.enq)
    && (forall t: nat | t in v.h.tombs :: t < v.enq)
    && (forall t: nat | t in v.h.lost :: t < v.enq)
    && (forall t: nat | t in v.h.recorded :: t < v.enq)
    && v.h.returned <= v.h.recycled <= v.h.takers.Keys <= v.h.published
    && v.h.published !! v.h.tombs && v.h.tombs !! v.h.lost && v.h.recycled !! v.h.lost
    && (forall t: nat | t in v.h.takers :: t < v.deq)
    && (forall t: nat | t < v.deq :: t in v.h.takers || t in v.h.tombs || t in v.h.lost)
  }

  /** A ticket finished by a repair was in the hands of a crashed process. */
  ghost predicate LostInv(v: View)
    requires Sized(v)
  {
    forall t: nat | t in v.h.lost :: t < v.enq && HolderDead(v, t)
  }

  predicate HolderDead(v: View, t: nat)
    requires t < |v.h.claimers|
  {
    if t in v.h.published then t in v.h.takers && v.h.takers[t] in v.dead else v.h.claimers[t] in v.dead
  }

  predicate SeqOk(v: View, t: nat)
    requires 0 < v.cap == |v.seqs|
  {
    if Finished(v.h, t) then SeqV(v, t) >= t + v.cap
    else if t in v.h.published then SeqV(v, t) == t + 1
    else SeqV(v, t) == t
  }

  predicate PhaseOf(w: nat, i: nat, cap: nat) {
    0 < cap && (SlotOf(w, cap) == i || (0 < w && SlotOf(w - 1, cap) == i))
  }

  ghost predicate SeqInv(v: View)
    requires Sized(v)
  {
    && (forall t: nat | t < v.enq :: SeqOk(v, t))
    && (forall t: nat | v.enq <= t :: SeqV(v, t) <= t)
    && (forall i | 0 <= i < v.cap :: PhaseOf(v.seqs[i], i, v.cap))
  }

  // ---- Ownership and messages ----

  /** The owner record and message of an unfinished ticket's slot. */
  predicate SlotOk(v: View, t: nat)
    requires Sized(v) && t < v.enq
  {
    var i := SlotOf(t, v.cap);
    if t in v.h.takers then v.owners[i] == v.h.takers[t] && v.tickets[i] == t && v.msgs[i] == v.h.jobs[t]
    else if t in v.h.published then v.owners[i] == 0 && v.msgs[i] == v.h.jobs[t]
    else if t in v.h.recorded then v.owners[i] == v.h.claimers[t] && v.tickets[i] == t
    else v.owners[i] == 0
  }

  /** An owned slot belongs to the unfinished ticket its record names. */
  predicate OwnedOk(v: View, i: nat)
    requires Sized(v) && i < v.cap
  {
    v.owners[i] != 0 ==>
      && v.tickets[i] < v.enq && SlotOf(v.tickets[i], v.cap) == i && !Finished(v.h, v.tickets[i])
      && (v.tickets[i] in v.h.published <==> v.tickets[i] in v.h.takers)
  }

  ghost predicate SlotInv(v: View)
    requires Sized(v)
  {
    && (forall t: nat | t < v.enq && !Finished(v.h, t) :: SlotOk(v, t))
    && (forall i | 0 <= i < v.cap :: OwnedOk(v, i))
  }

  ghost predicate LogInv(h: History) {
    && (forall i, j | 0 <= i < j < |h.takeLog| :: h.takeLog[i] < h.takeLog[j])
    && (forall t: nat :: t in h.takeLog <==> t in h.takers)
    && (forall i, j | 0 <= i < j < |h.outs| :: h.outs[i].ticket != h.outs[j].ticket)
    && (forall j | 0 <= j < |h.outs| :: OutOk(h, h.outs[j]))
  }

  predicate OutOk(h: History, x: Out) {
    && x.ticket in h.returned && x.ticket in h.takers && h.takers[x.ticket] == x.pid
    && x.ticket < |h.jobs| && x.job == h.jobs[x.ticket]
  }

  ghost predicate ViewInv(v: View) {
    Sized(v) && TicketInv(v) && LostInv(v) && SeqInv(v) && SlotInv(v) && LogInv(v.h)
  }

  // ---- Processes ----

  /** Holding a claimed ticket the producer is not through with. */
  predicate IsWriting(pc: PC) { pc.PGap? || pc.PAlloc? || pc.PSkip? || pc.PWrite? || pc.PPublish? }

  /** Holding a taken ticket not yet delivered. */
  predicate IsCarrying(pc: PC) { pc.CRead? || pc.CRecycle? || pc.CReturn? }

  predicate ScanOk(v: View, pc: PC)
    requires 0 < v.cap == |v.seqs|
  {
    && (pc.PLoadSeq? ==> pc.p <= v.enq)
    && (pc.PClaim? ==> pc.p <= v.enq && (pc.p == v.enq ==> SeqV(v, pc.p) == pc.p))
    && (pc.CLoadSeq? ==> pc.p <= v.deq)
    && (pc.CSkip? ==> pc.p <= v.deq && (pc.p == v.deq ==> SeqV(v, pc.p) > pc.p + 1))
    && (pc.CTake? ==> pc.p <= v.deq && (pc.p == v.deq ==> SeqV(v, pc.p) == pc.p + 1))
    && (pc.Repair? ==> pc.corpse in v.dead && pc.corpse != 0)
    && (pc.KLoadDeq? ==> pc.e <= v.enq)
    && (pc.KSlot? ==> pc.m <= v.enq)
  }

  predicate HoldOk(v: View, q: nat, pc: PC)
    requires Sized(v)
  {
    && (IsWriting(pc) ==>
          && pc.t < v.enq && !Settled(v.h, pc.t) && v.h.claimers[pc.t] == q
          && (pc.t in v.h.recorded <==> !pc.PGap?)
          && (!pc.PSkip? ==> pc.job == v.h.jobs[pc.t])
          && (pc.PPublish? ==> v.msgs[SlotOf(pc.t, v.cap)] == pc.job))
    && (IsCarrying(pc) ==>
          && pc.t < v.enq && pc.t in v.h.takers && v.h.takers[pc.t] == q
          && pc.t !in v.h.lost && pc.t !in v.h.returned
          && (pc.t in v.h.recycled <==> pc.CReturn?)
          && (!pc.CRead? ==> pc.job == v.h.jobs[pc.t]))
  }

  predicate LiveOk(v: View, q: nat, pc: PC) { (q in v.dead <==> pc.Crashed?) && q != 0 }

  ghost predicate ProcOk(v: View, q: nat, pc: PC)
    requires Sized(v)
  {
    LiveOk(v, q, pc) && ScanOk(v, pc) && HoldOk(v, q, pc)
  }

  ghost predicate WritesFor(procs: map<nat, PC>, q: nat, t: nat) {
    q in procs && IsWriting(procs[q]) && procs[q].t == t
  }

  ghost predicate CarriesFor(procs: map<nat, PC>, q: nat, t: nat) {
    q in procs && IsCarrying(procs[q]) && procs[q].t == t
  }

  /** An unsettled or undelivered ticket is in the hands of the process that
      claimed it, or that process has crashed. */
  ghost predicate NoLoss(v: View, procs: map<nat, PC>)
    requires Sized(v)
  {
    (forall t: nat | t < v.enq :: WriterKept(v, procs, t)) && (forall t: nat :: ReaderKept(v, procs, t))
  }

  ghost predicate WriterKept(v: View, procs: map<nat, PC>, t: nat)
    requires Sized(v) && t < v.enq
  {
    Settled(v.h, t) || v.h.claimers[t] in v.dead || WritesFor(procs, v.h.claimers[t], t)
  }

  ghost predicate ReaderKept(v: View, procs: map<nat, PC>, t: nat) {
    t in v.h.takers && t !in v.h.returned && t !in v.h.lost ==>
      v.h.takers[t] in v.dead || CarriesFor(procs, v.h.takers[t], t)
  }

  ghost predicate Inv(s: State) {
    var v := V(s);
    && Wf(s) && ViewInv(v)
    && (forall q | q in s.procs :: ProcOk(v, q, s.procs[q]))
    && NoLoss(v, s.procs)
  }

  // ---- Slots ----

  lemma OneTicketPerSlot(v: View, t: nat, u: nat)
    requires Sized(v) && SeqInv(v)
    requires t < v.enq && u < v.enq && !Finished(v.h, t) && !Finished(v.h, u) && SlotOf(t, v.cap) == SlotOf(u, v.cap)
    ensures t == u
  {
    assert SeqOk(v, t) && SeqOk(v, u);
    if t < u {
      SlotGap(t, u, v.cap);
    } else if u < t {
      SlotGap(u, t, v.cap);
    }
  }

  lemma EmptySlotIsFree(v: View, t: nat, p: nat)
    requires Sized(v) && SeqInv(v)
    requires t < v.enq <= p && !Finished(v.h, t) && SeqV(v, p) == p
    ensures SlotOf(t, v.cap) != SlotOf(p, v.cap)
  {
    assert SeqOk(v, t);
    if SlotOf(t, v.cap) == SlotOf(p, v.cap) {
      SlotGap(t, p, v.cap);
    }
  }

  /** An unfinished ticket is never lapped. */
  lemma NeverLapped(v: View, t: nat)
    requires Sized(v) && SeqInv(v) && t < v.enq && !Finished(v.h, t)
    ensures v.enq <= t + v.cap
  {
    assert SlotOf(t + v.cap, v.cap) == SlotOf(t, v.cap);
    assert SeqOk(v, t);
    assert t + v.cap < v.enq ==> SeqOk(v, t + v.cap);
  }

  lemma ReadyAtDeq(v: View, p: nat)
    requires ViewInv(v) && p == v.deq && SeqV(v, p) == p + 1
    ensures p < v.enq && p in v.h.published && !Finished(v.h, p) && p !in v.h.takers
  {
    if p < v.enq {
      assert SeqOk(v, p);
    }
  }

  lemma GoneAtDeq(v: View, p: nat)
    requires ViewInv(v) && p == v.deq && SeqV(v, p) > p + 1
    ensures p < v.enq && (p in v.h.tombs || p in v.h.lost)
  {
    if p < v.enq {
      assert SeqOk(v, p);
    }
  }

  // ---- Putting a step together ----

  /** Only process `pid` moved. */
  ghost predicate Moved(s: State, s': State, pid: nat) {
    Wf(s') && pid in s.procs && pid in s'.procs && s'.procs == s.procs[pid := s'.procs[pid]]
  }

  predicate SameHold(pc: PC, pc': PC) {
    && (IsWriting(pc) ==> IsWriting(pc') && pc'.t == pc.t)
    && (IsCarrying(pc) ==> IsCarrying(pc') && pc'.t == pc.t)
  }

  lemma LocalStep(s: State, s': State, pid: nat)
    requires Inv(s) && Moved(s, s', pid) && V(s') == V(s)
    requires ProcOk(V(s), pid, s'.procs[pid]) && SameHold(s.procs[pid], s'.procs[pid])
    ensures Inv(s')
  {
    var v := V(s);
    forall t: nat | t < v.enq ensures WriterKept(v, s'.procs, t) {
      assert WriterKept(v, s.procs, t);
    }
    forall t: nat ensures ReaderKept(v, s'.procs, t) {
      assert ReaderKept(v, s.procs, t);
    }
  }

  /** Nothing is lost when the mover keeps, finishes or abandons what it held. */
  lemma NothingLost(v: View, v': View, procs: map<nat, PC>, pid: nat, pc: PC)
    requires Sized(v) && Sized(v') && NoLoss(v, procs) && pid in procs
    requires v.h.claimers <= v'.h.claimers && v.dead <= v'.dead
    requires v'.enq == v.enq || (v'.enq == v.enq + 1 && IsWriting(pc) && pc.t == v.enq && v'.h.claimers[v.enq] == pid)
    requires forall t: nat | t in v'.h.takers && t !in v.h.takers :: IsCarrying(pc) && pc.t == t && v'.h.takers[t] == pid
    requires forall t: nat | Settled(v.h, t) :: Settled(v'.h, t)
    requires forall t: nat | t in v.h.takers :: t in v'.h.takers && v'.h.takers[t] == v.h.takers[t]
    requires v.h.returned <= v'.h.returned && v.h.lost <= v'.h.lost
    requires IsWriting(procs[pid]) ==>
               pid in v'.dead || Settled(v'.h, procs[pid].t) || (IsWriting(pc) && pc.t == procs[pid].t)
    requires IsCarrying(procs[pid]) ==>
               pid in v'.dead || procs[pid].t in v'.h.returned || (IsCarrying(pc) && pc.t == procs[pid].t)
    ensures NoLoss(v', procs[pid := pc])
  {
    var procs' := procs[pid := pc];
    forall t: nat | t < v'.enq ensures WriterKept(v', procs', t) {
      assert t < v.enq ==> WriterKept(v, procs, t);
    }
    forall t: nat ensures ReaderKept(v', procs', t) {
      assert ReaderKept(v, procs, t);
    }
  }

  lemma HoldersDiffer(v: View, p: nat, a: PC, q: nat, b: PC)
    requires Sized(v) && TicketInv(v) && p != q && HoldOk(v, p, a) && HoldOk(v, q, b)
    requires (IsWriting(a) || IsCarrying(a)) && (IsWriting(b) || IsCarrying(b))
    ensures a.t != b.t
  {
  }

  /** What the history and message slot of ticket u say is unchanged. */
  predicate SameTicket(v: View, v': View, u: nat)
    requires Sized(v) && Sized(v') && v'.cap == v.cap
  {
    && (u < v.enq ==> u < v'.enq && v'.h.jobs[u] == v.h.jobs[u] && v'.h.claimers[u] == v.h.claimers[u])
    && Settled(v'.h, u) == Settled(v.h, u)
    && (u in v'.h.recorded) == (u in v.h.recorded)
    && (u in v'.h.takers) == (u in v.h.takers)
    && (u in v.h.takers ==> v'.h.takers[u] == v.h.takers[u])
    && (u in v'.h.recycled) == (u in v.h.recycled)
    && (u in v'.h.lost) == (u in v.h.lost)
    && (u in v'.h.returned) == (u in v.h.returned)
  }

  lemma HoldStable(v: View, v': View, q: nat, pc: PC)
    requires Sized(v) && Sized(v') && v'.cap == v.cap && HoldOk(v, q, pc)
    requires IsWriting(pc) || IsCarrying(pc) ==> SameTicket(v, v', pc.t)
    requires pc.PPublish? ==> v'.msgs[SlotOf(pc.t, v.cap)] == v.msgs[SlotOf(pc.t, v.cap)]
    ensures HoldOk(v', q, pc)
  {
  }

  // ---- Steps that finish or publish a ticket ----

  /** The word of ticket t's slot moves on to w and its owner record is cleared. */
  function SeqWritten(v: View, t: nat, w: nat, h: History): View
    requires Sized(v)
  {
    var i := SlotOf(t, v.cap);
    v.(seqs := v.seqs[i := w], owners := v.owners[i := 0], tickets := v.tickets[i := 0], h := h)
  }

  predicate Publishes(v: View, t: nat, w: nat, h: History) {
    w == t + 1 && !Settled(v.h, t) && h == v.h.(published := v.h.published + {t})
  }

  predicate Tombs(v: View, t: nat, w: nat, h: History) {
    w == t + v.cap && !Settled(v.h, t) && h == v.h.(tombs := v.h.tombs + {t})
  }

  predicate Recycles(v: View, t: nat, w: nat, h: History) {
    w == t + v.cap && t in v.h.takers && !Finished(v.h, t) && h == v.h.(recycled := v.h.recycled + {t})
  }

  /** A repair: allowed only for an unfinished ticket whose holder is dead. */
  predicate Loses(v: View, t: nat, w: nat, h: History)
    requires Sized(v) && t < v.enq
  {
    && w == t + v.cap && !Finished(v.h, t) && HolderDead(v, t)
    && h == v.h.(lost := v.h.lost + {t})
  }

  predicate Moves(v: View, t: nat, w: nat, h: History)
    requires Sized(v)
  {
    t < v.enq && (Publishes(v, t, w, h) || Tombs(v, t, w, h) || Recycles(v, t, w, h) || Loses(v, t, w, h))
  }

  lemma MovesUnfinished(v: View, t: nat, w: nat, h: History)
    requires ViewInv(v) && Moves(v, t, w, h)
    ensures !Finished(v.h, t) && SeqV(v, t) in {t, t + 1} && SeqV(v, t) < w
    ensures forall u: nat :: u != t ==> Finished(h, u) == Finished(v.h, u) && Settled(h, u) == Settled(v.h, u)
    ensures PhaseOf(w, SlotOf(t, v.cap), v.cap)
  {
    assert SeqOk(v, t);
    assert SlotOf(t + v.cap, v.cap) == SlotOf(t, v.cap);
  }

  lemma SeqWriteKeepsSeqInv(v: View, t: nat, w: nat, h: History)
    requires ViewInv(v) && Moves(v, t, w, h)
    ensures SeqInv(SeqWritten(v, t, w, h))
  {
    var v' := SeqWritten(v, t, w, h);
    MovesUnfinished(v, t, w, h);
    assert SeqOk(v', t);
    forall u: nat | u < v.enq && u != t ensures SeqOk(v', u) {
      assert SeqOk(v, u);
      if SlotOf(u, v.cap) == SlotOf(t, v.cap) && !Finished(v.h, u) {
        OneTicketPerSlot(v, t, u);
      }
    }
    forall u: nat | v.enq <= u ensures SeqV(v', u) <= u {
      assert SeqV(v, u) <= u;
      if SlotOf(u, v.cap) == SlotOf(t, v.cap) {
        SlotGap(t, u, v.cap);
      }
    }
  }

  lemma SeqWriteKeepsSlotInv(v: View, t: nat, w: nat, h: History)
    requires ViewInv(v) && Moves(v, t, w, h)
    requires Publishes(v, t, w, h) ==> v.msgs[SlotOf(t, v.cap)] == v.h.jobs[t]
    ensures SlotInv(SeqWritten(v, t, w, h))
  {
    var v' := SeqWritten(v, t, w, h);
    MovesUnfinished(v, t, w, h);
    forall u: nat | u < v'.enq && !Finished(h, u) ensures SlotOk(v', u) {
      if u != t {
        assert SlotOk(v, u);
        if SlotOf(u, v.cap) == SlotOf(t, v.cap) {
          OneTicketPerSlot(v, t, u);
        }
      }
    }
    forall i | 0 <= i < v'.cap ensures OwnedOk(v', i) {
      assert OwnedOk(v, i);
    }
  }

  lemma SeqWriteKeepsTickets(v: View, t: nat, w: nat, h: History)
    requires ViewInv(v) && Moves(v, t, w, h)
    ensures var v' := SeqWritten(v, t, w, h); TicketInv(v') && LostInv(v') && LogInv(h)
  {
    var v' := SeqWritten(v, t, w, h);
    forall u: nat | u in h.lost ensures u < v'.enq && HolderDead(v', u) {
      assert u in v.h.lost ==> HolderDead(v, u);
    }
    forall j | 0 <= j < |h.outs| ensures OutOk(h, h.outs[j]) {
      assert OutOk(v.h, v.h.outs[j]);
    }
  }

  lemma SeqWriteScanStable(v: View, t: nat, w: nat, h: History, pc: PC)
    requires ViewInv(v) && Moves(v, t, w, h) && ScanOk(v, pc)
    ensures ScanOk(SeqWritten(v, t, w, h), pc)
  {
    MovesUnfinished(v, t, w, h);
    if pc.PClaim? && pc.p == v.enq {
      EmptySlotIsFree(v, t, pc.p);
    } else if pc.CTake? && pc.p == v.deq {
      ReadyAtDeq(v, pc.p);
      if SlotOf(pc.p, v.cap) == SlotOf(t, v.cap) {
        OneTicketPerSlot(v, t, pc.p);
        assert false;
      }
    }
  }

  predicate Holds(pc: PC, t: nat) { (IsWriting(pc) || IsCarrying(pc)) && pc.t == t }

  /** Nobody but the mover holds the ticket that moves. */
  lemma OthersHoldOther(s: State, pid: nat, t: nat, w: nat, h: History, q: nat)
    requires Inv(s) && pid in s.procs && q in s.procs && q != pid && Moves(V(s), t, w, h)
    requires Loses(V(s), t, w, h) || Holds(s.procs[pid], t)
    ensures !Holds(s.procs[q], t)
  {
    var v, b := V(s), s.procs[q];
    assert ProcOk(v, q, b);
    if (IsWriting(b) || IsCarrying(b)) && Holds(s.procs[pid], t) {
      HoldersDiffer(v, pid, s.procs[pid], q, b);
    }
  }

  lemma SeqWriteStable(s: State, pid: nat, t: nat, w: nat, h: History, q: nat)
    requires Inv(s) && pid in s.procs && q in s.procs && q != pid && Moves(V(s), t, w, h)
    requires Loses(V(s), t, w, h) || Holds(s.procs[pid], t)
    ensures ProcOk(SeqWritten(V(s), t, w, h), q, s.procs[q])
  {
    OthersHoldOther(s, pid, t, w, h, q);
    SeqWriteScanStable(V(s), t, w, h, s.procs[q]);
    HoldStable(V(s), SeqWritten(V(s), t, w, h), q, s.procs[q]);
  }

  /** The holder of t publishes or finishes it, or a repair finishes it. */
  lemma SeqStep(s: State, s': State, pid: nat, t: nat, w: nat)
    requires Inv(s) && Moved(s, s', pid) && Moves(V(s), t, w, s'.h) && V(s') == SeqWritten(V(s), t, w, s'.h)
    requires Publishes(V(s), t, w, s'.h) ==> s.msgs[SlotOf(t, s.cap)] == s.h.jobs[t]
    requires Loses(V(s), t, w, s'.h) || Holds(s.procs[pid], t)
    requires ProcOk(V(s'), pid, s'.procs[pid])
    requires IsWriting(s.procs[pid]) ==> Settled(s'.h, s.procs[pid].t)
    requires IsCarrying(s.procs[pid]) ==> IsCarrying(s'.procs[pid]) && s'.procs[pid].t == s.procs[pid].t
    ensures Inv(s')
  {
    SeqWriteKeepsViewInv(V(s), t, w, s'.h);
    SeqWriteOthers(s, pid, t, w, s'.h);
    MovesUnfinished(V(s), t, w, s'.h);
    NothingLost(V(s), V(s'), s.procs, pid, s'.procs[pid]);
  }

  lemma SeqWriteKeepsViewInv(v: View, t: nat, w: nat, h: History)
    requires ViewInv(v) && Moves(v, t, w, h)
    requires Publishes(v, t, w, h) ==> v.msgs[SlotOf(t, v.cap)] == v.h.jobs[t]
    ensures ViewInv(SeqWritten(v, t, w, h))
  {
    SeqWriteKeepsSeqInv(v, t, w, h);
    SeqWriteKeepsSlotInv(v, t, w, h);
    SeqWriteKeepsTickets(v, t, w, h);
  }

  lemma SeqWriteOthers(s: State, pid: nat, t: nat, w: nat, h: History)
    requires Inv(s) && pid in s.procs && Moves(V(s), t, w, h)
    requires Loses(V(s), t, w, h) || Holds(s.procs[pid], t)
    ensures Sized(SeqWritten(V(s), t, w, h))
    ensures forall q | q in s.procs && q != pid :: ProcOk(SeqWritten(V(s), t, w, h), q, s.procs[q])
  {
    forall q | q in s.procs && q != pid ensures ProcOk(SeqWritten(V(s), t, w, h), q, s.procs[q]) {
      SeqWriteStable(s, pid, t, w, h, q);
    }
  }

  // ---- Clauses a step leaves alone ----

  lemma SameSeqs(v: View, v': View)
    requires Sized(v) && Sized(v') && SeqInv(v)
    requires v'.cap == v.cap && v'.enq == v.enq && v'.seqs == v.seqs
    requires v'.h.published == v.h.published && v'.h.tombs == v.h.tombs && v'.h.recycled == v.h.recycled
    requires v'.h.lost == v.h.lost
    ensures SeqInv(v')
  {
    forall t: nat | t < v'.enq ensures SeqOk(v', t) {
      assert SeqOk(v, t);
    }
    forall t: nat | v'.enq <= t ensures SeqV(v', t) <= t {
      assert SeqV(v, t) <= t;
    }
  }

  lemma SameLost(v: View, v': View)
    requires Sized(v) && Sized(v') && LostInv(v)
    requires v'.h.lost == v.h.lost && v.enq <= v'.enq && v.h.claimers <= v'.h.claimers && v.dead <= v'.dead
    requires v'.h.published == v.h.published
    requires forall t: nat | t in v.h.takers :: t in v'.h.takers && v'.h.takers[t] == v.h.takers[t]
    ensures LostInv(v')
  {
    forall t: nat | t in v'.h.lost ensures t < v'.enq && HolderDead(v', t) {
      assert HolderDead(v, t);
    }
  }

  lemma SameOuts(h: History, h': History)
    requires LogInv(h)
    requires h'.outs == h.outs && h'.returned == h.returned && h.jobs <= h'.jobs
    requires forall t: nat | t in h.takers :: t in h'.takers && h'.takers[t] == h.takers[t]
    requires forall i, j | 0 <= i < j < |h'.takeLog| :: h'.takeLog[i] < h'.takeLog[j]
    requires forall t: nat :: t in h'.takeLog <==> t in h'.takers
    ensures LogInv(h')
  {
    forall j | 0 <= j < |h'.outs| ensures OutOk(h', h'.outs[j]) {
      assert OutOk(h, h.outs[j]);
    }
  }

  // ---- The other steps that change shared state ----

  lemma ClaimView(v: View, v': View, job: M.Job, pid: nat)
    requires ViewInv(v) && SeqV(v, v.enq) == v.enq && pid != 0
    requires v' == v.(enq := v.enq + 1, h := v.h.(jobs := v.h.jobs + [job], claimers := v.h.claimers + [pid]))
    ensures ViewInv(v')
  {
    forall t: nat | t < v'.enq ensures SeqOk(v', t) {
      if t < v.enq {
        assert SeqOk(v, t);
      }
    }
    forall t: nat | v'.enq <= t ensures SeqV(v', t) <= t {
      assert SeqV(v, t) <= t;
    }
    SameLost(v, v');
    SameOuts(v.h, v'.h);
    ClaimSlots(v, v', job, pid);
  }

  /** The slot of a fresh ticket is unowned: its word is EMPTY, so no unfinished
      ticket is there. */
  lemma ClaimSlots(v: View, v': View, job: M.Job, pid: nat)
    requires ViewInv(v) && SeqV(v, v.enq) == v.enq
    requires v' == v.(enq := v.enq + 1, h := v.h.(jobs := v.h.jobs + [job], claimers := v.h.claimers + [pid]))
    ensures SlotInv(v')
  {
    forall i | 0 <= i < v'.cap ensures OwnedOk(v', i) {
      assert OwnedOk(v, i);
    }
    forall t: nat | t < v'.enq && !Finished(v'.h, t) ensures SlotOk(v', t) {
      if t < v.enq {
        assert SlotOk(v, t);
      } else {
        var i := SlotOf(t, v.cap);
        assert OwnedOk(v, i);
        if v.owners[i] != 0 {
          EmptySlotIsFree(v, v.tickets[i], t);
        }
      }
    }
  }

  lemma ClaimStep(s: State, s': State, pid: nat, job: M.Job)
    requires Inv(s) && Moved(s, s', pid) && SeqV(V(s), s.enq) == s.enq
    requires s'.procs[pid] == PGap(job, s.enq) && s.procs[pid].PClaim?
    requires V(s') == V(s).(enq := s.enq + 1,
                            h := s.h.(jobs := s.h.jobs + [job], claimers := s.h.claimers + [pid]))
    ensures Inv(s')
  {
    assert ProcOk(V(s), pid, s.procs[pid]);
    ClaimView(V(s), V(s'), job, pid);
    forall q | q in s.procs && q != pid ensures ProcOk(V(s'), q, s.procs[q]) {
      HoldStable(V(s), V(s'), q, s.procs[q]);
    }
    NothingLost(V(s), V(s'), s.procs, pid, s'.procs[pid]);
  }

  /** The owner record of the mover's own unfinished ticket is written. */
  function OwnerWritten(v: View, t: nat, pid: nat, deq: nat, h: History): View
    requires Sized(v)
  {
    var i := SlotOf(t, v.cap);
    v.(owners := v.owners[i := pid], tickets := v.tickets[i := t], deq := deq, h := h)
  }

  lemma OwnerSlots(v: View, t: nat, pid: nat, deq: nat, h: History)
    requires ViewInv(v) && t < v.enq && !Finished(v.h, t)
    requires || (t !in v.h.published && v.h.claimers[t] == pid && h == v.h.(recorded := v.h.recorded + {t}))
             || (t in v.h.published && t !in v.h.takers
                 && h == v.h.(takeLog := v.h.takeLog + [t], takers := v.h.takers[t := pid]))
    ensures SlotInv(OwnerWritten(v, t, pid, deq, h))
  {
    var v' := OwnerWritten(v, t, pid, deq, h);
    forall u: nat | u < v'.enq && !Finished(h, u) ensures SlotOk(v', u) {
      assert SlotOk(v, u);
      if SlotOf(u, v.cap) == SlotOf(t, v.cap) {
        OneTicketPerSlot(v, t, u);
      }
    }
    forall i | 0 <= i < v'.cap ensures OwnedOk(v', i) {
      assert OwnedOk(v, i);
      if i != SlotOf(t, v.cap) && v.owners[i] != 0 {
        assert v.tickets[i] != t;
      }
    }
  }

  lemma RecordStep(s: State, s': State, pid: nat)
    requires Inv(s) && Moved(s, s', pid) && s.procs[pid].PGap?
    requires s'.procs[pid] == PAlloc(s.procs[pid].job, s.procs[pid].t)
    requires V(s') == OwnerWritten(V(s), s.procs[pid].t, pid, s.deq, s.h.(recorded := s.h.recorded + {s.procs[pid].t}))
    ensures Inv(s')
  {
    var v, t := V(s), s.procs[pid].t;
    assert ProcOk(v, pid, s.procs[pid]);
    OwnerSlots(v, t, pid, s.deq, s'.h);
    SameSeqs(v, V(s'));
    SameLost(v, V(s'));
    SameOuts(v.h, s'.h);
    forall q | q in s.procs && q != pid ensures ProcOk(V(s'), q, s.procs[q]) {
      if IsWriting(s.procs[q]) || IsCarrying(s.procs[q]) {
        HoldersDiffer(v, pid, s.procs[pid], q, s.procs[q]);
      }
      HoldStable(v, V(s'), q, s.procs[q]);
    }
    NothingLost(v, V(s'), s.procs, pid, s'.procs[pid]);
  }

  lemma TakeStep(s: State, s': State, pid: nat)
    requires Inv(s) && Moved(s, s', pid) && s.procs[pid].CTake? && SeqV(V(s), s.deq) == s.deq + 1
    requires s'.procs[pid] == CRead(s.deq)
    requires V(s') == OwnerWritten(V(s), s.deq, pid, s.deq + 1,
                                   s.h.(takeLog := s.h.takeLog + [s.deq], takers := s.h.takers[s.deq := pid]))
    ensures Inv(s')
  {
    TakeView(V(s), V(s'), pid);
    TakeOthers(s, V(s'), pid);
    TakeNoLoss(s, V(s'), pid);
  }

  lemma TakeOthers(s: State, v': View, pid: nat)
    requires Inv(s) && pid in s.procs && s.procs[pid].CTake? && SeqV(V(s), s.deq) == s.deq + 1
    requires v' == OwnerWritten(V(s), s.deq, pid, s.deq + 1,
                                s.h.(takeLog := s.h.takeLog + [s.deq], takers := s.h.takers[s.deq := pid]))
    ensures ProcOk(v', pid, CRead(s.deq))
    ensures forall q | q in s.procs && q != pid :: ProcOk(v', q, s.procs[q])
  {
    ReadyAtDeq(V(s), s.deq);
    assert ProcOk(V(s), pid, s.procs[pid]);
    forall q | q in s.procs && q != pid ensures ProcOk(v', q, s.procs[q]) {
      HoldStable(V(s), v', q, s.procs[q]);
    }
  }

  lemma TakeNoLoss(s: State, v': View, pid: nat)
    requires Inv(s) && pid in s.procs && s.procs[pid].CTake? && SeqV(V(s), s.deq) == s.deq + 1
    requires v' == OwnerWritten(V(s), s.deq, pid, s.deq + 1,
                                s.h.(takeLog := s.h.takeLog + [s.deq], takers := s.h.takers[s.deq := pid]))
    ensures NoLoss(v', s.procs[pid := CRead(s.deq)])
  {
    ReadyAtDeq(V(s), s.deq);
    NothingLost(V(s), v', s.procs, pid, CRead(s.deq));
  }

  lemma TakeView(v: View, v': View, pid: nat)
    requires ViewInv(v) && SeqV(v, v.deq) == v.deq + 1
    requires v' == OwnerWritten(v, v.deq, pid, v.deq + 1,
                                v.h.(takeLog := v.h.takeLog + [v.deq], takers := v.h.takers[v.deq := pid]))
    ensures ViewInv(v')
  {
    ReadyAtDeq(v, v.deq);
    OwnerSlots(v, v.deq, pid, v.deq + 1, v'.h);
    SameSeqs(v, v');
    SameLost(v, v');
    assert forall i | 0 <= i < |v.h.takeLog| :: v.h.takeLog[i] in v.h.takeLog;
    SameOuts(v.h, v'.h);
  }

  lemma SkipStep(s: State, s': State, pid: nat)
    requires Inv(s) && Moved(s, s', pid) && s.procs[pid].CSkip? && SeqV(V(s), s.deq) > s.deq + 1
    requires s'.procs[pid] == CLoadPos && V(s') == V(s).(deq := s.deq + 1)
    ensures Inv(s')
  {
    var v := V(s);
    GoneAtDeq(v, s.deq);
    SameSeqs(v, V(s'));
    SameLost(v, V(s'));
    SameSlots(v, V(s'));
    assert ProcOk(v, pid, s.procs[pid]);
    forall q | q in s.procs && q != pid ensures ProcOk(V(s'), q, s.procs[q]) {
      HoldStable(v, V(s'), q, s.procs[q]);
    }
    NothingLost(v, V(s'), s.procs, pid, CLoadPos);
  }

  lemma SameSlots(v: View, v': View)
    requires Sized(v) && Sized(v') && SlotInv(v)
    requires v'.cap == v.cap && v'.enq == v.enq && v'.owners == v.owners && v'.tickets == v.tickets && v'.msgs == v.msgs
    requires v'.h == v.h.(outs := v'.h.outs, returned := v'.h.returned)
    ensures SlotInv(v')
  {
    forall t: nat | t < v'.enq && !Finished(v'.h, t) ensures SlotOk(v', t) {
      assert SlotOk(v, t);
    }
    forall i | 0 <= i < v'.cap ensures OwnedOk(v', i) {
      assert OwnedOk(v, i);
    }
  }

  lemma MsgView(v: View, v': View, t: nat, job: M.Job)
    requires ViewInv(v) && t < v.enq && !Settled(v.h, t) && !Finished(v.h, t)
    requires v' == v.(msgs := v.msgs[SlotOf(t, v.cap) := job])
    ensures ViewInv(v')
  {
    SameSeqs(v, v');
    SameLost(v, v');
    forall u: nat | u < v'.enq && !Finished(v'.h, u) ensures SlotOk(v', u) {
      assert SlotOk(v, u);
      if SlotOf(u, v.cap) == SlotOf(t, v.cap) {
        OneTicketPerSlot(v, t, u);
      }
    }
    forall i | 0 <= i < v'.cap ensures OwnedOk(v', i) {
      assert OwnedOk(v, i);
    }
  }

  lemma MsgStep(s: State, s': State, pid: nat)
    requires Inv(s) && Moved(s, s', pid) && s.procs[pid].PWrite?
    requires s'.procs[pid] == PPublish(s.procs[pid].job, s.procs[pid].t)
    requires V(s') == V(s).(msgs := s.msgs[SlotOf(s.procs[pid].t, s.cap) := s.procs[pid].job])
    ensures Inv(s')
  {
    var v, v', t := V(s), V(s'), s.procs[pid].t;
    assert ProcOk(v, pid, s.procs[pid]);
    MsgView(v, v', t, s.procs[pid].job);
    forall q | q in s.procs && q != pid ensures ProcOk(v', q, s.procs[q]) {
      if IsWriting(s.procs[q]) {
        HoldersDiffer(v, pid, s.procs[pid], q, s.procs[q]);
        if SlotOf(s.procs[q].t, v.cap) == SlotOf(t, v.cap) {
          OneTicketPerSlot(v, t, s.procs[q].t);
        }
      }
      HoldStable(v, v', q, s.procs[q]);
    }
    NothingLost(v, v', s.procs, pid, s'.procs[pid]);
  }

  lemma ReturnLog(h: History, h': History, x: Out)
    requires LogInv(h) && h' == h.(outs := h.outs + [x], returned := h.returned + {x.ticket})
    requires x.ticket !in h.returned && x.ticket in h.takers && h.takers[x.ticket] == x.pid
    requires x.ticket < |h.jobs| && x.job == h.jobs[x.ticket]
    ensures LogInv(h')
  {
    forall j | 0 <= j < |h'.outs| ensures OutOk(h', h'.outs[j]) {
      assert j < |h.outs| ==> OutOk(h, h.outs[j]);
    }
    forall i, j | 0 <= i < j < |h'.outs| ensures h'.outs[i].ticket != h'.outs[j].ticket {
      assert OutOk(h, h.outs[i]);
    }
  }

  lemma ReturnStep(s: State, s': State, pid: nat, x: Out)
    requires Inv(s) && Moved(s, s', pid) && s.procs[pid].CReturn? && s'.procs[pid] == Idle
    requires x == Out(s.procs[pid].t, pid, s.procs[pid].job)
    requires V(s') == V(s).(h := s.h.(outs := s.h.outs + [x], returned := s.h.returned + {x.ticket}))
    ensures Inv(s')
  {
    var v := V(s);
    assert ProcOk(v, pid, s.procs[pid]);
    SameSeqs(v, V(s'));
    SameLost(v, V(s'));
    SameSlots(v, V(s'));
    ReturnLog(v.h, s'.h, x);
    forall q | q in s.procs && q != pid ensures ProcOk(V(s'), q, s.procs[q]) {
      if IsWriting(s.procs[q]) || IsCarrying(s.procs[q]) {
        HoldersDiffer(v, pid, s.procs[pid], q, s.procs[q]);
      }
      HoldStable(v, V(s'), q, s.procs[q]);
    }
    NothingLost(v, V(s'), s.procs, pid, Idle);
  }

  lemma CrashStep(s: State, s': State, pid: nat)
    requires Inv(s) && Moved(s, s', pid) && s'.procs[pid] == Crashed && !s.procs[pid].Crashed?
    requires V(s') == V(s).(dead := s.dead + {pid})
    ensures Inv(s')
  {
    var v := V(s);
    assert ProcOk(v, pid, s.procs[pid]);
    SameSeqs(v, V(s'));
    SameLost(v, V(s'));
    SameSlots(v, V(s'));
    forall q | q in s.procs && q != pid ensures ProcOk(V(s'), q, s.procs[q]) {
      HoldStable(v, V(s'), q, s.procs[q]);
    }
    NothingLost(v, V(s'), s.procs, pid, Crashed);
  }

  // ---- Every step ----

  predicate StepsLocally(s: State, pc: PC) {
    || pc.PLoadPos? || pc.PLoadSeq? || pc.PSuspect? || (pc.PClaim? && s.enq != pc.p) || pc.PAlloc?
    || pc.CLoadPos? || pc.CLoadSeq? || pc.CSuspect? || ((pc.CSkip? || pc.CTake?) && s.deq != pc.p) || pc.CRead?
  }

  lemma ProducerLocal(s: State, s': State, pid: nat, pc: PC, c: Choice)
    requires Wf(s) && Sized(V(s)) && pid in s.procs && pc == s.procs[pid] && ProcOk(V(s), pid, pc)
    requires IsProducer(pc) && StepsLocally(s, pc) && s' == ProducerStep(s, pid, pc, c)
    requires c.dead && pc.PSuspect? ==> OwnerAt(s, pc.p) in s.dead
    ensures Moved(s, s', pid) && V(s') == V(s) && ProcOk(V(s), pid, s'.procs[pid]) && SameHold(pc, s'.procs[pid])
  {
  }

  lemma ProducerFinishes(s: State, s': State, pid: nat, pc: PC, c: Choice)
    requires Inv(s) && pid in s.procs && pc == s.procs[pid] && (pc.PSkip? || pc.PPublish?)
    requires s' == ProducerStep(s, pid, pc, c)
    ensures Inv(s')
  {
    assert ProcOk(V(s), pid, pc);
    SeqStep(s, s', pid, pc.t, if pc.PSkip? then pc.t + s.cap else pc.t + 1);
  }

  lemma ProducerKeepsInv(s: State, s': State, pid: nat, pc: PC, c: Choice)
    requires Inv(s) && pid in s.procs && pc == s.procs[pid] && IsProducer(pc) && s' == ProducerStep(s, pid, pc, c)
    requires c.dead && pc.PSuspect? ==> OwnerAt(s, pc.p) in s.dead
    ensures Inv(s')
  {
    if StepsLocally(s, pc) {
      ProducerLocal(s, s', pid, pc, c);
      LocalStep(s, s', pid);
    } else if pc.PSkip? || pc.PPublish? {
      ProducerFinishes(s, s', pid, pc, c);
    } else if pc.PClaim? {
      assert ProcOk(V(s), pid, pc);
      ClaimStep(s, s', pid, pc.job);
    } else if pc.PGap? {
      RecordStep(s, s', pid);
    } else {
      MsgStep(s, s', pid);
    }
  }

  lemma ConsumerLocal(s: State, s': State, pid: nat, pc: PC, c: Choice)
    requires Wf(s) && ViewInv(V(s)) && pid in s.procs && pc == s.procs[pid] && ProcOk(V(s), pid, pc)
    requires IsConsumer(pc) && StepsLocally(s, pc) && s' == ConsumerStep(s, pid, pc, c)
    requires c.dead && pc.CSuspect? ==> OwnerAt(s, pc.p) in s.dead
    ensures Moved(s, s', pid) && V(s') == V(s) && ProcOk(V(s), pid, s'.procs[pid]) && SameHold(pc, s'.procs[pid])
  {
    if pc.CRead? {
      ReadLocal(s, s', pid, pc, c);
    } else {
      ScanLocal(s, s', pid, pc, c);
    }
  }

  lemma ScanLocal(s: State, s': State, pid: nat, pc: PC, c: Choice)
    requires Wf(s) && Sized(V(s)) && pid in s.procs && pc == s.procs[pid] && ProcOk(V(s), pid, pc)
    requires IsConsumer(pc) && StepsLocally(s, pc) && !pc.CRead? && s' == ConsumerStep(s, pid, pc, c)
    requires c.dead && pc.CSuspect? ==> OwnerAt(s, pc.p) in s.dead
    ensures ProcOk(V(s), pid, s'.procs[pid]) && SameHold(pc, s'.procs[pid])
  {
  }

  lemma ReadLocal(s: State, s': State, pid: nat, pc: PC, c: Choice)
    requires Wf(s) && ViewInv(V(s)) && pid in s.procs && pc == s.procs[pid] && ProcOk(V(s), pid, pc)
    requires pc.CRead? && s' == ConsumerStep(s, pid, pc, c)
    ensures ProcOk(V(s), pid, s'.procs[pid])
  {
    assert SlotOk(V(s), pc.t);
  }

  lemma ConsumerFinishes(s: State, s': State, pid: nat, pc: PC, c: Choice)
    requires Inv(s) && pid in s.procs && pc == s.procs[pid] && pc.CRecycle? && s' == ConsumerStep(s, pid, pc, c)
    ensures Inv(s')
  {
    assert ProcOk(V(s), pid, pc);
    SeqStep(s, s', pid, pc.t, pc.t + s.cap);
  }

  lemma ConsumerKeepsInv(s: State, s': State, pid: nat, pc: PC, c: Choice)
    requires Inv(s) && pid in s.procs && pc == s.procs[pid] && IsConsumer(pc) && s' == ConsumerStep(s, pid, pc, c)
    requires c.dead && pc.CSuspect? ==> OwnerAt(s, pc.p) in s.dead
    ensures Inv(s')
  {
    if StepsLocally(s, pc) {
      ConsumerLocal(s, s', pid, pc, c);
      LocalStep(s, s', pid);
    } else if pc.CRecycle? {
      ConsumerFinishes(s, s', pid, pc, c);
    } else if pc.CReturn? {
      ReturnStep(s, s', pid, Out(pc.t, pid, pc.job));
    } else {
      assert ProcOk(V(s), pid, pc);
      if pc.CSkip? {
        SkipStep(s, s', pid);
      } else {
        TakeStep(s, s', pid);
      }
    }
  }

  /** The corpse's record names an unfinished ticket, held by the corpse. */
  lemma CorpseTicket(v: View, i: nat)
    requires ViewInv(v) && i < v.cap && v.owners[i] != 0 && v.owners[i] in v.dead
    ensures var t := v.tickets[i]; t < v.enq && SlotOf(t, v.cap) == i && !Finished(v.h, t) && HolderDead(v, t)
  {
    assert OwnedOk(v, i);
    assert SlotOk(v, v.tickets[i]);
  }

  lemma RepairKeepsInv(s: State, s': State, pid: nat, pc: PC)
    requires Inv(s) && pid in s.procs && pc == s.procs[pid] && pc.Repair? && s' == RepairStep(s, pid, pc)
    ensures Inv(s')
  {
    assert ProcOk(V(s), pid, pc);
    var i := SlotOf(pc.p, s.cap);
    if s.owners[i] == pc.corpse {
      CorpseTicket(V(s), i);
      SeqStep(s, s', pid, s.tickets[i], s.tickets[i] + s.cap);
    } else {
      LocalStep(s, s', pid);
    }
  }

  /** A stuck slot is the residue of a producer that crashed in the claim gap, and
      the ring is exactly one round past it. */
  lemma StuckIsGapResidue(s: State, i: nat, m: nat)
    requires Inv(s) && NoLiveGap(s) && i < s.cap && m <= s.enq && Stuck(s, i, m)
    ensures var t := s.seqs[i];
            && t < s.enq && SlotOf(t, s.cap) == i && !Settled(s.h, t) && t !in s.h.recorded
            && s.h.claimers[t] in s.dead && m == s.enq == t + s.cap
  {
    var v, w := V(s), s.seqs[i];
    assert PhaseOf(v.seqs[i], i, v.cap);
    if SlotOf(w, s.cap) != i {
      assert SeqOk(v, w - 1);
      NeverLapped(v, w - 1);
      assert false;
    }
    assert SeqOk(v, w);
    NeverLapped(v, w);
    assert SlotOk(v, w);
    assert WriterKept(v, s.procs, w);
    if v.h.claimers[w] in s.procs {
      assert ProcOk(v, v.h.claimers[w], s.procs[v.h.claimers[w]]);
    }
  }

  lemma CompactSlotKeepsInv(s: State, s': State, pid: nat, i: nat, m: nat)
    requires Inv(s) && NoLiveGap(s) && pid in s.procs && s.procs[pid] == KSlot(i, m) && i < s.cap
    requires s' == Goto(CompactSlot(s, i, m), pid, KSlot(i + 1, m))
    ensures Inv(s')
  {
    assert ProcOk(V(s), pid, s.procs[pid]);
    if Stuck(s, i, m) && s.marks[i] {
      StuckIsGapResidue(s, i, m);
      var t := s.seqs[i];
      assert SlotOf(m, s.cap) == i;
      assert s.owners[i := 0] == s.owners;
      SeqStep(s, s', pid, t, t + s.cap);
    } else {
      LocalStep(s, s', pid);
    }
  }

  lemma CompactKeepsInv(s: State, s': State, pid: nat, pc: PC)
    requires Inv(s) && pid in s.procs && pc == s.procs[pid] && IsCompact(pc) && s' == CompactStep(s, pid, pc)
    requires pc.KSlot? ==> NoLiveGap(s)
    ensures Inv(s')
  {
    assert ProcOk(V(s), pid, pc);
    if pc.KSlot? && pc.i < s.cap {
      CompactSlotKeepsInv(s, s', pid, pc.i, pc.m);
    } else {
      LocalStep(s, s', pid);
    }
  }

  lemma StartKeepsInv(s: State, s': State, pid: nat, op: Op)
    requires Inv(s) && pid in s.procs && s.procs[pid].Idle? && s' == Goto(s, pid, Start(op))
    ensures Inv(s')
  {
    assert ProcOk(V(s), pid, Idle);
    LocalStep(s, s', pid);
  }

  lemma StepKeepsInv(s: State, pid: nat, c: Choice)
    requires Inv(s) && Enabled(s, pid, c)
    ensures Inv(Step(s, pid, c))
  {
    var pc, s' := s.procs[pid], Step(s, pid, c);
    if c.crash {
      CrashStep(s, s', pid);
    } else if pc.Idle? {
      StartKeepsInv(s, s', pid, c.op);
    } else if IsProducer(pc) {
      ProducerKeepsInv(s, s', pid, pc, c);
    } else if IsConsumer(pc) {
      ConsumerKeepsInv(s, s', pid, pc, c);
    } else if pc.Repair? {
      RepairKeepsInv(s, s', pid, pc);
    } else {
      CompactKeepsInv(s, s', pid, pc);
    }
  }

  lemma InitInv(s: State)
    requires Init(s)
    ensures Inv(s)
  {
    forall t: nat ensures SeqV(V(s), t) <= t {
      M.SlotOfBelow(t, s.cap);
    }
    forall i | 0 <= i < s.cap ensures PhaseOf(s.seqs[i], i, s.cap) {
      assert SlotOf(i, s.cap) == i;
    }
  }

  lemma NextKeepsInv(s: State, s': State)
    requires Next(s, s')
    ensures Inv(s) ==> Inv(s')
  {
    var pid: nat, c: Choice :| Enabled(s, pid, c) && s' == Step(s, pid, c);
    if Inv(s) {
      StepKeepsInv(s, pid, c);
    }
  }

  lemma RunNext(r: seq<State>, n: nat)
    requires Run(r) && n + 1 < |r|
    ensures Next(r[n], r[n + 1])
  {
    assert NextAt(r, n);
  }

  lemma RunInv(r: seq<State>, n: nat)
    requires Run(r) && n < |r|
    ensures Inv(r[n])
  {
    var k := 0;
    InitInv(r[k]);
    while k < n
      invariant k <= n && Inv(r[k])
    {
      RunNext(r, k);
      NextKeepsInv(r[k], r[k + 1]);
      k := k + 1;
    }
  }

  // ---- What holds in every run ----

  /** Where a claimed ticket is in its life. */
  datatype Fate = Tombstoned | Lost | Writing | Ready | Reading | Delivered

  predicate InOuts(h: History, t: nat) { exists j :: 0 <= j < |h.outs| && h.outs[j].ticket == t }

  function FateOf(h: History, t: nat): Fate {
    if t in h.tombs then Tombstoned
    else if t in h.lost then Lost
    else if t !in h.published then Writing
    else if t !in h.takers then Ready
    else if InOuts(h, t) then Delivered
    else Reading
  }

  /** What each fate means: who answers for the ticket, and what its slot holds. */
  ghost predicate Accounted(s: State, t: nat)
    requires Wf(s) && t < |s.h.jobs| && t < |s.h.claimers|
  {
    var h, i := s.h, SlotOf(t, s.cap);
    match FateOf(h, t)
    case Tombstoned => t !in h.published && !InOuts(h, t) && s.seqs[i] >= t + s.cap
    case Lost =>
      !InOuts(h, t) && s.seqs[i] >= t + s.cap
      && (if t in h.published then t in h.takers && h.takers[t] in s.dead else h.claimers[t] in s.dead)
    case Writing => s.seqs[i] == t && (h.claimers[t] in s.dead || WritesFor(s.procs, h.claimers[t], t))
    case Ready => s.deq <= t && s.seqs[i] == t + 1 && s.owners[i] == 0 && s.msgs[i] == h.jobs[t]
    case Reading => t < s.deq && (h.takers[t] in s.dead || CarriesFor(s.procs, h.takers[t], t))
    case Delivered =>
      exists j :: 0 <= j < |h.outs| && h.outs[j] == Out(t, h.takers[t], h.jobs[t]) && OnlyOut(h.outs, j)
  }

  /** The j-th delivery is the only one of its ticket. */
  ghost predicate OnlyOut(outs: seq<Out>, j: nat)
    requires j < |outs|
  {
    forall k | 0 <= k < |outs| && k != j :: outs[k].ticket != outs[j].ticket
  }

  /** Every claimed ticket is accounted for, whatever crashes and repairs happened:
      delivered once, by its taker, as sent, or lost with the dead process that held it,
      or a tombstone, or intact in the ring, or in the hands of its claimer. In
      particular a published message that no consumer took is still in its slot. */
  lemma EveryTicketAccountedFor(r: seq<State>, n: nat, t: nat)
    requires Run(r) && n < |r| && t < r[n].enq
    ensures Wf(r[n]) && t < |r[n].h.jobs| && t < |r[n].h.claimers| && Accounted(r[n], t)
  {
    RunInv(r, n);
    OutsComplete(r, n);
    AccountedInState(r[n], t);
  }

  lemma AccountedInState(s: State, t: nat)
    requires Inv(s) && OutsFull(s.h) && t < s.enq
    ensures Accounted(s, t)
  {
    var v := V(s);
    assert SeqOk(v, t) && WriterKept(v, s.procs, t) && ReaderKept(v, s.procs, t);
    assert !Finished(v.h, t) ==> SlotOk(v, t);
    assert t in v.h.lost ==> HolderDead(v, t);
    assert t in v.h.returned ==> InOuts(v.h, t);
    if InOuts(v.h, t) {
      DeliveredOnce(v.h, t);
    }
  }

  lemma DeliveredOnce(h: History, t: nat)
    requires LogInv(h) && InOuts(h, t)
    ensures t in h.returned && t in h.takers && t < |h.jobs|
    ensures exists j :: 0 <= j < |h.outs| && h.outs[j] == Out(t, h.takers[t], h.jobs[t]) && OnlyOut(h.outs, j)
  {
    var j :| 0 <= j < |h.outs| && h.outs[j].ticket == t;
    assert OutOk(h, h.outs[j]);
    forall k | 0 <= k < |h.outs| && k != j ensures h.outs[k].ticket != t {
    }
    assert OnlyOut(h.outs, j);
  }

  ghost predicate OutsFull(h: History) { forall t: nat | t in h.returned :: InOuts(h, t) }

  /** A step returns at most one message, and logs it. */
  ghost predicate OutsGrow(h: History, h': History) {
    || (h'.outs == h.outs && h'.returned == h.returned)
    || (|h'.outs| == |h.outs| + 1 && h.outs <= h'.outs && h'.returned == h.returned + {h'.outs[|h.outs|].ticket})
  }

  lemma ProducerOuts(s: State, pid: nat, pc: PC, c: Choice)
    requires Wf(s) && IsProducer(pc)
    ensures OutsGrow(s.h, ProducerStep(s, pid, pc, c).h)
  {
  }

  lemma ConsumerOuts(s: State, pid: nat, pc: PC, c: Choice)
    requires Wf(s) && IsConsumer(pc)
    ensures OutsGrow(s.h, ConsumerStep(s, pid, pc, c).h)
  {
  }

  lemma RepairOuts(s: State, pid: nat, pc: PC)
    requires Wf(s)
    ensures pc.Repair? ==> OutsGrow(s.h, RepairStep(s, pid, pc).h)
    ensures IsCompact(pc) ==> OutsGrow(s.h, CompactStep(s, pid, pc).h)
  {
  }

  lemma StepOuts(s: State, s': State)
    requires Next(s, s')
    ensures OutsGrow(s.h, s'.h)
  {
    var pid: nat, c: Choice :| Enabled(s, pid, c) && s' == Step(s, pid, c);
    var pc := s.procs[pid];
    if IsProducer(pc) {
      ProducerOuts(s, pid, pc, c);
    } else if IsConsumer(pc) {
      ConsumerOuts(s, pid, pc, c);
    } else {
      RepairOuts(s, pid, pc);
    }
  }

  lemma OutsStayFull(h: History, h': History)
    requires OutsGrow(h, h') && OutsFull(h)
    ensures OutsFull(h')
  {
    forall t: nat | t in h'.returned ensures InOuts(h', t) {
      if t in h.returned {
        var j :| 0 <= j < |h.outs| && h.outs[j].ticket == t;
        assert h'.outs[j].ticket == t;
      } else {
        assert h'.outs[|h.outs|].ticket == t;
      }
    }
  }

  lemma OutsComplete(r: seq<State>, n: nat)
    requires Run(r) && n < |r|
    ensures OutsFull(r[n].h)
  {
    var k := 0;
    while k < n
      invariant k <= n && OutsFull(r[k].h)
    {
      RunNext(r, k);
      StepOuts(r[k], r[k + 1]);
      OutsStayFull(r[k].h, r[k + 1].h);
      k := k + 1;
    }
  }

  /** Repairs, by recovery or by compaction, finish only tickets whose holder is
      dead: its producer if it was never published, else the consumer that took it. */
  lemma RepairsFinishOnlyTheDead(r: seq<State>, n: nat, t: nat)
    requires Run(r) && n < |r| && t in r[n].h.lost
    ensures t < r[n].enq && t < |r[n].h.claimers|
    ensures if t in r[n].h.published then t in r[n].h.takers && r[n].h.takers[t] in r[n].dead
            else r[n].h.claimers[t] in r[n].dead
    ensures t !in r[n].h.tombs && t !in r[n].h.recycled
  {
    RunInv(r, n);
    assert HolderDead(V(r[n]), t);
  }

  /** Consumers claim tickets in strictly increasing order; below the dequeue
      position a ticket was claimed by one of them, tombstoned, or lost. */
  lemma TakesInOrder(r: seq<State>, n: nat)
    requires Run(r) && n < |r|
    ensures var h := r[n].h;
            && (forall i, j | 0 <= i < j < |h.takeLog| :: h.takeLog[i] < h.takeLog[j])
            && (forall t: nat | t in h.takeLog :: t < r[n].deq && t in h.published)
            && (forall t: nat | t < r[n].deq :: t in h.takeLog || t in h.tombs || t in h.lost)
            && (forall t: nat | t in h.tombs :: t !in h.takeLog)
    ensures r[n].deq <= r[n].enq
  {
    RunInv(r, n);
    assert ViewInv(V(r[n]));
  }

  /** One unfinished ticket per slot, never lapped; sequence words keep their phase. */
  lemma SlotsNeverShared(r: seq<State>, n: nat, t: nat)
    requires Run(r) && n < |r| && t < r[n].enq && !Finished(r[n].h, t)
    ensures r[n].enq <= t + r[n].cap
    ensures forall u: nat | u < r[n].enq && u != t && !Finished(r[n].h, u) ::
              SlotOf(u, r[n].cap) != SlotOf(t, r[n].cap)
    ensures |r[n].seqs| == r[n].cap && forall i | 0 <= i < r[n].cap :: PhaseOf(r[n].seqs[i], i, r[n].cap)
  {
    RunInv(r, n);
    NeverLapped(V(r[n]), t);
    forall u: nat | u < r[n].enq && u != t && !Finished(r[n].h, u) ensures SlotOf(u, r[n].cap) != SlotOf(t, r[n].cap) {
      if SlotOf(u, r[n].cap) == SlotOf(t, r[n].cap) {
        OneTicketPerSlot(V(r[n]), t, u);
      }
    }
  }

  // ---- Sequence words only move forward ----

  ghost predicate SeqsBelow(s: State, s': State) {
    s'.cap == s.cap && |s'.seqs| == |s.seqs| && forall i | 0 <= i < |s.seqs| :: s.seqs[i] <= s'.seqs[i]
  }

  lemma ProducerSeqs(s: State, pid: nat, pc: PC, c: Choice)
    requires Inv(s) && pid in s.procs && pc == s.procs[pid] && IsProducer(pc)
    ensures SeqsBelow(s, ProducerStep(s, pid, pc, c))
  {
    var v := V(s);
    assert ProcOk(v, pid, pc);
    if pc.PSkip? || pc.PPublish? {
      assert SeqOk(v, pc.t) && !Finished(v.h, pc.t);
    }
  }

  lemma ConsumerSeqs(s: State, pid: nat, pc: PC, c: Choice)
    requires Inv(s) && pid in s.procs && pc == s.procs[pid] && IsConsumer(pc)
    ensures SeqsBelow(s, ConsumerStep(s, pid, pc, c))
  {
    var v := V(s);
    assert ProcOk(v, pid, pc);
    if pc.CRecycle? {
      assert SeqOk(v, pc.t) && !Finished(v.h, pc.t);
    }
  }

  lemma RepairSeqs(s: State, pid: nat, pc: PC)
    requires Inv(s) && pid in s.procs && pc == s.procs[pid] && pc.Repair?
    ensures SeqsBelow(s, RepairStep(s, pid, pc))
  {
    var v, i := V(s), SlotOf(pc.p, s.cap);
    assert ProcOk(v, pid, pc);
    if s.owners[i] == pc.corpse {
      CorpseTicket(v, i);
      assert SeqOk(v, s.tickets[i]);
    }
  }

  lemma CompactSeqs(s: State, pid: nat, pc: PC)
    requires Inv(s) && pid in s.procs && pc == s.procs[pid] && IsCompact(pc) && (pc.KSlot? ==> NoLiveGap(s))
    ensures SeqsBelow(s, CompactStep(s, pid, pc))
  {
    assert ProcOk(V(s), pid, pc);
    if pc.KSlot? && pc.i < s.cap && Stuck(s, pc.i, pc.m) && s.marks[pc.i] {
      StuckIsGapResidue(s, pc.i, pc.m);
      M.NextTicketIsLeast(pc.m, pc.i, s.cap);
    }
  }

  lemma NextSeqs(s: State, s': State)
    requires Inv(s) && Next(s, s')
    ensures SeqsBelow(s, s')
  {
    var pid: nat, c: Choice :| Enabled(s, pid, c) && s' == Step(s, pid, c);
    var pc := s.procs[pid];
    if !c.crash && !pc.Idle? {
      if IsProducer(pc) {
        ProducerSeqs(s, pid, pc, c);
      } else if IsConsumer(pc) {
        ConsumerSeqs(s, pid, pc, c);
      } else if pc.Repair? {
        RepairSeqs(s, pid, pc);
      } else {
        CompactSeqs(s, pid, pc);
      }
    }
  }

  /** In every run, with crashes and repairs, no sequence word ever decreases. */
  lemma SeqWordsNeverDecrease(r: seq<State>, k: nat, n: nat)
    requires Run(r) && k <= n < |r|
    ensures SeqsBelow(r[k], r[n])
  {
    var j := k;
    while j < n
      invariant k <= j <= n && SeqsBelow(r[k], r[j])
    {
      RunInv(r, j);
      RunNext(r, j);
      NextSeqs(r[j], r[j + 1]);
      j := j + 1;
    }
  }

  // ---- Live processes are left alone ----

  predicate SameRow(s: State, s': State, i: nat)
    requires Wf(s) && Wf(s') && i < s.cap == s'.cap
  {
    && s'.seqs[i] == s.seqs[i] && s'.owners[i] == s.owners[i]
    && s'.tickets[i] == s.tickets[i] && s'.msgs[i] == s.msgs[i]
  }

  /** A step writes at most one slot, that of an unfinished ticket u. */
  ghost predicate WritesRowOf(s: State, s': State, u: nat) {
    && Wf(s) && Wf(s') && s'.cap == s.cap
    && forall i | 0 <= i < s.cap :: i == SlotOf(u, s.cap) || SameRow(s, s', i)
  }

  /** The ticket a step works on, if it touches a slot at all. */
  ghost predicate WorksOn(s: State, s': State, pid: nat, u: nat)
    requires pid in s.procs
  {
    && WritesRowOf(s, s', u) && u < s.enq && !Finished(s.h, u)
    && (Holds(s.procs[pid], u) || (u in s.h.published && u !in s.h.takers)
        || (u < |s.h.claimers| && HolderDead(V(s), u)))
  }

  ghost predicate WritesNoRow(s: State, s': State) {
    Wf(s) && Wf(s') && s'.cap == s.cap && forall i | 0 <= i < s.cap :: SameRow(s, s', i)
  }

  lemma StepWorksOn(s: State, pid: nat, c: Choice)
    requires Inv(s) && Enabled(s, pid, c)
    ensures var s' := Step(s, pid, c); WritesNoRow(s, s') || exists u: nat :: WorksOn(s, s', pid, u)
  {
    var pc, s' := s.procs[pid], Step(s, pid, c);
    if c.crash || pc.Idle? || StepsLocally(s, pc) {
      assert WritesNoRow(s, s');
    } else if IsProducer(pc) {
      ProducerWorksOn(s, pid, pc, c);
    } else if IsConsumer(pc) {
      ConsumerWorksOn(s, pid, pc, c);
    } else if pc.Repair? {
      RepairWorksOn(s, pid, pc);
    } else {
      CompactWorksOn(s, pid, pc);
    }
  }

  lemma ProducerWorksOn(s: State, pid: nat, pc: PC, c: Choice)
    requires Inv(s) && pid in s.procs && pc == s.procs[pid] && IsProducer(pc) && !StepsLocally(s, pc)
    ensures var s' := ProducerStep(s, pid, pc, c); WritesNoRow(s, s') || exists u: nat :: WorksOn(s, s', pid, u)
  {
    assert ProcOk(V(s), pid, pc);
    if pc.PClaim? {
      assert WritesNoRow(s, ProducerStep(s, pid, pc, c));
    } else {
      assert WorksOn(s, ProducerStep(s, pid, pc, c), pid, pc.t);
    }
  }

  lemma ConsumerWorksOn(s: State, pid: nat, pc: PC, c: Choice)
    requires Inv(s) && pid in s.procs && pc == s.procs[pid] && IsConsumer(pc) && !StepsLocally(s, pc)
    ensures var s' := ConsumerStep(s, pid, pc, c); WritesNoRow(s, s') || exists u: nat :: WorksOn(s, s', pid, u)
  {
    var s' := ConsumerStep(s, pid, pc, c);
    assert ProcOk(V(s), pid, pc);
    if pc.CTake? {
      ReadyAtDeq(V(s), s.deq);
      assert WorksOn(s, s', pid, s.deq);
    } else if pc.CRecycle? {
      assert WorksOn(s, s', pid, pc.t);
    } else {
      assert WritesNoRow(s, s');
    }
  }

  lemma RepairWorksOn(s: State, pid: nat, pc: PC)
    requires Inv(s) && pid in s.procs && pc == s.procs[pid] && pc.Repair?
    ensures var s' := RepairStep(s, pid, pc); WritesNoRow(s, s') || exists u: nat :: WorksOn(s, s', pid, u)
  {
    assert ProcOk(V(s), pid, pc);
    var i := SlotOf(pc.p, s.cap);
    if s.owners[i] == pc.corpse {
      CorpseTicket(V(s), i);
      assert WorksOn(s, RepairStep(s, pid, pc), pid, s.tickets[i]);
    } else {
      assert WritesNoRow(s, RepairStep(s, pid, pc));
    }
  }

  lemma CompactWorksOn(s: State, pid: nat, pc: PC)
    requires Inv(s) && pid in s.procs && pc == s.procs[pid] && IsCompact(pc) && (pc.KSlot? ==> NoLiveGap(s))
    ensures var s' := CompactStep(s, pid, pc); WritesNoRow(s, s') || exists u: nat :: WorksOn(s, s', pid, u)
  {
    assert ProcOk(V(s), pid, pc);
    var s' := CompactStep(s, pid, pc);
    if pc.KSlot? && pc.i < s.cap && Stuck(s, pc.i, pc.m) && s.marks[pc.i] {
      StuckIsGapResidue(s, pc.i, pc.m);
      assert WorksOn(s, s', pid, s.seqs[pc.i]);
    } else {
      assert WritesNoRow(s, s');
    }
  }

  /** No step of another process, repairs included, touches the slot of an
      unfinished ticket that a live process holds. */
  lemma LiveHoldersUndisturbed(r: seq<State>, n: nat, pid: nat, c: Choice, q: nat, t: nat)
    requires Run(r) && n < |r| && Enabled(r[n], pid, c) && q in r[n].procs && q != pid
    requires Holds(r[n].procs[q], t) && !Finished(r[n].h, t)
    ensures var s' := Step(r[n], pid, c);
            && Wf(s') && s'.cap == r[n].cap && SameRow(r[n], s', SlotOf(t, s'.cap))
            && q in s'.procs && s'.procs[q] == r[n].procs[q]
  {
    RunInv(r, n);
    HolderUndisturbed(r[n], pid, c, q, t);
  }

  lemma HolderUndisturbed(s: State, pid: nat, c: Choice, q: nat, t: nat)
    requires Inv(s) && Enabled(s, pid, c) && q in s.procs && q != pid
    requires Holds(s.procs[q], t) && !Finished(s.h, t)
    ensures var s' := Step(s, pid, c); Wf(s') && s'.cap == s.cap && SameRow(s, s', SlotOf(t, s.cap))
    ensures q in Step(s, pid, c).procs && Step(s, pid, c).procs[q] == s.procs[q]
  {
    var s' := Step(s, pid, c);
    StepKeepsOthers(s, pid, c, q);
    StepWorksOn(s, pid, c);
    if !WritesNoRow(s, s') {
      var u: nat :| WorksOn(s, s', pid, u);
      WorkedTicketDiffers(s, s', pid, u, q, t);
    }
  }

  lemma StepKeepsOthers(s: State, pid: nat, c: Choice, q: nat)
    requires Enabled(s, pid, c) && q in s.procs && q != pid
    ensures q in Step(s, pid, c).procs && Step(s, pid, c).procs[q] == s.procs[q]
  {
  }

  lemma WorkedTicketDiffers(s: State, s': State, pid: nat, u: nat, q: nat, t: nat)
    requires Inv(s) && pid in s.procs && WorksOn(s, s', pid, u)
    requires q in s.procs && q != pid && Holds(s.procs[q], t) && !Finished(s.h, t)
    ensures SameRow(s, s', SlotOf(t, s.cap))
  {
    var v := V(s);
    assert ProcOk(v, q, s.procs[q]) && ProcOk(v, pid, s.procs[pid]);
    if Holds(s.procs[pid], u) {
      HoldersDiffer(v, pid, s.procs[pid], q, s.procs[q]);
    }
    if SlotOf(t, s.cap) == SlotOf(u, s.cap) {
      OneTicketPerSlot(v, t, u);
    }
  }
}
