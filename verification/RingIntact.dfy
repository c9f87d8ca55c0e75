/** Message bytes under crashes and repairs: a published message stays intact in
    its slot and page until a consumer takes it, a delivery returns exactly the
    bytes that were sent, once, and no repair frees or disturbs a page that a live
    process or a waiting message uses. */
module RingIntact {
  import opened Prelude
  import M = RingMachine
  import C = RingCrash
  import P = RingPages
  import O = RingOrder
  import S = RingSurvive
  import opened RingPayload

  // ---- What the payloads look like ----

  /** The slot of ticket t holds message `job` in full. */
  predicate PayloadOk(mem: M.State, t: nat, job: M.Job)
    requires M.Wf(mem)
  {
    O.Holds(mem.pages, mem.inlineSize, M.PayAt(mem, t), job)
  }

  /** The process still needs the payload of its ticket's slot. */
  predicate Touches(pc: C.PC, b: M.PC) { pc.PWrite? || pc.PPublish? || (pc.CRead? && O.NeedsPayload(b)) }

  predicate WriterOk(mem: M.State, pc: C.PC, b: M.PC)
    requires M.Wf(mem)
  {
    && (pc.PWrite? && b.EWrite? ==>
          && b.k <= 5 && (b.page == 0 <==> |pc.job.data| <= mem.inlineSize)
          && O.Filled(mem.pages, M.PayAt(mem, pc.t), pc.job, b.page, b.k))
    && (pc.PPublish? ==> PayloadOk(mem, pc.t, pc.job))
  }

  predicate ReaderOk(mem: M.State, job: M.Job, t: nat, b: M.PC)
    requires M.Wf(mem)
  {
    O.RegsOk(M.PayAt(mem, t), job, b) && (O.NeedsPayload(b) ==> PayloadOk(mem, t, job))
  }

  predicate TaskOk(mem: M.State, jobs: seq<M.Job>, pc: C.PC, b: M.PC)
    requires M.Wf(mem)
  {
    && Fits(pc, b) && WriterOk(mem, pc, b)
    && (S.IsCarrying(pc) ==> pc.t < |jobs| && ReaderOk(mem, jobs[pc.t], pc.t, b))
  }

  ghost predicate TaskAt(f: State, q: nat)
    requires M.Wf(f.mem) && q in f.ring.procs
  {
    q in f.mem.procs && TaskOk(f.mem, f.ring.h.jobs, f.ring.procs[q], f.mem.procs[q])
  }

  ghost predicate TasksOk(f: State)
    requires M.Wf(f.mem)
  {
    forall q | q in f.ring.procs :: TaskAt(f, q)
  }

  /** A published ticket that nobody took. */
  predicate Waiting(h: C.History, t: nat) { t in h.published && t !in h.takers && t < |h.jobs| }

  ghost predicate WaitingOk(mem: M.State, h: C.History)
    requires M.Wf(mem)
  {
    forall t: nat | Waiting(h, t) :: PayloadOk(mem, t, h.jobs[t])
  }

  /** What the j-th delivery returned is what its ticket's producer sent. */
  predicate OutAt(outs: seq<M.Out>, h: C.History, j: nat)
    requires j < |outs| == |h.outs|
  {
    && outs[j].ticket == h.outs[j].ticket && outs[j].pid == h.outs[j].pid
    && outs[j].ticket < |h.jobs|
    && outs[j].chan == Clip(h.jobs[outs[j].ticket].chan) && outs[j].data == h.jobs[outs[j].ticket].data
  }

  ghost predicate OutsOk(outs: seq<M.Out>, h: C.History) {
    |outs| == |h.outs| && forall j | 0 <= j < |outs| :: OutAt(outs, h, j)
  }

  ghost predicate Inv(f: State) {
    && Wf(f) && S.Inv(f.ring) && P.PageInv(f.mem)
    && TasksOk(f) && WaitingOk(f.mem, f.ring.h)
    && OutsOk(f.outs, f.ring.h) && S.OutsFull(f.ring.h)
  }

  // ---- What a change of memory leaves alone ----

  /** Slot i's payload and its page read the same. */
  predicate SameSlot(mem: M.State, mem': M.State, i: nat) {
    && i < |mem.pays| && i < |mem'.pays| && mem'.pays[i] == mem.pays[i]
    && M.PageBytes(mem', mem.pays[i].overflow) == M.PageBytes(mem, mem.pays[i].overflow)
  }

  ghost predicate SameShape(mem: M.State, mem': M.State) {
    M.Wf(mem) && M.Wf(mem') && mem'.cap == mem.cap && mem'.inlineSize == mem.inlineSize
  }

  ghost predicate SameTask(mem: M.State, mem': M.State, pc: C.PC, b: M.PC) {
    && SameShape(mem, mem')
    && (Touches(pc, b) ==> SameSlot(mem, mem', SlotOf(pc.t, mem.cap)))
    && (b.EWrite? ==> M.PageBytes(mem', b.page) == M.PageBytes(mem, b.page))
  }

  lemma TaskKept(mem: M.State, mem': M.State, jobs: seq<M.Job>, jobs': seq<M.Job>, pc: C.PC, b: M.PC)
    requires SameTask(mem, mem', pc, b) && TaskOk(mem, jobs, pc, b) && jobs <= jobs'
    ensures TaskOk(mem', jobs', pc, b)
  {
  }

  /** Slots and pages outside slot `i` (or none, if i is the capacity) and page `g`
      (or none, if g is 0) are as before. */
  ghost predicate WritesAt(mem: M.State, mem': M.State, i: nat, g: nat) {
    && SameShape(mem, mem') && |mem'.pays| == |mem.pays|
    && (forall j | 0 <= j < |mem.pays| && j != i :: mem'.pays[j] == mem.pays[j])
    && (forall o: nat | o != g || o == 0 :: M.PageBytes(mem', o) == M.PageBytes(mem, o))
  }

  /** Ring slots of other holders and of waiting messages are not the one written. */
  ghost predicate SlotsApart(f: State, pid: nat, i: nat)
    requires M.Wf(f.mem)
  {
    && (forall q | q in f.ring.procs && q != pid :: ApartAt(f, q, i))
    && (forall t: nat | Waiting(f.ring.h, t) :: SlotOf(t, f.mem.cap) != i)
  }

  ghost predicate ApartAt(f: State, q: nat, i: nat)
    requires M.Wf(f.mem) && q in f.ring.procs
  {
    q in f.mem.procs && (Touches(f.ring.procs[q], f.mem.procs[q]) ==> SlotOf(f.ring.procs[q].t, f.mem.cap) != i)
  }

  /** No slot and no other process has page g. */
  ghost predicate PageApart(mem: M.State, pid: nat, g: nat) {
    g != 0 ==> P.Unattached(mem, g) && forall q: nat | q != pid :: P.HeldBy(mem, q) != g
  }

  lemma HeldPageApart(mem: M.State, pid: nat)
    requires P.PageInv(mem)
    ensures PageApart(mem, pid, P.HeldBy(mem, pid))
  {
    var g := P.HeldBy(mem, pid);
    if g != 0 {
      forall i | 0 <= i < |mem.pays| ensures mem.pays[i].overflow != g {
      }
    }
  }

  lemma OthersKept(f: State, mem': M.State, pid: nat, i: nat, g: nat, q: nat)
    requires Inv(f) && WritesAt(f.mem, mem', i, g) && SlotsApart(f, pid, i) && PageApart(f.mem, pid, g)
    requires q in f.ring.procs && q != pid
    ensures q in f.mem.procs && SameTask(f.mem, mem', f.ring.procs[q], f.mem.procs[q])
  {
    var pc, b := f.ring.procs[q], f.mem.procs[q];
    assert ApartAt(f, q, i);
    assert P.HeldBy(f.mem, q) == P.Held(b);
    if Touches(pc, b) {
      var j := SlotOf(pc.t, f.mem.cap);
      assert f.mem.pays[j].overflow == 0 || f.mem.pays[j].overflow != g;
    }
  }

  lemma WaitingKept(f: State, mem': M.State, pid: nat, i: nat, g: nat)
    requires Inv(f) && WritesAt(f.mem, mem', i, g) && SlotsApart(f, pid, i) && PageApart(f.mem, pid, g)
    ensures WaitingOk(mem', f.ring.h)
  {
    forall t: nat | Waiting(f.ring.h, t) ensures PayloadOk(mem', t, f.ring.h.jobs[t]) {
      assert PayloadOk(f.mem, t, f.ring.h.jobs[t]);
      var j := SlotOf(t, f.mem.cap);
      assert f.mem.pays[j].overflow == 0 || f.mem.pays[j].overflow != g;
      PayloadKept(f.mem, mem', t, f.ring.h.jobs[t]);
    }
  }

  lemma PayloadKept(mem: M.State, mem': M.State, t: nat, job: M.Job)
    requires SameShape(mem, mem') && SameSlot(mem, mem', SlotOf(t, mem.cap)) && PayloadOk(mem, t, job)
    ensures PayloadOk(mem', t, job)
  {
  }

  // ---- Whose slot is whose ----

  /** Ticket t of a process that needs its payload is unfinished. */
  lemma TouchedUnfinished(s: C.State, q: nat, b: M.PC)
    requires S.Inv(s) && q in s.procs && Touches(s.procs[q], b)
    ensures S.Holds(s.procs[q], s.procs[q].t) && s.procs[q].t < s.enq && !S.Finished(s.h, s.procs[q].t)
  {
    assert S.ProcOk(S.V(s), q, s.procs[q]);
    assert S.TicketInv(S.V(s));
  }

  /** Ticket u is the mover's, or of a dead process. */
  ghost predicate Movable(s: C.State, pid: nat, u: nat)
    requires S.Inv(s) && pid in s.procs
  {
    && u < s.enq && !S.Finished(s.h, u)
    && (u in s.h.published ==> u in s.h.takers)
    && (S.Holds(s.procs[pid], u) || S.HolderDead(S.V(s), u))
  }

  lemma MovableApart(f: State, pid: nat, u: nat)
    requires Inv(f) && pid in f.ring.procs && Movable(f.ring, pid, u)
    ensures SlotsApart(f, pid, SlotOf(u, f.mem.cap))
  {
    forall q | q in f.ring.procs && q != pid ensures ApartAt(f, q, SlotOf(u, f.mem.cap)) {
      assert FitsAt(f, q);
      if Touches(f.ring.procs[q], f.mem.procs[q]) {
        MovableApartFrom(f, pid, u, q);
      }
    }
    forall t: nat | Waiting(f.ring.h, t) ensures SlotOf(t, f.mem.cap) != SlotOf(u, f.mem.cap) {
      WaitingUnfinished(f.ring, t);
      if SlotOf(t, f.mem.cap) == SlotOf(u, f.mem.cap) {
        S.OneTicketPerSlot(S.V(f.ring), t, u);
      }
    }
  }

  lemma WaitingUnfinished(s: C.State, t: nat)
    requires S.Inv(s) && Waiting(s.h, t)
    ensures t < s.enq && !S.Finished(s.h, t)
  {
    assert S.TicketInv(S.V(s));
  }

  lemma MovableApartFrom(f: State, pid: nat, u: nat, q: nat)
    requires Inv(f) && pid in f.ring.procs && Movable(f.ring, pid, u)
    requires q in f.ring.procs && q != pid && q in f.mem.procs && Touches(f.ring.procs[q], f.mem.procs[q])
    ensures SlotOf(f.ring.procs[q].t, f.mem.cap) != SlotOf(u, f.mem.cap)
  {
    var s, v := f.ring, S.V(f.ring);
    var a, b := s.procs[pid], s.procs[q];
    TouchedUnfinished(s, q, f.mem.procs[q]);
    assert S.ProcOk(v, q, b) && S.ProcOk(v, pid, a);
    if SlotOf(b.t, s.cap) == SlotOf(u, s.cap) {
      S.OneTicketPerSlot(v, b.t, u);
      if S.Holds(a, u) {
        S.HoldersDiffer(v, pid, a, q, b);
      }
    }
  }

  // ---- Putting a step together ----

  /** Only process `pid` moved, in the ring and in memory. */
  ghost predicate Moved(f: State, f': State, pid: nat) {
    && pid in f.ring.procs && pid in f'.ring.procs && pid in f'.mem.procs
    && f'.ring.procs == f.ring.procs[pid := f'.ring.procs[pid]]
    && f'.mem.procs == f.mem.procs[pid := f'.mem.procs[pid]]
    && f'.ring.cap == f.ring.cap
  }

  /** The messages of tickets are fixed, and takers stay. */
  ghost predicate LogGrows(h: C.History, h': C.History) {
    h.jobs <= h'.jobs && h.takers.Keys <= h'.takers.Keys
  }

  /** Every ticket waiting now was waiting before, or its slot holds its message. */
  ghost predicate NewlyWaitingOk(mem: M.State, h: C.History, h': C.History)
    requires M.Wf(mem)
  {
    forall t: nat | Waiting(h', t) :: Waiting(h, t) || PayloadOk(mem, t, h'.jobs[t])
  }

  lemma Combine(f: State, f': State, pid: nat, i: nat, g: nat)
    requires Inv(f) && S.Inv(f'.ring) && Moved(f, f', pid) && P.PageInv(f'.mem)
    requires WritesAt(f.mem, f'.mem, i, g) && SlotsApart(f, pid, i) && PageApart(f.mem, pid, g)
    requires LogGrows(f.ring.h, f'.ring.h) && NewlyWaitingOk(f'.mem, f.ring.h, f'.ring.h)
    requires TaskAt(f', pid)
    requires OutsOk(f'.outs, f'.ring.h) && S.OutsFull(f'.ring.h)
    ensures Inv(f')
  {
    forall q | q in f'.ring.procs ensures TaskAt(f', q) {
      if q != pid {
        assert TaskAt(f, q);
        OthersKept(f, f'.mem, pid, i, g, q);
        TaskKept(f.mem, f'.mem, f.ring.h.jobs, f'.ring.h.jobs, f.ring.procs[q], f.mem.procs[q]);
      }
    }
    WaitingKept(f, f'.mem, pid, i, g);
    StillWaiting(f'.mem, f.ring.h, f'.ring.h);
    assert Wf(f') by {
      forall q | q in f'.ring.procs ensures FitsAt(f', q) {
        assert TaskAt(f', q);
      }
    }
  }

  lemma StillWaiting(mem: M.State, h: C.History, h': C.History)
    requires M.Wf(mem) && WaitingOk(mem, h) && LogGrows(h, h') && NewlyWaitingOk(mem, h, h')
    ensures WaitingOk(mem, h')
  {
    forall t: nat | Waiting(h', t) ensures PayloadOk(mem, t, h'.jobs[t]) {
      assert Waiting(h, t) ==> PayloadOk(mem, t, h.jobs[t]);
    }
  }

  lemma NothingWritten(f: State, mem': M.State, pid: nat)
    requires Inv(f) && SameShape(f.mem, mem') && mem'.pays == f.mem.pays && mem'.pages == f.mem.pages
    ensures WritesAt(f.mem, mem', f.mem.cap, 0) && SlotsApart(f, pid, f.mem.cap) && PageApart(f.mem, pid, 0)
  {
    forall q | q in f.ring.procs && q != pid ensures ApartAt(f, q, f.mem.cap) {
      assert FitsAt(f, q);
    }
  }

  lemma OutsKept(outs: seq<M.Out>, h: C.History, h': C.History)
    requires OutsOk(outs, h) && h'.outs == h.outs && h.jobs <= h'.jobs
    ensures OutsOk(outs, h')
  {
    forall j | 0 <= j < |outs| ensures OutAt(outs, h', j) {
      assert OutAt(outs, h, j);
    }
  }

  /** A process that is done with memory, or has just got there. */
  lemma SetAside(mem: M.State, pid: nat, b: M.PC)
    requires P.PageInv(mem) && pid in mem.procs && P.Held(b) == 0 && P.PageArgOk(b)
    ensures P.PageInv(M.Goto(mem, pid, b))
  {
    assert P.Keeps(mem, M.Goto(mem, pid, b), pid);
    P.EffectKeepsPageInv(mem, M.Goto(mem, pid, b), pid, 0);
  }

  // ---- What a ring step does to the log ----

  /** A step that neither publishes nor returns. */
  ghost predicate QuietLog(h: C.History, h': C.History) {
    LogGrows(h, h') && h'.published == h.published && h'.outs == h.outs
  }

  lemma ProducerQuiet(s: C.State, pid: nat, pc: C.PC, c: C.Choice)
    requires C.Wf(s) && C.IsProducer(pc) && !pc.PPublish?
    ensures QuietLog(s.h, C.ProducerStep(s, pid, pc, c).h)
    ensures C.ProducerStep(s, pid, pc, c).cap == s.cap
  {
  }

  lemma ConsumerQuiet(s: C.State, pid: nat, pc: C.PC, c: C.Choice)
    requires C.Wf(s) && C.IsConsumer(pc) && !pc.CReturn?
    ensures QuietLog(s.h, C.ConsumerStep(s, pid, pc, c).h)
    ensures C.ConsumerStep(s, pid, pc, c).cap == s.cap
  {
  }

  lemma RepairQuiet(s: C.State, pid: nat, pc: C.PC)
    requires C.Wf(s)
    ensures pc.Repair? ==> QuietLog(s.h, C.RepairStep(s, pid, pc).h) && C.RepairStep(s, pid, pc).cap == s.cap
    ensures C.IsCompact(pc) ==> QuietLog(s.h, C.CompactStep(s, pid, pc).h) && C.CompactStep(s, pid, pc).cap == s.cap
  {
  }

  lemma StepQuiet(s: C.State, pid: nat, c: C.Choice)
    requires C.Enabled(s, pid, c) && (c.crash || (!s.procs[pid].PPublish? && !s.procs[pid].CReturn?))
    ensures QuietLog(s.h, C.Step(s, pid, c).h) && C.Step(s, pid, c).cap == s.cap
  {
    var pc := s.procs[pid];
    if !c.crash && !pc.Idle? {
      if C.IsProducer(pc) {
        ProducerQuiet(s, pid, pc, c);
      } else if C.IsConsumer(pc) {
        ConsumerQuiet(s, pid, pc, c);
      } else {
        RepairQuiet(s, pid, pc);
      }
    }
  }

  lemma StepMovesOne(s: C.State, pid: nat, c: C.Choice)
    requires C.Enabled(s, pid, c)
    ensures var s' := C.Step(s, pid, c); pid in s'.procs && s'.procs == s.procs[pid := s'.procs[pid]]
  {
  }

  /** What every ring step keeps. */
  lemma RingKept(f: State, pid: nat, c: Choice, s': C.State)
    requires Inv(f) && Enabled(f, pid, c) && s' == RingStep(f, pid, c)
    ensures S.Inv(s') && S.OutsFull(s'.h) && pid in s'.procs && s'.procs == f.ring.procs[pid := s'.procs[pid]]
  {
    S.StepKeepsInv(f.ring, pid, RingChoice(f, pid, c));
    StepMovesOne(f.ring, pid, RingChoice(f, pid, c));
    assert C.Next(f.ring, s');
    S.StepOuts(f.ring, s');
    S.OutsStayFull(f.ring.h, s'.h);
  }

  /** A quiet step leaves the waiting tickets waiting and the deliveries as they are. */
  lemma QuietKept(f: State, pid: nat, c: Choice, s': C.State, mem': M.State)
    requires Inv(f) && Enabled(f, pid, c) && s' == RingStep(f, pid, c) && M.Wf(mem')
    requires c.crash || (!f.ring.procs[pid].PPublish? && !f.ring.procs[pid].CReturn?)
    ensures LogGrows(f.ring.h, s'.h) && NewlyWaitingOk(mem', f.ring.h, s'.h) && OutsOk(f.outs, s'.h)
    ensures s'.cap == f.ring.cap
  {
    StepQuiet(f.ring, pid, RingChoice(f, pid, c));
    OutsKept(f.outs, f.ring.h, s'.h);
    forall t: nat | Waiting(s'.h, t) ensures Waiting(f.ring.h, t) {
      assert S.TicketInv(S.V(f.ring));
    }
  }

  // ---- Crashes and steps that touch no payload ----

  /** The mover only sets its payload step: nothing is written. */
  lemma NoWriteStep(f: State, f': State, pid: nat, b: M.PC)
    requires Inv(f) && S.Inv(f'.ring) && f'.mem == M.Goto(f.mem, pid, b) && P.Held(b) == 0 && P.PageArgOk(b)
    requires pid in f.ring.procs && pid in f'.ring.procs && f'.ring.cap == f.ring.cap
    requires f'.ring.procs == f.ring.procs[pid := f'.ring.procs[pid]]
    requires LogGrows(f.ring.h, f'.ring.h) && NewlyWaitingOk(f'.mem, f.ring.h, f'.ring.h)
    requires TaskAt(f', pid)
    requires OutsOk(f'.outs, f'.ring.h) && S.OutsFull(f'.ring.h)
    ensures Inv(f')
  {
    assert FitsAt(f, pid);
    SetAside(f.mem, pid, b);
    NothingWritten(f, f'.mem, pid);
    Combine(f, f', pid, f.mem.cap, 0);
  }

  lemma CrashTask(f: State, f': State, pid: nat, c: Choice)
    requires Enabled(f, pid, c) && c.crash && f' == Step(f, pid, c)
    ensures f'.mem == M.Goto(f.mem, pid, M.Idle) && f'.ring == RingStep(f, pid, c) && f'.outs == f.outs
    ensures M.Wf(f'.mem) && pid in f'.ring.procs && TaskAt(f', pid)
  {
  }

  lemma CrashKeepsInv(f: State, f': State, pid: nat, c: Choice)
    requires Inv(f) && Enabled(f, pid, c) && c.crash && f' == Step(f, pid, c)
    ensures Inv(f')
  {
    CrashTask(f, f', pid, c);
    RingKept(f, pid, c, f'.ring);
    QuietKept(f, pid, c, f'.ring, f'.mem);
    NoWriteStep(f, f', pid, M.Idle);
  }

  /** Ring steps that neither write nor read a payload. */
  predicate IsOther(pc: C.PC) { !pc.PAlloc? && !pc.PWrite? && !pc.CRead? && !pc.CRecycle? && !pc.CReturn? }

  predicate EntersOk(s: C.State, pc: C.PC, pc': C.PC) {
    && !pc'.PWrite? && !pc'.PPublish? && !pc'.CRecycle? && !pc'.CReturn?
    && (pc'.CRead? ==> pc.CTake? && pc.p == s.deq && pc'.t == s.deq)
  }

  lemma ProducerEnters(s: C.State, pid: nat, pc: C.PC, c: C.Choice)
    requires C.Wf(s) && C.IsProducer(pc) && IsOther(pc)
    ensures EntersOk(s, pc, C.ProducerStep(s, pid, pc, c).procs[pid])
  {
  }

  lemma ConsumerEnters(s: C.State, pid: nat, pc: C.PC, c: C.Choice)
    requires C.Wf(s) && C.IsConsumer(pc) && IsOther(pc)
    ensures EntersOk(s, pc, C.ConsumerStep(s, pid, pc, c).procs[pid])
  {
  }

  lemma StepEnters(s: C.State, pid: nat, c: C.Choice)
    requires C.Enabled(s, pid, c) && !c.crash && IsOther(s.procs[pid])
    ensures pid in C.Step(s, pid, c).procs && EntersOk(s, s.procs[pid], C.Step(s, pid, c).procs[pid])
  {
    var pc := s.procs[pid];
    if C.IsProducer(pc) {
      ProducerEnters(s, pid, pc, c);
    } else if C.IsConsumer(pc) {
      ConsumerEnters(s, pid, pc, c);
    }
  }

  /** The message a consumer takes is there. */
  lemma TakenWasWaiting(f: State, pid: nat)
    requires Inv(f) && pid in f.ring.procs && f.ring.procs[pid].CTake? && f.ring.procs[pid].p == f.ring.deq
    ensures Waiting(f.ring.h, f.ring.deq) && PayloadOk(f.mem, f.ring.deq, f.ring.h.jobs[f.ring.deq])
  {
    assert S.ProcOk(S.V(f.ring), pid, f.ring.procs[pid]);
    S.ReadyAtDeq(S.V(f.ring), f.ring.deq);
  }

  lemma OtherTask(f: State, f': State, pid: nat, c: Choice)
    requires Inv(f) && Enabled(f, pid, c) && !c.crash && IsOther(f.ring.procs[pid])
    requires f' == OtherStep(f, pid, c) && LogGrows(f.ring.h, f'.ring.h) && pid in f'.ring.procs
    ensures M.Wf(f'.mem) && TaskAt(f', pid)
  {
    StepEnters(f.ring, pid, RingChoice(f, pid, c));
    if f'.ring.procs[pid].CRead? {
      TakenWasWaiting(f, pid);
    }
  }

  lemma PublishLog(s: C.State, pid: nat, c: C.Choice)
    requires C.Enabled(s, pid, c) && !c.crash && s.procs[pid].PPublish?
    ensures C.Step(s, pid, c).h == s.h.(published := s.h.published + {s.procs[pid].t}) && C.Step(s, pid, c).cap == s.cap
  {
  }

  lemma PublishedIsIntact(f: State, pid: nat, c: Choice, s': C.State, mem': M.State)
    requires Inv(f) && Enabled(f, pid, c) && !c.crash && f.ring.procs[pid].PPublish? && s' == RingStep(f, pid, c)
    requires SameShape(f.mem, mem') && mem'.pays == f.mem.pays && mem'.pages == f.mem.pages
    ensures LogGrows(f.ring.h, s'.h) && NewlyWaitingOk(mem', f.ring.h, s'.h) && OutsOk(f.outs, s'.h)
    ensures s'.cap == f.ring.cap
  {
    var pc := f.ring.procs[pid];
    PublishLog(f.ring, pid, RingChoice(f, pid, c));
    OutsKept(f.outs, f.ring.h, s'.h);
    assert TaskAt(f, pid);
    assert S.ProcOk(S.V(f.ring), pid, pc);
    assert PayloadOk(mem', pc.t, pc.job);
    forall t: nat | Waiting(s'.h, t) && t != pc.t ensures Waiting(f.ring.h, t) {
    }
  }

  lemma OtherMemory(f: State, f': State, pid: nat, c: Choice) returns (b: M.PC)
    requires Enabled(f, pid, c) && f' == OtherStep(f, pid, c)
    ensures f'.mem == M.Goto(f.mem, pid, b) && P.Held(b) == 0 && P.PageArgOk(b)
    ensures SameShape(f.mem, f'.mem) && f'.mem.pays == f.mem.pays && f'.mem.pages == f.mem.pages
  {
    var s := RingStep(f, pid, c);
    b := if pid in s.procs then Entry(s.procs[pid]) else M.Idle;
  }

  lemma OtherKeepsInv(f: State, f': State, pid: nat, c: Choice)
    requires Inv(f) && Enabled(f, pid, c) && !c.crash && IsOther(f.ring.procs[pid])
    requires f' == OtherStep(f, pid, c)
    ensures Inv(f')
  {
    RingKept(f, pid, c, f'.ring);
    var b := OtherMemory(f, f', pid, c);
    if f.ring.procs[pid].PPublish? {
      PublishedIsIntact(f, pid, c, f'.ring, f'.mem);
    } else {
      QuietKept(f, pid, c, f'.ring, f'.mem);
    }
    OtherTask(f, f', pid, c);
    NoWriteStep(f, f', pid, b);
  }

  lemma RecycleTask(f: State, f': State, pid: nat, c: Choice)
    requires Inv(f) && Enabled(f, pid, c) && !c.crash && f.ring.procs[pid].CRecycle?
    requires f' == f.(ring := RingStep(f, pid, c)) && f.ring.h.jobs <= f'.ring.h.jobs
    ensures pid in f'.ring.procs && TaskAt(f', pid)
    ensures pid in f.mem.procs && f'.mem == M.Goto(f.mem, pid, f.mem.procs[pid])
    ensures P.Held(f.mem.procs[pid]) == 0 && P.PageArgOk(f.mem.procs[pid])
  {
    assert TaskAt(f, pid);
    assert f.mem.procs == f.mem.procs[pid := f.mem.procs[pid]];
  }

  lemma RecycleKeepsInv(f: State, f': State, pid: nat, c: Choice)
    requires Inv(f) && Enabled(f, pid, c) && !c.crash && f.ring.procs[pid].CRecycle?
    requires f' == f.(ring := RingStep(f, pid, c))
    ensures Inv(f')
  {
    RingKept(f, pid, c, f'.ring);
    QuietKept(f, pid, c, f'.ring, f'.mem);
    RecycleTask(f, f', pid, c);
    NoWriteStep(f, f', pid, f.mem.procs[pid]);
  }

  // ---- Returning ----

  lemma ReturnLog(f: State, f': State, pid: nat, c: Choice)
    requires Inv(f) && Enabled(f, pid, c) && !c.crash && f.ring.procs[pid].CReturn? && f' == ReturnStep(f, pid, c)
    ensures LogGrows(f.ring.h, f'.ring.h) && f'.ring.h.published == f.ring.h.published
    ensures f'.ring.h.takers == f.ring.h.takers && f'.ring.cap == f.ring.cap && OutsOk(f'.outs, f'.ring.h)
  {
    var pc := f.ring.procs[pid];
    assert TaskAt(f, pid);
    assert f'.ring.h.outs == f.ring.h.outs + [C.Out(pc.t, pid, pc.job)];
    forall j | 0 <= j < |f'.outs| ensures OutAt(f'.outs, f'.ring.h, j) {
      assert j < |f.outs| ==> OutAt(f.outs, f.ring.h, j);
    }
  }

  lemma ReturnTask(f: State, f': State, pid: nat, c: Choice)
    requires Inv(f) && Enabled(f, pid, c) && !c.crash && f.ring.procs[pid].CReturn? && f' == ReturnStep(f, pid, c)
    ensures pid in f'.ring.procs && M.Wf(f'.mem) && TaskAt(f', pid)
  {
    assert FitsAt(f, pid);
    assert f'.ring.procs[pid] == C.Idle;
  }

  lemma ReturnKeepsInv(f: State, f': State, pid: nat, c: Choice)
    requires Inv(f) && Enabled(f, pid, c) && !c.crash && f.ring.procs[pid].CReturn? && f' == ReturnStep(f, pid, c)
    ensures Inv(f')
  {
    RingKept(f, pid, c, f'.ring);
    ReturnLog(f, f', pid, c);
    ReturnTask(f, f', pid, c);
    NoWriteStep(f, f', pid, M.Idle);
  }

  // ---- Writing ----

  /** A memory step by process `pid`, with its effect on pages. */
  ghost predicate MemoryMove(mem: M.State, mem': M.State, pid: nat) {
    && P.PageInv(mem') && SameShape(mem, mem') && pid in mem'.procs
    && mem'.procs == mem.procs[pid := mem'.procs[pid]]
  }

  lemma FillMoves(f: State, pid: nat, b: M.PC, c: Choice)
    requires P.PageInv(f.mem) && M.Enabled(f.mem, pid, MemChoice(c)) && b == f.mem.procs[pid] && (b.EAlloc? || b.EWrite?)
    ensures MemoryMove(f.mem, M.EnqueueFillStep(f.mem, pid, b, MemChoice(c)), pid)
  {
    var mem' := M.EnqueueFillStep(f.mem, pid, b, MemChoice(c));
    P.EnqueueFillEffect(f.mem, pid, b, MemChoice(c));
    P.EffectKeepsPageInv(f.mem, mem', pid, P.Target(b, f.mem.cap));
  }

  /** What the allocation decides, in memory and in the ring. */
  lemma AllocTask(f: State, f': State, pid: nat, c: Choice)
    requires Enabled(f, pid, c) && !c.crash && f.ring.procs[pid].PAlloc? && f' == AllocStep(f, pid, c)
    ensures M.Wf(f'.mem) && pid in f'.ring.procs && TaskAt(f', pid)
    ensures f'.mem.pays == f.mem.pays && f'.mem.pages == f.mem.pages
  {
    assert FitsAt(f, pid);
  }

  lemma AllocMoves(f: State, f': State, pid: nat, c: Choice)
    requires P.PageInv(f.mem) && Enabled(f, pid, c) && f.ring.procs[pid].PAlloc? && f' == AllocStep(f, pid, c)
    ensures MemoryMove(f.mem, f'.mem, pid)
  {
    assert FitsAt(f, pid);
    var mem' := M.EnqueueFillStep(f.mem, pid, f.mem.procs[pid], MemChoice(c));
    FillMoves(f, pid, f.mem.procs[pid], c);
    if !mem'.procs[pid].EWrite? {
      SetAside(mem', pid, M.Idle);
      assert mem'.procs[pid := M.Idle] == f.mem.procs[pid := M.Idle];
    }
  }

  lemma AllocKeepsInv(f: State, f': State, pid: nat, c: Choice)
    requires Inv(f) && Enabled(f, pid, c) && !c.crash && f.ring.procs[pid].PAlloc? && f' == AllocStep(f, pid, c)
    ensures Inv(f')
  {
    RingKept(f, pid, c, f'.ring);
    AllocTask(f, f', pid, c);
    AllocMoves(f, f', pid, c);
    QuietKept(f, pid, c, f'.ring, f'.mem);
    NothingWritten(f, f'.mem, pid);
    Combine(f, f', pid, f.mem.cap, 0);
  }

  /** Ticket t is in its producer's hands, unpublished. */
  lemma WritingMovable(s: C.State, pid: nat)
    requires S.Inv(s) && pid in s.procs && s.procs[pid].PWrite?
    ensures Movable(s, pid, s.procs[pid].t)
    ensures s.procs[pid].t < |s.h.jobs| && s.procs[pid].job == s.h.jobs[s.procs[pid].t]
  {
    assert S.ProcOk(S.V(s), pid, s.procs[pid]);
    assert S.TicketInv(S.V(s));
  }

  /** The slot (or none) and page (or none) that the k-th store writes. */
  function StoredSlot(mem: M.State, b: M.PC): nat
    requires 0 < mem.cap && b.EWrite?
  {
    if b.k == 4 && b.page != 0 then mem.cap else SlotOf(b.t, mem.cap)
  }

  lemma StoreWritesAt(mem: M.State, pid: nat, b: M.PC, c: M.Choice)
    requires M.Wf(mem) && b.EWrite?
    ensures WritesAt(mem, M.EnqueueFillStep(mem, pid, b, c), StoredSlot(mem, b), b.page)
  {
  }

  lemma StoreApart(f: State, pid: nat)
    requires Inv(f) && pid in f.ring.procs && f.ring.procs[pid].PWrite?
    ensures pid in f.mem.procs && f.mem.procs[pid].EWrite?
    ensures var b := f.mem.procs[pid]; SlotsApart(f, pid, StoredSlot(f.mem, b)) && PageApart(f.mem, pid, b.page)
  {
    assert FitsAt(f, pid);
    var b := f.mem.procs[pid];
    HeldPageApart(f.mem, pid);
    assert P.HeldBy(f.mem, pid) == b.page;
    if b.k == 4 && b.page != 0 {
      NothingWritten(f, f.mem, pid);
    } else {
      WritingMovable(f.ring, pid);
      MovableApart(f, pid, b.t);
    }
  }

  /** One store further. */
  lemma StoreProgress(mem: M.State, pid: nat, pc: C.PC, b: M.PC, c: M.Choice)
    requires M.Wf(mem) && pc.PWrite? && Fits(pc, b) && WriterOk(mem, pc, b)
    ensures var mem' := M.EnqueueFillStep(mem, pid, b, c);
            if b.k < 5 then Fits(pc, mem'.procs[pid]) && WriterOk(mem', pc, mem'.procs[pid])
            else mem'.procs[pid] == M.EPublish(pc.job, pc.t) && PayloadOk(mem', pc.t, pc.job)
  {
  }

  /** Where the producer is after the store. */
  lemma WriteTask(f: State, f': State, pid: nat, c: Choice)
    requires Enabled(f, pid, c) && TaskAt(f, pid) && !c.crash && f.ring.procs[pid].PWrite? && f' == WriteStep(f, pid, c)
    ensures pid in f'.ring.procs && M.Wf(f'.mem) && TaskAt(f', pid)
    ensures f'.ring == f.ring || f'.ring == RingStep(f, pid, c)
  {
    var pc, b := f.ring.procs[pid], f.mem.procs[pid];
    StoreProgress(f.mem, pid, pc, b, MemChoice(c));
    WriteRing(f, f', pid, c);
  }

  lemma WriteRing(f: State, f': State, pid: nat, c: Choice)
    requires Enabled(f, pid, c) && !c.crash && f.ring.procs[pid].PWrite? && f' == WriteStep(f, pid, c)
    ensures pid in f'.ring.procs && pid in f.mem.procs && f.mem.procs[pid].EWrite?
    ensures if f.mem.procs[pid].k < 5 then f'.ring == f.ring
            else f'.ring == RingStep(f, pid, c) && f'.ring.procs[pid] == C.PPublish(f.ring.procs[pid].job, f.ring.procs[pid].t)
  {
    assert FitsAt(f, pid);
    LastStore(f.mem, pid, f.mem.procs[pid], MemChoice(c));
    WriteEnds(f.ring, pid, RingChoice(f, pid, c));
  }

  lemma LastStore(mem: M.State, pid: nat, b: M.PC, c: M.Choice)
    requires M.Wf(mem) && b.EWrite?
    ensures M.EnqueueFillStep(mem, pid, b, c).procs[pid].EPublish? <==> b.k >= 5
  {
  }

  lemma WriteEnds(s: C.State, pid: nat, c: C.Choice)
    requires C.Enabled(s, pid, c) && !c.crash && s.procs[pid].PWrite?
    ensures var s' := C.Step(s, pid, c);
            pid in s'.procs && s'.procs[pid] == C.PPublish(s.procs[pid].job, s.procs[pid].t)
  {
  }

  /** A step of the payload alone, or the ring step that ends it. */
  lemma MaybeRingStep(f: State, f': State, pid: nat, c: Choice)
    requires Inv(f) && Enabled(f, pid, c) && M.Wf(f'.mem)
    requires f'.ring == f.ring || f'.ring == RingStep(f, pid, c)
    requires !c.crash && !f.ring.procs[pid].PPublish? && !f.ring.procs[pid].CReturn?
    requires f'.outs == f.outs
    ensures S.Inv(f'.ring) && pid in f'.ring.procs && f'.ring.procs == f.ring.procs[pid := f'.ring.procs[pid]]
    ensures LogGrows(f.ring.h, f'.ring.h) && NewlyWaitingOk(f'.mem, f.ring.h, f'.ring.h)
    ensures OutsOk(f'.outs, f'.ring.h) && S.OutsFull(f'.ring.h) && f'.ring.cap == f.ring.cap
  {
    if f'.ring == f.ring {
      assert f.ring.procs == f.ring.procs[pid := f.ring.procs[pid]];
    } else {
      RingKept(f, pid, c, f'.ring);
      QuietKept(f, pid, c, f'.ring, f'.mem);
    }
  }

  lemma WriteKeepsInv(f: State, f': State, pid: nat, c: Choice)
    requires Inv(f) && Enabled(f, pid, c) && !c.crash && f.ring.procs[pid].PWrite? && f' == WriteStep(f, pid, c)
    ensures Inv(f')
  {
    StoreApart(f, pid);
    var b := f.mem.procs[pid];
    assert TaskAt(f, pid);
    WriteTask(f, f', pid, c);
    FillMoves(f, pid, b, c);
    StoreWritesAt(f.mem, pid, b, MemChoice(c));
    MaybeRingStep(f, f', pid, c);
    Combine(f, f', pid, StoredSlot(f.mem, b), b.page);
  }

  // ---- Reading ----

  lemma ReadMoves(f: State, pid: nat, b: M.PC, c: Choice)
    requires P.PageInv(f.mem) && M.Enabled(f.mem, pid, MemChoice(c)) && b == f.mem.procs[pid] && M.IsDequeueRead(b)
    ensures MemoryMove(f.mem, M.DequeueReadStep(f.mem, pid, b, MemChoice(c)), pid)
  {
    var mem' := M.DequeueReadStep(f.mem, pid, b, MemChoice(c));
    P.DequeueReadEffect(f.mem, pid, b, MemChoice(c));
    P.EffectKeepsPageInv(f.mem, mem', pid, P.Target(b, f.mem.cap));
  }

  /** The slot (or none) that a reader's step writes: its swap of the overflow word. */
  function ReadSlot(mem: M.State, b: M.PC): nat
    requires 0 < mem.cap
  {
    if b.DPageCas? then SlotOf(b.t, mem.cap) else mem.cap
  }

  lemma ReadWritesAt(mem: M.State, pid: nat, b: M.PC, t: nat, c: M.Choice)
    requires M.Wf(mem) && Reads(b, t)
    ensures WritesAt(mem, M.DequeueReadStep(mem, pid, b, c), ReadSlot(mem, b), 0)
  {
  }

  /** Ticket t is in its taker's hands, unfinished. */
  lemma ReadingMovable(s: C.State, pid: nat)
    requires S.Inv(s) && pid in s.procs && s.procs[pid].CRead?
    ensures Movable(s, pid, s.procs[pid].t) && s.procs[pid].t < |s.h.jobs|
  {
    assert S.ProcOk(S.V(s), pid, s.procs[pid]);
    assert S.TicketInv(S.V(s));
  }

  lemma ReadApart(f: State, pid: nat)
    requires Inv(f) && pid in f.ring.procs && f.ring.procs[pid].CRead?
    ensures pid in f.mem.procs && SlotsApart(f, pid, ReadSlot(f.mem, f.mem.procs[pid]))
  {
    assert FitsAt(f, pid);
    if f.mem.procs[pid].DPageCas? {
      ReadingMovable(f.ring, pid);
      MovableApart(f, pid, f.ring.procs[pid].t);
    } else {
      NothingWritten(f, f.mem, pid);
    }
  }

  /** One load further: what has been read so far is what was sent. */
  lemma NameProgress(mem: M.State, pid: nat, t: nat, job: M.Job, b: M.PC, c: M.Choice)
    requires M.Wf(mem) && Reads(b, t) && ReaderOk(mem, job, t, b) && (b.DChanLen? || b.DChan? || b.DMsgLen?)
    ensures var mem' := M.DequeueReadStep(mem, pid, b, c); Reads(mem'.procs[pid], t) && ReaderOk(mem', job, t, mem'.procs[pid])
  {
  }

  lemma DataProgress(mem: M.State, pid: nat, t: nat, job: M.Job, b: M.PC, c: M.Choice)
    requires M.Wf(mem) && Reads(b, t) && ReaderOk(mem, job, t, b) && !(b.DChanLen? || b.DChan? || b.DMsgLen?)
    ensures var mem' := M.DequeueReadStep(mem, pid, b, c); var b' := mem'.procs[pid];
            (Reads(b', t) || (b'.DRecycle? && b'.t == t)) && ReaderOk(mem', job, t, b')
  {
  }

  lemma ReadProgress(mem: M.State, pid: nat, t: nat, job: M.Job, b: M.PC, c: M.Choice)
    requires M.Wf(mem) && Reads(b, t) && ReaderOk(mem, job, t, b)
    ensures var mem' := M.DequeueReadStep(mem, pid, b, c); var b' := mem'.procs[pid];
            M.Wf(mem') && (Reads(b', t) || (b'.DRecycle? && b'.t == t)) && ReaderOk(mem', job, t, b')
  {
    if b.DChanLen? || b.DChan? || b.DMsgLen? {
      NameProgress(mem, pid, t, job, b, c);
    } else {
      DataProgress(mem, pid, t, job, b, c);
    }
  }

  /** Where the consumer is after the step. */
  lemma ReadTask(f: State, f': State, pid: nat, c: Choice)
    requires Enabled(f, pid, c) && TaskAt(f, pid) && !c.crash && f.ring.procs[pid].CRead? && f' == ReadStep(f, pid, c)
    ensures pid in f'.ring.procs && M.Wf(f'.mem) && TaskAt(f', pid)
    ensures f'.ring == f.ring || f'.ring == RingStep(f, pid, c)
  {
    var b, t := f.mem.procs[pid], f.ring.procs[pid].t;
    ReadProgress(f.mem, pid, t, f.ring.h.jobs[t], b, MemChoice(c));
    ReadRing(f, f', pid, c);
  }

  lemma ReadRing(f: State, f': State, pid: nat, c: Choice)
    requires Enabled(f, pid, c) && !c.crash && f.ring.procs[pid].CRead? && f' == ReadStep(f, pid, c)
    ensures pid in f'.ring.procs && f'.ring.h == f.ring.h && pid in f'.mem.procs
    ensures if f'.mem.procs[pid].DRecycle? then
              f'.ring == RingStep(f, pid, c) && f'.ring.procs[pid].CRecycle? && f'.ring.procs[pid].t == f.ring.procs[pid].t
            else f'.ring == f.ring
  {
    assert FitsAt(f, pid);
    assert f'.mem == M.DequeueReadStep(f.mem, pid, f.mem.procs[pid], MemChoice(c));
    if f'.mem.procs[pid].DRecycle? {
      ReadEnds(f.ring, pid, RingChoice(f, pid, c));
    }
  }

  lemma ReadEnds(s: C.State, pid: nat, c: C.Choice)
    requires C.Enabled(s, pid, c) && !c.crash && s.procs[pid].CRead?
    ensures var s' := C.Step(s, pid, c);
            pid in s'.procs && s'.h == s.h && s'.procs[pid].CRecycle? && s'.procs[pid].t == s.procs[pid].t
  {
  }

  lemma ReadKeepsInv(f: State, f': State, pid: nat, c: Choice)
    requires Inv(f) && Enabled(f, pid, c) && !c.crash && f.ring.procs[pid].CRead? && f' == ReadStep(f, pid, c)
    ensures Inv(f')
  {
    assert TaskAt(f, pid);
    var b := f.mem.procs[pid];
    ReadApart(f, pid);
    ReadTask(f, f', pid, c);
    ReadMoves(f, pid, b, c);
    ReadWritesAt(f.mem, pid, b, f.ring.procs[pid].t, MemChoice(c));
    MaybeRingStep(f, f', pid, c);
    Combine(f, f', pid, ReadSlot(f.mem, b), 0);
  }

  // ---- Repairing ----

  /** A repair takes over a slot whose unfinished ticket a dead process held. */
  lemma RepairedMovable(s: C.State, pid: nat) returns (u: nat)
    requires S.Inv(s) && pid in s.procs && Repairs(s, s.procs[pid]) && (s.procs[pid].KSlot? ==> C.NoLiveGap(s))
    ensures Movable(s, pid, u) && SlotOf(u, s.cap) == RepairedSlot(s, s.procs[pid])
  {
    var pc, i := s.procs[pid], RepairedSlot(s, s.procs[pid]);
    assert S.ProcOk(S.V(s), pid, pc);
    if pc.Repair? {
      S.CorpseTicket(S.V(s), i);
      u := s.tickets[i];
    } else {
      S.StuckIsGapResidue(s, i, pc.m);
      u := s.seqs[i];
    }
  }

  /** Detaching and freeing by a repair keeps every page in one place. */
  lemma ReleaseKeepsPages(mem: M.State, pid: nat, i: nat)
    requires P.PageInv(mem) && i < mem.cap && pid in mem.procs && mem.procs[pid] == M.Idle
    ensures P.PageInv(Released(mem, i)) && WritesAt(mem, Released(mem, i), i, 0)
    ensures Released(mem, i).procs == mem.procs
  {
    var y := mem.pays[i];
    if y.overflow != 0 {
      var mid := M.Goto(Detached(mem, i), pid, M.XFree(y.overflow, y.msgLen));
      assert P.Detaches(mem, mid, pid, i);
      P.EffectKeepsPageInv(mem, mid, pid, i);
      assert mid.procs[pid := M.Idle] == mem.procs;
      var last := Released(mem, i);
      assert P.Keeps(mid, last, pid) || P.Frees(mid, last, pid);
      P.EffectKeepsPageInv(mid, last, pid, i);
    }
  }

  lemma RepairTask(f: State, f': State, pid: nat, c: Choice)
    requires Enabled(f, pid, c) && !c.crash && Repairs(f.ring, f.ring.procs[pid]) && f' == RepairStep(f, pid, c)
    ensures pid in f'.ring.procs && pid in f.mem.procs && f.mem.procs[pid] == M.Idle
    ensures IsOther(f'.ring.procs[pid]) && !f'.ring.procs[pid].PPublish?
  {
    assert FitsAt(f, pid);
  }

  lemma RepairKeepsInv(f: State, f': State, pid: nat, c: Choice)
    requires Inv(f) && Enabled(f, pid, c) && !c.crash && Repairs(f.ring, f.ring.procs[pid]) && f' == RepairStep(f, pid, c)
    ensures Inv(f')
  {
    var u := RepairedMovable(f.ring, pid);
    MovableApart(f, pid, u);
    RepairTask(f, f', pid, c);
    var i := RepairedSlot(f.ring, f.ring.procs[pid]);
    ReleaseKeepsPages(f.mem, pid, i);
    assert f'.mem.procs == f.mem.procs[pid := f'.mem.procs[pid]];
    MaybeRingStep(f, f', pid, c);
    Combine(f, f', pid, i, 0);
  }

  // ---- Every step, every run ----

  lemma StepKeepsInv(f: State, pid: nat, c: Choice)
    requires Inv(f) && Enabled(f, pid, c)
    ensures Inv(Step(f, pid, c))
  {
    var pc, f' := f.ring.procs[pid], Step(f, pid, c);
    if c.crash {
      CrashKeepsInv(f, f', pid, c);
    } else if pc.PAlloc? {
      AllocKeepsInv(f, f', pid, c);
    } else if pc.PWrite? {
      WriteKeepsInv(f, f', pid, c);
    } else if pc.CRead? {
      ReadKeepsInv(f, f', pid, c);
    } else if pc.CRecycle? {
      RecycleKeepsInv(f, f', pid, c);
    } else if pc.CReturn? {
      ReturnKeepsInv(f, f', pid, c);
    } else if Repairs(f.ring, pc) {
      RepairKeepsInv(f, f', pid, c);
    } else {
      OtherKeepsInv(f, f', pid, c);
    }
  }

  lemma NextKeepsInv(f: State, f': State)
    requires Inv(f) && Next(f, f')
    ensures Inv(f')
  {
    var pid: nat, c: Choice :| Enabled(f, pid, c) && f' == Step(f, pid, c);
    StepKeepsInv(f, pid, c);
  }

  lemma InitInv(f: State)
    requires Init(f)
    ensures Inv(f)
  {
    S.InitInv(f.ring);
    InitPages(f);
    forall q | q in f.ring.procs ensures TaskAt(f, q) {
    }
  }

  lemma InitPages(f: State)
    requires Init(f)
    ensures Wf(f) && P.PageInv(f.mem)
  {
    forall q | q in f.ring.procs ensures FitsAt(f, q) {
    }
    forall q: nat ensures P.HeldBy(f.mem, q) == 0 {
    }
  }

  lemma RunNext(r: seq<State>, n: nat)
    requires Run(r) && n + 1 < |r|
    ensures Next(r[n], r[n + 1])
  {
    assert NextAt(r, n);
  }

  lemma RunInv(r: seq<State>, n: nat)
    requires Run(r) && n < |r|
    ensures Inv(r[n])
  {
    var k := 0;
    InitInv(r[k]);
    while k < n
      invariant k <= n && Inv(r[k])
    {
      RunNext(r, k);
      NextKeepsInv(r[k], r[k + 1]);
      k := k + 1;
    }
  }

  // ---- What holds in every run ----

  /** Read now, ticket t's slot gives exactly message `job`: the name, the expiry and
      the bytes, from the slot or from the attached page. */
  predicate ReadsAs(mem: M.State, t: nat, job: M.Job)
    requires M.Wf(mem)
  {
    var y := M.PayAt(mem, t);
    && y.expiry == job.expiry
    && ReadBytes(y.chanBuf, y.chanLen) == Clip(job.chan)
    && (if |job.data| <= mem.inlineSize then y.overflow == 0 && ReadBytes(y.inlineBuf, y.msgLen) == job.data
        else y.overflow != 0 && ReadBytes(M.PageBytes(mem, y.overflow), y.msgLen) == job.data)
  }

  lemma PayloadReads(mem: M.State, t: nat, job: M.Job)
    requires M.Wf(mem) && PayloadOk(mem, t, job)
    ensures ReadsAs(mem, t, job)
  {
  }

  /** The page attached to slot i is nowhere else: not free, in no other slot, in
      no process's hands. */
  ghost predicate PageOnlyAt(mem: M.State, i: nat)
    requires i < |mem.pays|
  {
    var o := mem.pays[i].overflow;
    o != 0 ==>
      o !in mem.free && P.HeldByNobody(mem, o) && forall j | 0 <= j < |mem.pays| && j != i :: mem.pays[j].overflow != o
  }

  lemma AttachedOnce(mem: M.State, i: nat)
    requires P.PageInv(mem) && i < |mem.pays|
    ensures PageOnlyAt(mem, i)
  {
    var o := mem.pays[i].overflow;
    if o != 0 {
      forall q: nat ensures P.HeldBy(mem, q) != o {
      }
    }
  }

  predicate HasData(b: M.PC) { b.DPageCas? || b.DPageFree? || b.DRecycle? }

  /** What a reader has copied is what was sent; what it has not is still there. */
  ghost predicate ReadSoFar(mem: M.State, t: nat, job: M.Job, b: M.PC)
    requires M.Wf(mem)
  {
    && (O.HasChan(b) ==> b.chan == Clip(job.chan))
    && (if HasData(b) then b.data == job.data
        else ReadsAs(mem, t, job) && PageOnlyAt(mem, SlotOf(t, mem.cap)))
  }

  /** Delivery x was made, and no other of its ticket. */
  ghost predicate DeliveredOnce(outs: seq<M.Out>, x: M.Out) {
    exists j :: 0 <= j < |outs| && outs[j] == x && OnlyAt(outs, j)
  }

  ghost predicate OnlyAt(outs: seq<M.Out>, j: nat)
    requires j < |outs|
  {
    forall k | 0 <= k < |outs| && k != j :: outs[k].ticket != outs[j].ticket
  }

  ghost predicate NotDelivered(outs: seq<M.Out>, t: nat) {
    forall j | 0 <= j < |outs| :: outs[j].ticket != t
  }

  /** What each fate of a claimed ticket means for its bytes. */
  ghost predicate Intact(f: State, t: nat)
    requires M.Wf(f.mem) && t < |f.ring.h.jobs|
  {
    var h, job := f.ring.h, f.ring.h.jobs[t];
    match S.FateOf(h, t)
    case Ready =>
      ReadsAs(f.mem, t, job) && PageOnlyAt(f.mem, SlotOf(t, f.mem.cap)) && NotDelivered(f.outs, t)
    case Reading =>
      NotDelivered(f.outs, t)
      && (h.takers[t] in f.ring.dead
          || (S.CarriesFor(f.ring.procs, h.takers[t], t) && h.takers[t] in f.mem.procs
              && ReadSoFar(f.mem, t, job, f.mem.procs[h.takers[t]])))
    case Delivered => DeliveredOnce(f.outs, M.Out(t, h.takers[t], Clip(job.chan), job.data))
    case _ => NotDelivered(f.outs, t)
  }

  /** In every run, with crashes between any two payload steps, and repairs: a
      published message that no consumer took reads back from its slot or page
      exactly as sent, and its page is nowhere else; a live reader has read, and
      will read, exactly what was sent; a delivered message was delivered once, by
      its taker, with the name and bytes sent; any other was not delivered. */
  lemma MessagesIntact(r: seq<State>, n: nat, t: nat)
    requires Run(r) && n < |r| && t < r[n].ring.enq
    ensures C.Wf(r[n].ring) && M.Wf(r[n].mem) && t < |r[n].ring.h.jobs| && t < |r[n].ring.h.claimers|
    ensures S.Accounted(r[n].ring, t) && Intact(r[n], t)
  {
    RunInv(r, n);
    S.AccountedInState(r[n].ring, t);
    IntactInState(r[n], t);
  }

  lemma IntactInState(f: State, t: nat)
    requires Inv(f) && t < f.ring.enq && t < |f.ring.h.jobs| && t < |f.ring.h.claimers| && S.Accounted(f.ring, t)
    ensures Intact(f, t)
  {
    match S.FateOf(f.ring.h, t)
    case Ready =>
      assert PayloadOk(f.mem, t, f.ring.h.jobs[t]);
      PayloadReads(f.mem, t, f.ring.h.jobs[t]);
      AttachedOnce(f.mem, SlotOf(t, f.mem.cap));
      UntakenUndelivered(f, t);
    case Reading =>
      Undelivered(f, t);
      if f.ring.h.takers[t] !in f.ring.dead {
        ReadingInState(f, t, f.ring.h.takers[t]);
      }
    case Delivered => DeliveredInState(f, t);
    case Tombstoned => Undelivered(f, t);
    case Lost => Undelivered(f, t);
    case Writing => UntakenUndelivered(f, t);
  }

  lemma ReadingInState(f: State, t: nat, q: nat)
    requires Inv(f) && S.CarriesFor(f.ring.procs, q, t) && t < |f.ring.h.jobs|
    ensures q in f.mem.procs && ReadSoFar(f.mem, t, f.ring.h.jobs[t], f.mem.procs[q])
  {
    assert TaskAt(f, q);
    if !HasData(f.mem.procs[q]) {
      PayloadReads(f.mem, t, f.ring.h.jobs[t]);
      AttachedOnce(f.mem, SlotOf(t, f.mem.cap));
    }
  }

  lemma Undelivered(f: State, t: nat)
    requires Inv(f) && !S.InOuts(f.ring.h, t)
    ensures NotDelivered(f.outs, t)
  {
    forall j | 0 <= j < |f.outs| ensures f.outs[j].ticket != t {
      assert OutAt(f.outs, f.ring.h, j);
    }
  }

  lemma UntakenUndelivered(f: State, t: nat)
    requires Inv(f) && t !in f.ring.h.takers
    ensures NotDelivered(f.outs, t)
  {
    forall j | 0 <= j < |f.ring.h.outs| ensures f.ring.h.outs[j].ticket != t {
      assert S.OutOk(f.ring.h, f.ring.h.outs[j]);
    }
    Undelivered(f, t);
  }

  lemma DeliveredInState(f: State, t: nat)
    requires Inv(f) && t < |f.ring.h.jobs| && t in f.ring.h.takers && S.InOuts(f.ring.h, t)
    ensures DeliveredOnce(f.outs, M.Out(t, f.ring.h.takers[t], Clip(f.ring.h.jobs[t].chan), f.ring.h.jobs[t].data))
  {
    var h := f.ring.h;
    var j :| 0 <= j < |h.outs| && h.outs[j].ticket == t;
    assert S.OutOk(h, h.outs[j]) && OutAt(f.outs, h, j);
    assert S.LogInv(h);
    forall k | 0 <= k < |f.outs| && k != j ensures f.outs[k].ticket != f.outs[j].ticket {
      assert OutAt(f.outs, h, k);
    }
    assert OnlyAt(f.outs, j);
  }

  /** Where a step may write: the slot of a movable ticket (or none), and a page
      that its process alone holds (or none). */
  ghost predicate WritesOwn(f: State, f': State, pid: nat, i: nat, g: nat, u: nat)
    requires S.Inv(f.ring) && pid in f.ring.procs
  {
    && WritesAt(f.mem, f'.mem, i, g) && PageApart(f.mem, pid, g)
    && (i == f.mem.cap || (Movable(f.ring, pid, u) && i == SlotOf(u, f.mem.cap)))
  }

  lemma StepWritesOwn(f: State, pid: nat, c: Choice) returns (i: nat, g: nat, u: nat)
    requires Inv(f) && Enabled(f, pid, c)
    ensures WritesOwn(f, Step(f, pid, c), pid, i, g, u)
  {
    var pc, f' := f.ring.procs[pid], Step(f, pid, c);
    assert FitsAt(f, pid);
    i, g, u := f.mem.cap, 0, 0;
    if !c.crash && pc.PWrite? {
      StoreApart(f, pid);
      WritingMovable(f.ring, pid);
      StoreWritesAt(f.mem, pid, f.mem.procs[pid], MemChoice(c));
      i, g, u := StoredSlot(f.mem, f.mem.procs[pid]), f.mem.procs[pid].page, pc.t;
    } else if !c.crash && pc.CRead? {
      ReadingMovable(f.ring, pid);
      ReadWritesAt(f.mem, pid, f.mem.procs[pid], pc.t, MemChoice(c));
      i, u := ReadSlot(f.mem, f.mem.procs[pid]), pc.t;
    } else if !c.crash && Repairs(f.ring, pc) {
      i, u := RepairWritesOwn(f, pid, c);
    } else {
      QuietMemory(f, pid, c);
    }
  }

  lemma RepairWritesOwn(f: State, pid: nat, c: Choice) returns (i: nat, u: nat)
    requires Inv(f) && Enabled(f, pid, c) && !c.crash && Repairs(f.ring, f.ring.procs[pid])
    ensures WritesOwn(f, Step(f, pid, c), pid, i, 0, u)
  {
    u := RepairedMovable(f.ring, pid);
    i := RepairedSlot(f.ring, f.ring.procs[pid]);
    RepairMemory(f, pid, c, i);
  }

  lemma RepairMemory(f: State, pid: nat, c: Choice, i: nat)
    requires P.PageInv(f.mem) && Enabled(f, pid, c) && !c.crash && Repairs(f.ring, f.ring.procs[pid])
    requires i == RepairedSlot(f.ring, f.ring.procs[pid])
    ensures WritesAt(f.mem, Step(f, pid, c).mem, i, 0)
  {
    RepairTask(f, RepairStep(f, pid, c), pid, c);
    ReleaseKeepsPages(f.mem, pid, i);
  }

  lemma QuietMemory(f: State, pid: nat, c: Choice)
    requires Enabled(f, pid, c)
    requires var pc := f.ring.procs[pid]; c.crash || (!pc.PWrite? && !pc.CRead? && !Repairs(f.ring, pc))
    ensures WritesAt(f.mem, Step(f, pid, c).mem, f.mem.cap, 0)
  {
    assert FitsAt(f, pid);
  }

  /** Only a repair finishes a ticket for somebody else. */
  lemma OnlyRepairsLose(s: C.State, pid: nat, c: C.Choice)
    requires C.Enabled(s, pid, c) && (c.crash || !Repairs(s, s.procs[pid]))
    ensures C.Step(s, pid, c).h.lost == s.h.lost
  {
  }

  /** The ticket that a repair finishes uses the slot that it repairs. */
  lemma RepairLoses(s: C.State, pid: nat, c: C.Choice, t: nat)
    requires S.Inv(s) && C.Enabled(s, pid, c) && !c.crash && Repairs(s, s.procs[pid])
    requires t in C.Step(s, pid, c).h.lost && t !in s.h.lost
    ensures SlotOf(t, s.cap) == RepairedSlot(s, s.procs[pid])
  {
    var pc, i := s.procs[pid], RepairedSlot(s, s.procs[pid]);
    assert S.ProcOk(S.V(s), pid, pc);
    if pc.Repair? {
      S.CorpseTicket(S.V(s), i);
    } else {
      S.StuckIsGapResidue(s, i, pc.m);
    }
  }

  /** A repair, by whichever operation and in any run, takes the overflow page off the
      slot of the ticket it finishes and gives it back to the slab. */
  lemma RepairsReleasePages(r: seq<State>, n: nat, t: nat)
    requires Run(r) && n + 1 < |r| && t in r[n + 1].ring.h.lost && t !in r[n].ring.h.lost
    ensures M.Wf(r[n].mem) && M.Wf(r[n + 1].mem)
    ensures M.PayAt(r[n + 1].mem, t).overflow == 0 && M.PageBack(M.PayAt(r[n].mem, t), r[n + 1].mem.free)
  {
    RunInv(r, n);
    RunInv(r, n + 1);
    RunNext(r, n);
    var pid: nat, c: Choice :| Enabled(r[n], pid, c) && r[n + 1] == Step(r[n], pid, c);
    RepairReleases(r[n], pid, c, t);
  }

  lemma RepairReleases(f: State, pid: nat, c: Choice, t: nat)
    requires Inv(f) && Enabled(f, pid, c) && t in Step(f, pid, c).ring.h.lost && t !in f.ring.h.lost
    ensures var f' := Step(f, pid, c);
            M.Wf(f'.mem) && M.PayAt(f'.mem, t).overflow == 0 && M.PageBack(M.PayAt(f.mem, t), f'.mem.free)
  {
    QuietLoses(f, pid, c);
    RepairLoses(f.ring, pid, RingChoice(f, pid, c), t);
  }

  lemma QuietLoses(f: State, pid: nat, c: Choice)
    requires Enabled(f, pid, c)
    ensures c.crash || !Repairs(f.ring, f.ring.procs[pid]) ==> Step(f, pid, c).ring.h.lost == f.ring.h.lost
  {
    if c.crash || !Repairs(f.ring, f.ring.procs[pid]) {
      OnlyRepairsLose(f.ring, pid, RingChoice(f, pid, c));
    }
  }

  /** Page o is with ticket t's live holder q: attached to t's slot, or in q's hands. */
  ghost predicate PageWith(mem: M.State, q: nat, t: nat, o: nat)
    requires M.Wf(mem)
  {
    o != 0 && (o == M.PayAt(mem, t).overflow || o == P.HeldBy(mem, q))
  }

  /** No step of another process, repairs included, touches the payload of an
      unfinished ticket that a live process holds, or the bytes of a page that is
      attached to its slot or in the holder's hands; nor does it free such a page. */
  lemma LiveHoldersUndisturbed(r: seq<State>, n: nat, pid: nat, c: Choice, q: nat, t: nat)
    requires Run(r) && n < |r| && Enabled(r[n], pid, c) && q in r[n].ring.procs && q != pid
    requires S.Holds(r[n].ring.procs[q], t) && !S.Finished(r[n].ring.h, t)
    ensures var f' := Step(r[n], pid, c);
            && M.Wf(f'.mem) && f'.mem.cap == r[n].mem.cap && M.PayAt(f'.mem, t) == M.PayAt(r[n].mem, t)
            && q in f'.mem.procs && q in r[n].mem.procs && f'.mem.procs[q] == r[n].mem.procs[q]
            && forall o: nat | PageWith(r[n].mem, q, t, o) ::
                 M.PageBytes(f'.mem, o) == M.PageBytes(r[n].mem, o) && PageWith(f'.mem, q, t, o) && o !in f'.mem.free
  {
    RunInv(r, n);
    var f, f' := r[n], Step(r[n], pid, c);
    var i, g, u := StepWritesOwn(f, pid, c);
    StepKeepsInv(f, pid, c);
    OthersSlotKept(f, pid, i, u, q, t);
    OthersStepKept(f, pid, c, q);
    forall o: nat | PageWith(f.mem, q, t, o)
      ensures M.PageBytes(f'.mem, o) == M.PageBytes(f.mem, o) && PageWith(f'.mem, q, t, o) && o !in f'.mem.free
    {
      PageStays(f, f', pid, i, g, u, q, t, o);
    }
  }

  lemma OthersSlotKept(f: State, pid: nat, i: nat, u: nat, q: nat, t: nat)
    requires Inv(f) && pid in f.ring.procs && q in f.ring.procs && q != pid
    requires i == f.mem.cap || (Movable(f.ring, pid, u) && i == SlotOf(u, f.mem.cap))
    requires S.Holds(f.ring.procs[q], t) && !S.Finished(f.ring.h, t)
    ensures SlotOf(t, f.mem.cap) != i
  {
    var s, v := f.ring, S.V(f.ring);
    assert S.ProcOk(v, q, s.procs[q]) && S.ProcOk(v, pid, s.procs[pid]);
    if i < f.mem.cap && SlotOf(t, s.cap) == i {
      S.OneTicketPerSlot(v, t, u);
      if S.Holds(s.procs[pid], u) {
        S.HoldersDiffer(v, pid, s.procs[pid], q, s.procs[q]);
      }
    }
  }

  lemma OthersStepKept(f: State, pid: nat, c: Choice, q: nat)
    requires Enabled(f, pid, c) && q in f.ring.procs && q != pid
    ensures q in f.mem.procs && q in Step(f, pid, c).mem.procs && Step(f, pid, c).mem.procs[q] == f.mem.procs[q]
  {
    assert FitsAt(f, q) && FitsAt(f, pid);
    var pc, b := f.ring.procs[pid], f.mem.procs[pid];
    if !c.crash && (pc.PAlloc? || pc.PWrite?) {
      FillMovesOne(f.mem, pid, b, MemChoice(c));
    } else if !c.crash && pc.CRead? {
      ReadMovesOne(f.mem, pid, b, pc.t, MemChoice(c));
    }
  }

  lemma FillMovesOne(mem: M.State, pid: nat, b: M.PC, c: M.Choice)
    requires M.Wf(mem) && (b.EAlloc? || b.EWrite?)
    ensures var mem' := M.EnqueueFillStep(mem, pid, b, c); mem'.procs == mem.procs[pid := mem'.procs[pid]]
  {
  }

  lemma ReadMovesOne(mem: M.State, pid: nat, b: M.PC, t: nat, c: M.Choice)
    requires M.Wf(mem) && Reads(b, t)
    ensures var mem' := M.DequeueReadStep(mem, pid, b, c); mem'.procs == mem.procs[pid := mem'.procs[pid]]
  {
  }

  lemma PageStays(f: State, f': State, pid: nat, i: nat, g: nat, u: nat, q: nat, t: nat, o: nat)
    requires Inv(f) && Inv(f') && pid in f.ring.procs && WritesOwn(f, f', pid, i, g, u) && q != pid
    requires SlotOf(t, f.mem.cap) != i && PageWith(f.mem, q, t, o)
    requires q in f.mem.procs && q in f'.mem.procs && f'.mem.procs[q] == f.mem.procs[q]
    ensures M.PageBytes(f'.mem, o) == M.PageBytes(f.mem, o) && PageWith(f'.mem, q, t, o) && o !in f'.mem.free
  {
    var j := SlotOf(t, f.mem.cap);
    assert f'.mem.pays[j] == f.mem.pays[j];
    assert P.HeldBy(f'.mem, q) == P.HeldBy(f.mem, q);
  }
}
