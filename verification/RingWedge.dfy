/** The residue compaction exists for: a producer that crashed between claiming
    ticket t and recording its ownership, in a ring that has since filled to
    `enq = t + cap`. Enqueue is refused for ever; two compact passes unblock the
    ring without disturbing anything else. */
module RingWedge {
  import opened Prelude
  import M = RingMachine
  import opened RingCrash
  import opened RingSurvive
  import opened RingRecover

  // ---- One compact pass ----

  /** Slots 0 .. i-1 visited by a compact pass that loaded position m. */
  function Swept(s: State, i: nat, m: nat): (s': State)
    requires Wf(s) && i <= s.cap
    ensures Wf(s') && s'.cap == s.cap && s'.procs == s.procs
  {
    if i == 0 then s else CompactSlot(Swept(s, i - 1, m), i - 1, m)
  }

  /** A pass run alone is exactly the sweep. */
  lemma PassIsSweep(s: State, pid: nat)
    requires Wf(s) && s.deq <= s.enq && NoLiveGap(s) && IdleLive(s, pid)
    ensures Completes(s, pid, Compact, Swept(s, s.cap, s.enq))
  {
    StartHop(s, pid, Compact);
    PassLoads(s, pid);
    Continues(s, Goto(s, pid, KLoadEnq), pid, Compact, Swept(s, s.cap, s.enq));
  }

  lemma PassLoads(s: State, pid: nat)
    requires Known(s, pid) && s.deq <= s.enq && NoLiveGap(s) && s.procs[pid] == Idle
    ensures Completes(Goto(s, pid, KLoadEnq), pid, Compact, Swept(s, s.cap, s.enq))
  {
    var last := Swept(s, s.cap, s.enq);
    SweepOn(s, pid, 0, s.enq);
    CompactHop(s, pid, KLoadDeq(s.enq), Compact);
    Again(s, pid, KLoadDeq(s.enq), KSlot(0, s.enq));
    Continues(Goto(s, pid, KLoadDeq(s.enq)), Goto(s, pid, KSlot(0, s.enq)), pid, Compact, last);
    CompactHop(s, pid, KLoadEnq, Compact);
    Again(s, pid, KLoadEnq, KLoadDeq(s.enq));
    Continues(Goto(s, pid, KLoadEnq), Goto(s, pid, KLoadDeq(s.enq)), pid, Compact, last);
  }

  lemma {:induction false} SweepOn(s: State, pid: nat, i: nat, m: nat)
    requires Known(s, pid) && NoLiveGap(s) && s.procs[pid] == Idle && i <= s.cap
    ensures Completes(Goto(Swept(s, i, m), pid, KSlot(i, m)), pid, Compact, Swept(s, s.cap, m))
    decreases s.cap - i
  {
    var a := Swept(s, i, m);
    if i == s.cap {
      SweepEnds(a, pid, m);
    } else {
      SweepOn(s, pid, i + 1, m);
      SlotVisit(a, pid, i, m, Swept(s, s.cap, m));
    }
  }

  lemma SweepEnds(s: State, pid: nat, m: nat)
    requires Known(s, pid) && NoLiveGap(s) && s.procs[pid] == Idle
    ensures Completes(Goto(s, pid, KSlot(s.cap, m)), pid, Compact, s)
  {
    CompactHop(s, pid, KSlot(s.cap, m), Compact);
    Again(s, pid, KSlot(s.cap, m), Idle);
    assert s.procs[pid := Idle] == s.procs;
    Ends(Goto(s, pid, KSlot(s.cap, m)), pid, Compact, s);
  }

  lemma SlotVisit(s: State, pid: nat, i: nat, m: nat, s': State)
    requires Known(s, pid) && NoLiveGap(s) && i < s.cap
    requires Completes(Goto(CompactSlot(s, i, m), pid, KSlot(i + 1, m)), pid, Compact, s')
    ensures Completes(Goto(s, pid, KSlot(i, m)), pid, Compact, s')
  {
    CompactHop(s, pid, KSlot(i, m), Compact);
    SlotHop(s, pid, i, m);
    Continues(Goto(s, pid, KSlot(i, m)), Goto(CompactSlot(s, i, m), pid, KSlot(i + 1, m)), pid, Compact, s');
  }

  lemma SlotHop(s: State, pid: nat, i: nat, m: nat)
    requires Wf(s) && i < s.cap
    ensures CompactStep(Goto(s, pid, KSlot(i, m)), pid, KSlot(i, m)) == Goto(CompactSlot(s, i, m), pid, KSlot(i + 1, m))
  {
    assert s.procs[pid := KSlot(i, m)][pid := KSlot(i + 1, m)] == s.procs[pid := KSlot(i + 1, m)];
  }

  // ---- What a pass does to a wedged ring ----

  /** Ticket t was claimed by a producer that died before recording ownership. */
  ghost predicate Residue(s: State, t: nat) {
    && t < s.enq && t < |s.h.claimers| && !Settled(s.h, t) && t !in s.h.recorded
    && s.h.claimers[t] in s.dead
  }

  /** What the first i slots of a sweep did to a ring wedged on ticket t. */
  ghost predicate SweptWedge(s: State, s': State, t: nat, i: nat)
    requires Wf(s) && Wf(s') && s'.cap == s.cap && i <= s.cap
  {
    var j := SlotOf(t, s.cap);
    var fixed := j < i && s.marks[j];
    && s' == s.(seqs := s'.seqs, tickets := s'.tickets, marks := s'.marks, h := s'.h)
    && s'.seqs == (if fixed then s.seqs[j := t + s.cap] else s.seqs)
    && s'.h == (if fixed then s.h.(lost := s.h.lost + {t}) else s.h)
    && (forall k | 0 <= k < i && k != j :: !s'.marks[k])
    && (forall k | i <= k < s.cap :: s'.marks[k] == s.marks[k])
    && (j < i ==> s'.marks[j] == !s.marks[j])
  }

  /** The only stuck slot is that of ticket t, and its next ticket is t + cap. */
  ghost predicate StuckOnly(s: State, t: nat)
    requires Wf(s)
  {
    var j := SlotOf(t, s.cap);
    && s.enq == t + s.cap && s.deq <= s.enq && s.seqs[j] == t && M.NextTicket(s.enq, j, s.cap) == t + s.cap
    && forall k | 0 <= k < s.cap :: Stuck(s, k, s.enq) <==> k == j
  }

  lemma {:induction false} SweepWedge(s: State, t: nat, i: nat)
    requires Wf(s) && StuckOnly(s, t) && i <= s.cap
    ensures SweptWedge(s, Swept(s, i, s.enq), t, i)
  {
    if i > 0 {
      SweepWedge(s, t, i - 1);
      var s' := Swept(s, i - 1, s.enq);
      assert Stuck(s', i - 1, s.enq) <==> Stuck(s, i - 1, s.enq);
    }
  }

  lemma WedgeStuckOnly(s: State, t: nat)
    requires Inv(s) && NoLiveGap(s) && Residue(s, t) && s.enq == t + s.cap
    ensures Wf(s) && StuckOnly(s, t)
  {
    ResidueIsStuck(s, t);
    forall k | 0 <= k < s.cap ensures Stuck(s, k, s.enq) <==> k == SlotOf(t, s.cap) {
      if Stuck(s, k, s.enq) {
        StuckIsGapResidue(s, k, s.enq);
      }
    }
    PositionsOrdered(s);
  }

  lemma PositionsOrdered(s: State)
    requires Inv(s)
    ensures s.deq <= s.enq && Wf(s)
  {
    assert ViewInv(V(s));
  }

  lemma ResidueIsStuck(s: State, t: nat)
    requires Inv(s) && Residue(s, t) && s.enq == t + s.cap
    ensures var j := SlotOf(t, s.cap); s.seqs[j] == t && Stuck(s, j, s.enq)
    ensures M.NextTicket(s.enq, SlotOf(t, s.cap), s.cap) == s.enq
  {
    var v := V(s);
    assert SeqOk(v, t);
    assert SlotOk(v, t);
    assert SlotOf(s.enq, s.cap) == SlotOf(t, s.cap);
  }

  /** A ring with no stuck slot passes through a sweep with only its marks cleared. */
  lemma {:induction false} SweepHealthy(s: State, i: nat, m: nat)
    requires Wf(s) && i <= s.cap && forall k | 0 <= k < s.cap :: !Stuck(s, k, m)
    ensures Swept(s, i, m) == s.(marks := Swept(s, i, m).marks)
    ensures forall k | 0 <= k < i :: !Swept(s, i, m).marks[k]
    ensures forall k | i <= k < s.cap :: Swept(s, i, m).marks[k] == s.marks[k]
  {
    if i > 0 {
      SweepHealthy(s, i - 1, m);
      assert !Stuck(s, i - 1, m);
    }
  }

  /** Ticket t's residue is a full round behind the frontier. */
  ghost predicate WedgedOn(s: State, t: nat) { Residue(s, t) && s.enq == t + s.cap }

  ghost predicate Wedged(s: State) { exists t: nat :: WedgedOn(s, t) }

  ghost predicate OnlyMarksCleared(s: State, s': State) {
    s' == s.(marks := s'.marks) && |s'.marks| == s.cap && forall k | 0 <= k < s.cap :: !s'.marks[k]
  }

  lemma HealthyPass(s: State, pid: nat) returns (s': State)
    requires Wf(s) && s.deq <= s.enq && NoLiveGap(s) && IdleLive(s, pid)
    requires forall k | 0 <= k < s.cap :: !Stuck(s, k, s.enq)
    ensures Completes(s, pid, Compact, s') && OnlyMarksCleared(s, s')
  {
    PassIsSweep(s, pid);
    SweepHealthy(s, s.cap, s.enq);
    s' := Swept(s, s.cap, s.enq);
  }

  /** Without a residue a full round behind, a pass does complete, and only clears marks. */
  lemma PassInvisible(s: State, pid: nat) returns (s': State)
    requires Inv(s) && NoLiveGap(s) && IdleLive(s, pid)
    requires !Wedged(s)
    ensures Completes(s, pid, Compact, s') && OnlyMarksCleared(s, s')
  {
    PositionsOrdered(s);
    forall k | 0 <= k < s.cap ensures !Stuck(s, k, s.enq) {
      if Stuck(s, k, s.enq) {
        StuckIsGapResidue(s, k, s.enq);
        assert WedgedOn(s, s.seqs[k]);
      }
    }
    s' := HealthyPass(s, pid);
  }

  /** Nothing for a compact pass by process `pid` to repair. */
  ghost predicate Healthy(s: State, pid: nat) { Inv(s) && NoLiveGap(s) && IdleLive(s, pid) && !Wedged(s) }

  lemma {:induction false} PassesOnlyMark(s: State, pid: nat, k: nat, s': State)
    requires Healthy(s, pid) && Repeats(s, pid, Compact, k, s')
    ensures s' == s.(marks := s'.marks)
    decreases k
  {
    if k > 0 {
      var m := FirstOfMany(s, pid, Compact, k, s');
      PassKeepsHealth(s, pid, m);
      PassesOnlyMark(m, pid, k - 1, s');
    }
  }

  /** Compaction is invisible unless there is a residue a full round behind: from
      any other reachable state (no live producer being in the claim gap), any
      number of passes changes no position, word, owner or message, even when
      tombstones make `enq - deq` exceed the capacity. */
  lemma PassesInvisible(r: seq<State>, n: nat, pid: nat, k: nat, s': State)
    requires Run(r) && n < |r| && NoLiveGap(r[n]) && IdleLive(r[n], pid) && !Wedged(r[n])
    requires Repeats(r[n], pid, Compact, k, s')
    ensures s' == r[n].(marks := s'.marks)
  {
    RunInv(r, n);
    PassesOnlyMark(r[n], pid, k, s');
  }

  lemma PassKeepsHealth(s: State, pid: nat, m: State)
    requires Healthy(s, pid) && Completes(s, pid, Compact, m)
    ensures Healthy(m, pid) && m == s.(marks := m.marks)
  {
    var m' := PassInvisible(s, pid);
    CompletesUnique(s, pid, Compact, m, m');
    CompletesKeepsInv(s, pid, Compact, m);
    StillHealthy(s, m, pid);
  }

  lemma StillHealthy(s: State, m: State, pid: nat)
    requires OnlyMarksCleared(s, m) && NoLiveGap(s) && IdleLive(s, pid) && !Wedged(s)
    ensures NoLiveGap(m) && IdleLive(m, pid) && !Wedged(m)
  {
    forall t: nat ensures !WedgedOn(m, t) {
      assert !WedgedOn(s, t);
    }
  }

  /** The repaired ring: ticket t's slot is EMPTY for the least ticket at or past
      the frontier that targets it, namely t + cap = enq; positions, the other
      words, owners and messages are as before. */
  ghost predicate Unwedged(s: State, s': State, t: nat) {
    && Wf(s) && Wf(s') && s'.cap == s.cap && s'.enq == s.enq == t + s.cap && s'.deq == s.deq
    && s'.seqs == s.seqs[SlotOf(t, s.cap) := s.enq]
    && s'.owners == s.owners && s'.msgs == s.msgs && s'.procs == s.procs && s'.dead == s.dead
    && s'.h == s.h.(lost := s.h.lost + {t})
  }

  /** A first pass marks the slot, or repairs it if an earlier pass had marked it. */
  lemma FirstPass(s: State, pid: nat, t: nat) returns (s': State)
    requires Wf(s) && StuckOnly(s, t) && NoLiveGap(s) && IdleLive(s, pid)
    ensures Completes(s, pid, Compact, s') && Wf(s') && NoLiveGap(s') && IdleLive(s', pid)
    ensures if s.marks[SlotOf(t, s.cap)] then Unwedged(s, s', t) && forall k | 0 <= k < s'.cap :: !Stuck(s', k, s'.enq)
            else s' == s.(marks := s'.marks, tickets := s'.tickets) && StuckOnly(s', t) && s'.marks[SlotOf(t, s.cap)]
  {
    PassIsSweep(s, pid);
    SweepWedge(s, t, s.cap);
    s' := Swept(s, s.cap, s.enq);
    forall k | 0 <= k < s.cap && k != SlotOf(t, s.cap) ensures !Stuck(s', k, s.enq) {
      assert !Stuck(s, k, s.enq);
    }
    assert Stuck(s, SlotOf(t, s.cap), s.enq);
  }

  lemma TwoPassesUnwedge(s: State, pid: nat, t: nat) returns (s1: State, s2: State)
    requires Wf(s) && StuckOnly(s, t) && NoLiveGap(s) && IdleLive(s, pid)
    ensures Completes(s, pid, Compact, s1) && Completes(s1, pid, Compact, s2) && Unwedged(s, s2, t)
  {
    s1 := FirstPass(s, pid, t);
    if s.marks[SlotOf(t, s.cap)] {
      s2 := HealthyPass(s1, pid);
    } else {
      s2 := FirstPass(s1, pid, t);
    }
  }

  // ---- Before and after ----

  /** Before: every attempt to enqueue is refused, and changes nothing. */
  lemma WedgedEnqueueRefused(s: State, q: nat, job: M.Job, t: nat)
    requires Wf(s) && StuckOnly(s, t) && IdleLive(s, q)
    ensures Completes(s, q, Enqueue(job), s)
  {
    assert SlotOf(s.enq, s.cap) == SlotOf(t, s.cap);
    assert Stuck(s, SlotOf(t, s.cap), s.enq);
    RefusedAlone(s, q, job);
    StaysIdle(s, q);
    StartsAlone(s, q, Enqueue(job), s);
  }

  // ---- The whole story ----

  /** Up to hi, ticket t is the only one that is neither waiting nor gone. */
  ghost predicate ClearBut(s: State, t: nat, hi: nat) {
    s.deq <= hi <= s.enq && forall w: nat | s.deq <= w < hi :: w == t || Waits(s.h, w) || Gone(s, w)
  }

  /** What a repaired ring does next: it accepts a message under ticket t + cap, and
      dequeues step past t and deliver all that waits, in order, as sent. */
  ghost predicate WorksAgain(s: State, q: nat, t: nat, job: M.Job, hi: nat) {
    && Wf(s) && s.enq == t + s.cap
    && Completes(s, q, Enqueue(job), Sent(s, q, job))
    && (exists s' :: DrainsInOrder(s, q, hi, s'))
  }

  lemma RepairedWorks(s: State, s2: State, q: nat, t: nat, job: M.Job, hi: nat)
    requires Unwedged(s, s2, t) && Inv(s2) && IdleLive(s, q) && ClearBut(s, t, hi)
    ensures WorksAgain(s2, q, t, job, hi) && WaitingIn(s2.h, s2.deq, hi) == WaitingIn(s.h, s.deq, hi)
  {
    assert SlotOf(s2.enq, s2.cap) == SlotOf(t, s.cap);
    SendsAlone(s2, q, job);
    StaysIdle(Sent(s2, q, job), q);
    StartsAlone(s2, q, Enqueue(job), Sent(s2, q, job));
    forall w: nat | s2.deq <= w < hi ensures Waits(s2.h, w) || Gone(s2, w) {
      assert w == t || Waits(s.h, w) || Gone(s, w);
    }
    var b := DrainsAll(s2, q, hi);
    SameWaiting(s.h, s2.h, s.deq, hi);
  }

  /** In any reachable state in which ticket t is a gap residue and the ring has
      filled to enq = t + cap, and no live producer is in the claim gap: enqueue
      is refused and changes nothing; two compact passes leave ticket t's slot
      EMPTY for ticket t + cap and change nothing else; enqueue then publishes
      under ticket t + cap; and, for every position hi below which only t is
      unsettled, as many dequeues as messages wait there deliver exactly those, in
      ticket order, as sent. */
  lemma WedgeRepaired(r: seq<State>, n: nat, t: nat, pid: nat, q: nat, job: M.Job)
    returns (s1: State, s2: State)
    requires Run(r) && n < |r| && Residue(r[n], t) && r[n].enq == t + r[n].cap
    requires NoLiveGap(r[n]) && IdleLive(r[n], pid) && IdleLive(r[n], q)
    ensures Completes(r[n], q, Enqueue(job), r[n])
    ensures Completes(r[n], pid, Compact, s1) && Completes(s1, pid, Compact, s2) && Unwedged(r[n], s2, t)
    ensures forall hi: nat | ClearBut(r[n], t, hi) ::
              WorksAgain(s2, q, t, job, hi) && WaitingIn(s2.h, s2.deq, hi) == WaitingIn(r[n].h, r[n].deq, hi)
  {
    var s := r[n];
    RunInv(r, n);
    WedgeStuckOnly(s, t);
    WedgedEnqueueRefused(s, q, job, t);
    s1, s2 := TwoPassesUnwedge(s, pid, t);
    CompletesKeepsInv(s, pid, Compact, s1);
    CompletesKeepsInv(s1, pid, Compact, s2);
    forall hi: nat | ClearBut(s, t, hi)
      ensures WorksAgain(s2, q, t, job, hi) && WaitingIn(s2.h, s2.deq, hi) == WaitingIn(s.h, s.deq, hi)
    {
      RepairedWorks(s, s2, q, t, job, hi);
    }
  }

  // ---- Passes ticks apart ----

  /** One step of any process, crashes and repairs included, that is not a step of a
      compact pass. */
  ghost predicate Between(s: State, s': State) {
    exists pid: nat, c: Choice :: Enabled(s, pid, c) && (IsCompact(s.procs[pid]) ==> c.crash) && s' == Step(s, pid, c)
  }

  ghost predicate BetweenAt(w: seq<State>, i: nat)
    requires i + 1 < |w|
  {
    Between(w[i], w[i + 1])
  }

  /** What other processes do between two passes. */
  ghost predicate Interlude(w: seq<State>) { 0 < |w| && forall i: nat | i + 1 < |w| :: BetweenAt(w, i) }

  /** A first pass has marked the slot of residue t, and the ring is full behind it. */
  ghost predicate MarkedWedge(s: State, t: nat) {
    Inv(s) && NoLiveGap(s) && WedgedOn(s, t) && s.marks[SlotOf(t, s.cap)]
  }

  /** What of the wedge a step leaves as it was. */
  ghost predicate WedgeKept(s: State, s': State, t: nat) {
    && s'.cap == s.cap && s'.enq == s.enq && s'.marks == s.marks && s'.h.claimers == s.h.claimers
    && s'.h.recorded == s.h.recorded && Settled(s'.h, t) == Settled(s.h, t) && s.dead <= s'.dead
    && NoLiveGap(s')
  }

  /** Nobody can claim the next ticket: its slot holds the residue. */
  lemma NobodyClaims(s: State, pid: nat, t: nat)
    requires MarkedWedge(s, t) && pid in s.procs
    ensures !s.procs[pid].PGap? && (s.procs[pid].PClaim? ==> s.procs[pid].p != s.enq)
    ensures IsWriting(s.procs[pid]) ==> s.procs[pid].t != t
  {
    assert ProcOk(V(s), pid, s.procs[pid]);
    assert SeqOk(V(s), t);
    assert SlotOf(s.enq, s.cap) == SlotOf(t, s.cap);
  }

  lemma ProducerKeepsWedge(s: State, pid: nat, pc: PC, c: Choice, t: nat)
    requires MarkedWedge(s, t) && pid in s.procs && pc == s.procs[pid] && IsProducer(pc)
    ensures WedgeKept(s, ProducerStep(s, pid, pc, c), t)
  {
    NobodyClaims(s, pid, t);
  }

  lemma ConsumerKeepsWedge(s: State, pid: nat, pc: PC, c: Choice, t: nat)
    requires Wf(s) && NoLiveGap(s) && IsConsumer(pc)
    ensures WedgeKept(s, ConsumerStep(s, pid, pc, c), t)
  {
  }

  /** No repair can finish t: its slot has no owner. */
  lemma RepairKeepsWedge(s: State, pid: nat, pc: PC, t: nat)
    requires MarkedWedge(s, t) && pid in s.procs && pc == s.procs[pid] && pc.Repair?
    ensures WedgeKept(s, RepairStep(s, pid, pc), t)
  {
    assert ProcOk(V(s), pid, pc);
    var i := SlotOf(pc.p, s.cap);
    if s.owners[i] == pc.corpse {
      CorpseTicket(V(s), i);
      assert SlotOk(V(s), s.tickets[i]);
      assert SlotOk(V(s), t);
    }
  }

  lemma StepKeepsWedge(s: State, pid: nat, c: Choice, t: nat)
    requires MarkedWedge(s, t) && Enabled(s, pid, c) && (IsCompact(s.procs[pid]) ==> c.crash)
    ensures WedgeKept(s, Step(s, pid, c), t)
  {
    var pc := s.procs[pid];
    if !c.crash && !pc.Idle? {
      if IsProducer(pc) {
        ProducerKeepsWedge(s, pid, pc, c, t);
      } else if IsConsumer(pc) {
        ConsumerKeepsWedge(s, pid, pc, c, t);
      } else {
        RepairKeepsWedge(s, pid, pc, t);
      }
    }
  }

  /** No step outside compaction undoes the wedge or its mark. */
  lemma WedgeStays(s: State, s': State, t: nat)
    requires MarkedWedge(s, t) && Between(s, s')
    ensures MarkedWedge(s', t)
  {
    var pid: nat, c: Choice :| Enabled(s, pid, c) && (IsCompact(s.procs[pid]) ==> c.crash) && s' == Step(s, pid, c);
    StepKeepsInv(s, pid, c);
    StepKeepsWedge(s, pid, c, t);
  }

  lemma WedgeLasts(w: seq<State>, t: nat, k: nat)
    requires Interlude(w) && k < |w| && MarkedWedge(w[0], t)
    ensures MarkedWedge(w[k], t)
  {
    var j := 0;
    while j < k
      invariant j <= k && MarkedWedge(w[j], t)
    {
      assert BetweenAt(w, j);
      WedgeStays(w[j], w[j + 1], t);
      j := j + 1;
    }
  }

  lemma MarksFirst(s: State, s1: State, t: nat, pid: nat)
    requires Inv(s) && WedgedOn(s, t) && NoLiveGap(s) && IdleLive(s, pid)
    requires !s.marks[SlotOf(t, s.cap)] && Completes(s, pid, Compact, s1)
    ensures MarkedWedge(s1, t) && s1 == s.(marks := s1.marks, tickets := s1.tickets)
  {
    WedgeStuckOnly(s, t);
    var m := FirstPass(s, pid, t);
    CompletesUnique(s, pid, Compact, s1, m);
    CompletesKeepsInv(s, pid, Compact, s1);
  }

  lemma RepairsSecond(s: State, t: nat, pid: nat) returns (s': State)
    requires MarkedWedge(s, t) && IdleLive(s, pid)
    ensures Completes(s, pid, Compact, s') && Inv(s') && Unwedged(s, s', t)
  {
    WedgeStuckOnly(s, t);
    s' := FirstPass(s, pid, t);
    CompletesKeepsInv(s, pid, Compact, s');
  }

  /** The same when the passes are ticks apart and made by different processes.
      A first pass finds the wedge and marks it; then any processes take any steps
      (they may crash, repair, dequeue, and try to enqueue), but no compact pass
      runs; in every state from there on the ring is still wedged on t, and a second
      pass, by whatever idle process and whenever it comes, leaves the slot EMPTY
      for ticket t + cap and changes nothing else, and the ring works again. */
  lemma WedgeRepairedLater(r: seq<State>, n: nat, t: nat, pid: nat, w: seq<State>, p2: nat, q: nat, job: M.Job)
    returns (s2: State)
    requires Run(r) && n < |r| && WedgedOn(r[n], t) && NoLiveGap(r[n]) && IdleLive(r[n], pid)
    requires Wf(r[n]) && !r[n].marks[SlotOf(t, r[n].cap)]
    requires Interlude(w) && Completes(r[n], pid, Compact, w[0])
    requires IdleLive(w[|w| - 1], p2) && IdleLive(w[|w| - 1], q)
    ensures var e := w[|w| - 1];
            && WedgedOn(e, t) && Completes(e, q, Enqueue(job), e)
            && Completes(e, p2, Compact, s2) && Unwedged(e, s2, t)
            && forall hi: nat | ClearBut(e, t, hi) ::
                 WorksAgain(s2, q, t, job, hi) && WaitingIn(s2.h, s2.deq, hi) == WaitingIn(e.h, e.deq, hi)
  {
    RunInv(r, n);
    MarksFirst(r[n], w[0], t, pid);
    WedgeLasts(w, t, |w| - 1);
    s2 := SecondPass(w[|w| - 1], t, p2, q, job);
  }

  lemma SecondPass(e: State, t: nat, p2: nat, q: nat, job: M.Job) returns (s2: State)
    requires MarkedWedge(e, t) && IdleLive(e, p2) && IdleLive(e, q)
    ensures Completes(e, q, Enqueue(job), e) && Completes(e, p2, Compact, s2) && Unwedged(e, s2, t)
    ensures forall hi: nat | ClearBut(e, t, hi) ::
              WorksAgain(s2, q, t, job, hi) && WaitingIn(s2.h, s2.deq, hi) == WaitingIn(e.h, e.deq, hi)
  {
    WedgeStuckOnly(e, t);
    WedgedEnqueueRefused(e, q, job, t);
    s2 := RepairsSecond(e, t, p2);
    forall hi: nat | ClearBut(e, t, hi)
      ensures WorksAgain(s2, q, t, job, hi) && WaitingIn(s2.h, s2.deq, hi) == WaitingIn(e.h, e.deq, hi)
    {
      RepairedWorks(e, s2, q, t, job, hi);
    }
  }
}
