/** Repairs run alone on the step machine, word by word: what `recover_slot` makes of
    the slot of a dead process before the enqueue or dequeue that found it goes on, and
    what a whole compact pass makes of every slot. From any state at all. */
module RingMend {
  import opened Prelude
  import opened RingMachine
  import opened RingAlone

  // ---- Steps ----

  /** One step of a repair. */
  lemma OnMend(b: State, pid: nat, e: Env, pc: PC, n: State, pc': PC, s': State)
    requires Base(b, pid) && IsRepair(pc) && pc' != Idle
    requires RepairStep(Goto(b, pid, pc), pid, pc) == Goto(n, pid, pc')
    requires Completes(Goto(n, pid, pc'), pid, e, s')
    ensures Completes(Goto(b, pid, pc), pid, e, s')
  {
    MendHops(Goto(b, pid, pc), pid, e, pc);
    Continues(Goto(b, pid, pc), Goto(n, pid, pc'), pid, e, s');
  }

  lemma MendHops(s: State, pid: nat, e: Env, pc: PC)
    requires At(s, pid, pc) && IsRepair(pc)
    ensures Hop(s, pid, e, RepairStep(s, pid, pc))
  {
    RepairOnly(pc);
  }

  lemma RepairOnly(pc: PC)
    requires IsRepair(pc)
    ensures !pc.Idle? && !IsEnqueueClaim(pc) && !IsEnqueueFill(pc) && !IsDequeueClaim(pc) && !IsDequeueExpired(pc)
    ensures !IsDequeueRead(pc) && !IsCompact(pc)
  {
  }

  lemma CompactOnly(pc: PC)
    requires IsCompact(pc)
    ensures !pc.Idle? && !IsEnqueueClaim(pc) && !IsEnqueueFill(pc) && !IsDequeueClaim(pc) && !IsDequeueExpired(pc)
    ensures !IsDequeueRead(pc) && !IsRepair(pc)
  {
  }

  /** One step of a compact pass. */
  lemma OnPass(b: State, pid: nat, e: Env, pc: PC, n: State, pc': PC, s': State)
    requires Base(b, pid) && IsCompact(pc) && pc' != Idle
    requires CompactStep(Goto(b, pid, pc), pid, pc) == Goto(n, pid, pc')
    requires Completes(Goto(n, pid, pc'), pid, e, s')
    ensures Completes(Goto(b, pid, pc), pid, e, s')
  {
    PassHops(Goto(b, pid, pc), pid, e, pc);
    Continues(Goto(b, pid, pc), Goto(n, pid, pc'), pid, e, s');
  }

  lemma PassHops(s: State, pid: nat, e: Env, pc: PC)
    requires At(s, pid, pc) && IsCompact(pc)
    ensures Hop(s, pid, e, CompactStep(s, pid, pc))
  {
    CompactOnly(pc);
  }

  // ---- repair_slot_to ----

  /** The owner record as a repair leaves it. */
  function Disowned(o: Owner): Owner { o.(pid := if o.pid == RECOVERING then 0 else o.pid, ticket := 0) }

  /** Position p's slot made EMPTY for `target`: its page detached and freed, its owner
      record cleared. */
  function Fixed(s: State, p: nat, target: nat): State
    requires Wf(s)
  {
    var i := SlotOf(p, s.cap);
    Detached(s, p).(seqs := s.seqs[i := target], owners := s.owners[i := Disowned(s.owners[i])])
  }

  /** A repair that has still to look at the overflow word. */
  lemma FixAlone(b: State, pid: nat, e: Env, p: nat, target: nat, ret: Cont, s': State)
    requires Base(b, pid) && Completes(Goto(Fixed(b, p, target), pid, Resume(ret)), pid, e, s')
    ensures Completes(Goto(b, pid, RLoadOverflow(p, SeqAt(b, p), target, ret)), pid, e, s')
  {
    var q, o, n := SeqAt(b, p), PayAt(b, p).overflow, PayAt(b, p).msgLen;
    SeqFixed(Detached(b, p), pid, e, p, target, ret, s');
    if o == 0 {
      Again(b, pid, RLoadOverflow(p, q, target, ret), RFixSeq(p, q, target, ret));
      OnMend(b, pid, e, RLoadOverflow(p, q, target, ret), b, RFixSeq(p, q, target, ret), s');
    } else {
      PageReleased(b, pid, e, p, target, ret, s');
      Again(b, pid, RLoadLen(p, q, target, o, ret), RCas(p, q, target, o, n, ret));
      OnMend(b, pid, e, RLoadLen(p, q, target, o, ret), b, RCas(p, q, target, o, n, ret), s');
      Again(b, pid, RLoadOverflow(p, q, target, ret), RLoadLen(p, q, target, o, ret));
      OnMend(b, pid, e, RLoadOverflow(p, q, target, ret), b, RLoadLen(p, q, target, o, ret), s');
    }
  }

  lemma PageReleased(b: State, pid: nat, e: Env, p: nat, target: nat, ret: Cont, s': State)
    requires Base(b, pid) && PayAt(b, p).overflow != 0
    requires Completes(Goto(Detached(b, p), pid, RFixSeq(p, SeqAt(b, p), target, ret)), pid, e, s')
    ensures Completes(Goto(b, pid, RCas(p, SeqAt(b, p), target, PayAt(b, p).overflow, PayAt(b, p).msgLen, ret)), pid, e, s')
  {
    var q, o, k := SeqAt(b, p), PayAt(b, p).overflow, PayAt(b, p).msgLen;
    var n := SetPay(b, p, PayAt(b, p).(overflow := 0));
    Again(FreePage(n, o, k), pid, RFree(p, q, target, o, k, ret), RFixSeq(p, q, target, ret));
    OnMend(n, pid, e, RFree(p, q, target, o, k, ret), FreePage(n, o, k), RFixSeq(p, q, target, ret), s');
    Again(n, pid, RCas(p, q, target, o, k, ret), RFree(p, q, target, o, k, ret));
    OnMend(b, pid, e, RCas(p, q, target, o, k, ret), n, RFree(p, q, target, o, k, ret), s');
  }

  /** The word is stored, and the owner record cleared in two stores. */
  lemma SeqFixed(b: State, pid: nat, e: Env, p: nat, target: nat, ret: Cont, s': State)
    requires Base(b, pid)
    requires var i := SlotOf(p, b.cap);
             var n := b.(seqs := b.seqs[i := target], owners := b.owners[i := Disowned(b.owners[i])]);
             Completes(Goto(n, pid, Resume(ret)), pid, e, s')
    ensures Completes(Goto(b, pid, RFixSeq(p, SeqAt(b, p), target, ret)), pid, e, s')
  {
    var a := SetSeq(b, p, target);
    OwnerFixed(a, pid, e, p, ret, s');
    Again(a, pid, RFixSeq(p, SeqAt(b, p), target, ret), RFixOwner(p, ret));
    OnMend(b, pid, e, RFixSeq(p, SeqAt(b, p), target, ret), a, RFixOwner(p, ret), s');
  }

  lemma OwnerFixed(a: State, pid: nat, e: Env, p: nat, ret: Cont, s': State)
    requires Base(a, pid)
    requires Completes(Goto(SetOwner(a, p, Disowned(OwnerAt(a, p))), pid, Resume(ret)), pid, e, s')
    ensures Completes(Goto(a, pid, RFixOwner(p, ret)), pid, e, s')
  {
    var c := if OwnerAt(a, p).pid == RECOVERING then SetOwner(a, p, OwnerAt(a, p).(pid := 0)) else a;
    var n := SetOwner(c, p, OwnerAt(c, p).(ticket := 0));
    assert n == SetOwner(a, p, Disowned(OwnerAt(a, p)));
    Again(n, pid, RFixTicket(p, ret), Resume(ret));
    OnMend(c, pid, e, RFixTicket(p, ret), n, Resume(ret), s');
    Again(c, pid, RFixOwner(p, ret), RFixTicket(p, ret));
    OnMend(a, pid, e, RFixOwner(p, ret), c, RFixTicket(p, ret), s');
  }

  // ---- recover_slot ----

  /** The slot of position p, owned by a dead process, made EMPTY for the round after
      the ticket on its owner record. */
  function Repaired(s: State, p: nat): State
    requires Wf(s)
  {
    var i := SlotOf(p, s.cap);
    Detached(s, p).(seqs := s.seqs[i := s.owners[i].ticket + s.cap],
                    owners := s.owners[i := s.owners[i].(pid := 0, ticket := 0)])
  }

  lemma RecoverAlone(b: State, pid: nat, e: Env, p: nat, ret: Cont, s': State)
    requires Base(b, pid) && Completes(Goto(Repaired(b, p), pid, Resume(ret)), pid, e, s')
    ensures Completes(Goto(b, pid, RClaim(p, OwnerAt(b, p).pid, ret)), pid, e, s')
  {
    var o := OwnerAt(b, p);
    var a := SetOwner(b, p, o.(pid := RECOVERING));
    ClaimedThenFixed(b, p);
    FixAlone(a, pid, e, p, o.ticket + b.cap, ret, s');
    TicketLoaded(a, pid, e, p, ret, s');
    Again(a, pid, RClaim(p, o.pid, ret), RTicket(p, ret));
    OnMend(b, pid, e, RClaim(p, o.pid, ret), a, RTicket(p, ret), s');
  }

  lemma SeqLoaded(a: State, pid: nat, e: Env, p: nat, k: nat, ret: Cont, s': State)
    requires Base(a, pid) && Completes(Goto(a, pid, RLoadOverflow(p, SeqAt(a, p), k + a.cap, ret)), pid, e, s')
    ensures Completes(Goto(a, pid, RSeq(p, k, ret)), pid, e, s')
  {
    var next := RLoadOverflow(p, SeqAt(a, p), k + a.cap, ret);
    Again(a, pid, RSeq(p, k, ret), next);
    OnMend(a, pid, e, RSeq(p, k, ret), a, next, s');
  }

  /** The ticket on the owner record and the word are loaded. */
  lemma TicketLoaded(a: State, pid: nat, e: Env, p: nat, ret: Cont, s': State)
    requires Base(a, pid)
    requires Completes(Goto(a, pid, RLoadOverflow(p, SeqAt(a, p), OwnerAt(a, p).ticket + a.cap, ret)), pid, e, s')
    ensures Completes(Goto(a, pid, RTicket(p, ret)), pid, e, s')
  {
    var k := OwnerAt(a, p).ticket;
    SeqLoaded(a, pid, e, p, k, ret, s');
    Again(a, pid, RTicket(p, ret), RSeq(p, k, ret));
    OnMend(a, pid, e, RTicket(p, ret), a, RSeq(p, k, ret), s');
  }

  lemma ClaimedThenFixed(b: State, p: nat)
    requires Wf(b)
    ensures Fixed(SetOwner(b, p, OwnerAt(b, p).(pid := RECOVERING)), p, OwnerAt(b, p).ticket + b.cap) == Repaired(b, p)
  {
  }

  /** Somebody who can be dead owns the slot of position p. */
  predicate Owned(s: State, p: nat)
    requires Wf(s)
  {
    OwnerAt(s, p).pid != 0 && OwnerAt(s, p).pid != RECOVERING
  }

  /** What is left of an operation once it has started. */
  lemma Started(s: State, pid: nat, e: Env, s': State)
    requires At(s, pid, Idle) && Completes(s, pid, e, s')
    ensures Completes(Goto(s, pid, Start(e.op)), pid, e, s')
  {
    var k: nat :| FinishesIn(s, pid, e, s', k);
    var n := NextOf(s, pid, e, s', k);
    assert n == Goto(s, pid, Start(e.op));
  }

  /** An enqueue that finds its slot a round behind and its owner dead ends as it would
      have on the repaired slot. */
  lemma EnqueueRepairsFirst(s: State, pid: nat, e: Env, job: Job, s': State)
    requires At(s, pid, Idle) && e.op == Enqueue(job) && e.dead
    requires SeqAt(s, s.enq) < s.enq && Owned(s, s.enq)
    requires Completes(Repaired(s, s.enq), pid, e, s')
    ensures EndsIn(s, pid, e, s')
  {
    Started(Repaired(s, s.enq), pid, e, s');
    RecoverAlone(s, pid, e, s.enq, BackToEnqueue(job, 0), s');
    SenderSuspects(s, pid, e, job, s.enq, s');
    SenderProbes(s, pid, e, job, s');
    StartsAlone(s, pid, e, Goto(s, pid, ELoadPos(job, 0)), s');
    OnlyEnd(s, pid, e, s');
  }

  /** The oracle confirms the death of the slot's owner. */
  lemma SenderSuspects(s: State, pid: nat, e: Env, job: Job, p: nat, s': State)
    requires Base(s, pid) && e.dead && Owned(s, p)
    requires Completes(Goto(s, pid, RClaim(p, OwnerAt(s, p).pid, BackToEnqueue(job, 0))), pid, e, s')
    ensures Completes(Goto(s, pid, ESuspectPid(job, 0, p)), pid, e, s')
  {
    var d, ret := OwnerAt(s, p).pid, BackToEnqueue(job, 0);
    Again(s, pid, ESuspectStart(job, 0, p, d), RClaim(p, d, ret));
    OnClaim(s, pid, e, ESuspectStart(job, 0, p, d), s, RClaim(p, d, ret), s');
    Again(s, pid, ESuspectPid(job, 0, p), ESuspectStart(job, 0, p, d));
    OnClaim(s, pid, e, ESuspectPid(job, 0, p), s, ESuspectStart(job, 0, p, d), s');
  }

  lemma ReceiverSuspects(s: State, pid: nat, e: Env, p: nat, s': State)
    requires Base(s, pid) && e.dead && Owned(s, p)
    requires Completes(Goto(s, pid, RClaim(p, OwnerAt(s, p).pid, BackToDequeue)), pid, e, s')
    ensures Completes(Goto(s, pid, DSuspectPid(p)), pid, e, s')
  {
    var d := OwnerAt(s, p).pid;
    Again(s, pid, DSuspectStart(p, d), RClaim(p, d, BackToDequeue));
    OnScan(s, pid, e, DSuspectStart(p, d), s, RClaim(p, d, BackToDequeue), s');
    Again(s, pid, DSuspectPid(p), DSuspectStart(p, d));
    OnScan(s, pid, e, DSuspectPid(p), s, DSuspectStart(p, d), s');
  }

  /** A dequeue that finds the slot in front not ready and its owner dead ends as it
      would have on the repaired slot. */
  lemma DequeueRepairsFirst(s: State, pid: nat, e: Env, s': State)
    requires At(s, pid, Idle) && e.op == Dequeue && e.dead
    requires SeqAt(s, s.deq) <= s.deq && Owned(s, s.deq)
    requires Completes(Repaired(s, s.deq), pid, e, s')
    ensures EndsIn(s, pid, e, s')
  {
    Started(Repaired(s, s.deq), pid, e, s');
    RecoverAlone(s, pid, e, s.deq, BackToDequeue, s');
    ReceiverSuspects(s, pid, e, s.deq, s');
    LookAlone(s, pid, e, s');
    StartsAlone(s, pid, e, Goto(s, pid, DLoadPos), s');
    OnlyEnd(s, pid, e, s');
  }

  /** An enqueue that finds a dead process holding its slot for the round before is
      accepted all the same: the slot is repaired, and the message sent in it. */
  lemma EnqueueRecovers(s: State, pid: nat, e: Env, job: Job) returns (s': State)
    requires At(s, pid, Idle) && e.op == Enqueue(job) && e.dead
    requires SeqAt(s, s.enq) < s.enq && Owned(s, s.enq) && OwnerAt(s, s.enq).ticket + s.cap == s.enq
    requires 0 !in s.free && (e.page == 0 || e.page in s.free)
    ensures EndsIn(s, pid, e, s') && Ended(Claimed(Repaired(s, s.enq), pid, job), s', pid, e, job, s.enq)
  {
    s' := EnqueueTaken(Repaired(s, s.enq), pid, e, job);
    EnqueueRepairsFirst(s, pid, e, job, s');
  }

  // ---- compact ----

  /** A pass that loaded position m takes slot i to be stuck. */
  predicate Stuck(s: State, i: nat, m: nat)
    requires Wf(s) && i < s.cap
  {
    m >= s.cap && s.seqs[i] <= m - s.cap && (s.owners[i].pid == 0 || s.owners[i].pid == RECOVERING)
  }

  /** The ticket a stuck slot is made EMPTY for: the one after a parked repair's, or the
      next to use the slot. */
  function Target(s: State, i: nat, m: nat): nat
    requires Wf(s) && i < s.cap
  {
    if s.owners[i].pid == RECOVERING then s.owners[i].ticket + s.cap else NextTicket(m, i, s.cap)
  }

  /** Slot i visited: marked if it is stuck, repaired if it was stuck and marked, else unmarked. */
  function Visited(s: State, i: nat, m: nat): State
    requires Wf(s) && i < s.cap
  {
    if !Stuck(s, i, m) then s.(marks := s.marks[i := false])
    else if !s.marks[i] then s.(marks := s.marks[i := true])
    else Fixed(s, i, Target(s, i, m)).(marks := s.marks[i := false])
  }

  /** The steps of one visit, each from the state b. */
  lemma Unmarks(b: State, pid: nat, i: nat, en: nat, d: nat)
    requires Wf(b) && i < b.cap
    ensures CompactStep(Goto(b, pid, KUnmark(i, en, d)), pid, KUnmark(i, en, d))
            == Goto(b.(marks := b.marks[i := false]), pid, KSeq(i + 1, en, d))
  {
    Again(b.(marks := b.marks[i := false]), pid, KUnmark(i, en, d), KSeq(i + 1, en, d));
  }

  lemma SetsMark(b: State, pid: nat, i: nat, en: nat, d: nat)
    requires Wf(b) && i < b.cap
    ensures CompactStep(Goto(b, pid, KSetMark(i, en, d)), pid, KSetMark(i, en, d))
            == Goto(b.(marks := b.marks[i := true]), pid, KSeq(i + 1, en, d))
  {
    Again(b.(marks := b.marks[i := true]), pid, KSetMark(i, en, d), KSeq(i + 1, en, d));
  }

  /** Where a visit goes from a stuck slot. */
  function FromMark(b: State, i: nat, en: nat, d: nat): PC
    requires Wf(b) && i < b.cap
  {
    if !b.marks[i] then KSetMark(i, en, d)
    else if b.owners[i].pid == RECOVERING then KTicket(i, en, d, b.seqs[i])
    else RLoadOverflow(i, b.seqs[i], NextTicket(Max(en, d), i, b.cap), BackToCompact(i, en, d))
  }

  lemma LooksAtMark(b: State, pid: nat, i: nat, en: nat, d: nat)
    requires Wf(b) && i < b.cap
    ensures var pc := KMark(i, en, d, b.seqs[i], b.owners[i].pid);
            CompactStep(Goto(b, pid, pc), pid, pc) == Goto(b, pid, FromMark(b, i, en, d))
  {
    Again(b, pid, KMark(i, en, d, b.seqs[i], b.owners[i].pid), FromMark(b, i, en, d));
  }

  lemma LoadsTicket(b: State, pid: nat, i: nat, en: nat, d: nat)
    requires Wf(b) && i < b.cap
    ensures var pc := KTicket(i, en, d, b.seqs[i]);
            CompactStep(Goto(b, pid, pc), pid, pc)
            == Goto(b, pid, RLoadOverflow(i, b.seqs[i], b.owners[i].ticket + b.cap, BackToCompact(i, en, d)))
  {
    Again(b, pid, KTicket(i, en, d, b.seqs[i]),
          RLoadOverflow(i, b.seqs[i], b.owners[i].ticket + b.cap, BackToCompact(i, en, d)));
  }

  lemma UnmarkThen(b: State, pid: nat, e: Env, i: nat, en: nat, d: nat, s': State)
    requires Base(b, pid) && i < b.cap
    requires Completes(Goto(b.(marks := b.marks[i := false]), pid, KSeq(i + 1, en, d)), pid, e, s')
    ensures Completes(Goto(b, pid, KUnmark(i, en, d)), pid, e, s')
  {
    Unmarks(b, pid, i, en, d);
    OnPass(b, pid, e, KUnmark(i, en, d), b.(marks := b.marks[i := false]), KSeq(i + 1, en, d), s');
  }

  /** The repair of a slot that two passes in a row found stuck. */
  lemma MarkedThen(b: State, pid: nat, e: Env, i: nat, en: nat, d: nat, s': State)
    requires Base(b, pid) && i < b.cap && Stuck(b, i, Max(en, d)) && b.marks[i]
    requires Completes(Goto(Visited(b, i, Max(en, d)), pid, KSeq(i + 1, en, d)), pid, e, s')
    ensures Completes(Goto(b, pid, FromMark(b, i, en, d)), pid, e, s')
  {
    var k, ret := Target(b, i, Max(en, d)), BackToCompact(i, en, d);
    UnmarkThen(Fixed(b, i, k), pid, e, i, en, d, s');
    FixAlone(b, pid, e, i, k, ret, s');
    if b.owners[i].pid == RECOVERING {
      TicketThen(b, pid, e, i, en, d, s');
    }
  }

  lemma TicketThen(b: State, pid: nat, e: Env, i: nat, en: nat, d: nat, s': State)
    requires Base(b, pid) && i < b.cap
    requires Completes(Goto(b, pid, RLoadOverflow(i, b.seqs[i], b.owners[i].ticket + b.cap, BackToCompact(i, en, d))), pid, e, s')
    ensures Completes(Goto(b, pid, KTicket(i, en, d, b.seqs[i])), pid, e, s')
  {
    LoadsTicket(b, pid, i, en, d);
    OnPass(b, pid, e, KTicket(i, en, d, b.seqs[i]), b,
           RLoadOverflow(i, b.seqs[i], b.owners[i].ticket + b.cap, BackToCompact(i, en, d)), s');
  }

  lemma UnmarkedThen(b: State, pid: nat, e: Env, i: nat, en: nat, d: nat, s': State)
    requires Base(b, pid) && i < b.cap && !b.marks[i]
    requires Completes(Goto(b.(marks := b.marks[i := true]), pid, KSeq(i + 1, en, d)), pid, e, s')
    ensures Completes(Goto(b, pid, FromMark(b, i, en, d)), pid, e, s')
  {
    SetsMark(b, pid, i, en, d);
    OnPass(b, pid, e, KSetMark(i, en, d), b.(marks := b.marks[i := true]), KSeq(i + 1, en, d), s');
  }

  lemma StuckThen(b: State, pid: nat, e: Env, i: nat, en: nat, d: nat, s': State)
    requires Base(b, pid) && i < b.cap && Completes(Goto(b, pid, FromMark(b, i, en, d)), pid, e, s')
    ensures Completes(Goto(b, pid, KMark(i, en, d, b.seqs[i], b.owners[i].pid)), pid, e, s')
  {
    LooksAtMark(b, pid, i, en, d);
    OnPass(b, pid, e, KMark(i, en, d, b.seqs[i], b.owners[i].pid), b, FromMark(b, i, en, d), s');
  }

  /** What the word and the owner of slot i send a visit to. */
  function FromOwner(b: State, i: nat, en: nat, d: nat): PC
    requires Wf(b) && i < b.cap
  {
    if Stuck(b, i, Max(en, d)) then KMark(i, en, d, b.seqs[i], b.owners[i].pid) else KUnmark(i, en, d)
  }

  lemma LooksAtOwner(b: State, pid: nat, i: nat, en: nat, d: nat)
    requires Wf(b) && i < b.cap
    ensures var pc := KOwner(i, en, d, b.seqs[i]);
            CompactStep(Goto(b, pid, pc), pid, pc) == Goto(b, pid, FromOwner(b, i, en, d))
  {
    Again(b, pid, KOwner(i, en, d, b.seqs[i]), FromOwner(b, i, en, d));
  }

  lemma OwnerThen(b: State, pid: nat, e: Env, i: nat, en: nat, d: nat, s': State)
    requires Base(b, pid) && i < b.cap && Completes(Goto(b, pid, FromOwner(b, i, en, d)), pid, e, s')
    ensures Completes(Goto(b, pid, KSeq(i, en, d)), pid, e, s')
  {
    var pc := KOwner(i, en, d, b.seqs[i]);
    LooksAtOwner(b, pid, i, en, d);
    OnPass(b, pid, e, pc, b, FromOwner(b, i, en, d), s');
    Again(b, pid, KSeq(i, en, d), pc);
    OnPass(b, pid, e, KSeq(i, en, d), b, pc, s');
  }

  lemma VisitAlone(b: State, pid: nat, e: Env, i: nat, en: nat, d: nat, s': State)
    requires Base(b, pid) && i < b.cap
    requires Completes(Goto(Visited(b, i, Max(en, d)), pid, KSeq(i + 1, en, d)), pid, e, s')
    ensures Completes(Goto(b, pid, KSeq(i, en, d)), pid, e, s')
  {
    if !Stuck(b, i, Max(en, d)) {
      UnmarkThen(b, pid, e, i, en, d, s');
    } else {
      if b.marks[i] {
        MarkedThen(b, pid, e, i, en, d, s');
      } else {
        UnmarkedThen(b, pid, e, i, en, d, s');
      }
      StuckThen(b, pid, e, i, en, d, s');
    }
    OwnerThen(b, pid, e, i, en, d, s');
  }

  /** What a visit makes of row i: word, payload, owner record and mark. */
  ghost predicate RowVisited(s: State, s': State, i: nat, m: nat)
    requires Wf(s) && Wf(s') && s'.cap == s.cap && i < s.cap
  {
    if Stuck(s, i, m) && s.marks[i] then
      && s'.seqs[i] == Target(s, i, m) && s'.pays[i] == s.pays[i].(overflow := 0) && PageBack(s.pays[i], s'.free)
      && s'.owners[i] == Disowned(s.owners[i]) && !s'.marks[i]
    else SameRow(s, s', i) && s'.marks[i] == Stuck(s, i, m)
  }

  predicate SameRow(s: State, s': State, i: nat)
    requires Wf(s) && Wf(s') && s'.cap == s.cap && i < s.cap
  {
    s'.seqs[i] == s.seqs[i] && s'.pays[i] == s.pays[i] && s'.owners[i] == s.owners[i]
  }

  /** Rows lo, lo + 1, .. are as a pass over position m leaves them, those before as they were. */
  ghost predicate RowsVisited(s: State, s': State, lo: nat, m: nat) {
    && Wf(s) && Wf(s') && s'.cap == s.cap && s.free <= s'.free
    && s' == s.(seqs := s'.seqs, pays := s'.pays, owners := s'.owners, marks := s'.marks, free := s'.free)
    && (forall i | lo <= i < s.cap :: RowVisited(s, s', i, m))
    && (forall i | 0 <= i < lo && i < s.cap :: SameRow(s, s', i) && s'.marks[i] == s.marks[i])
  }

  lemma VisitedRow(s: State, i: nat, m: nat)
    requires Wf(s) && i < s.cap
    ensures var n := Visited(s, i, m);
            && Wf(n) && n.cap == s.cap && s.free <= n.free && RowVisited(s, n, i, m)
            && n == s.(seqs := n.seqs, pays := n.pays, owners := n.owners, marks := n.marks, free := n.free)
            && forall j | 0 <= j < s.cap && j != i :: SameRow(s, n, j) && n.marks[j] == s.marks[j]
  {
  }

  lemma VisitThenRest(s: State, n: State, s': State, i: nat, m: nat)
    requires Wf(s) && i < s.cap && n == Visited(s, i, m) && RowsVisited(n, s', i + 1, m)
    ensures RowsVisited(s, s', i, m)
  {
    VisitedRow(s, i, m);
    forall j | i <= j < s.cap ensures RowVisited(s, s', j, m) {
      if j > i {
        assert RowVisited(n, s', j, m) && SameRow(s, n, j);
      }
    }
    forall j | 0 <= j < i ensures SameRow(s, s', j) && s'.marks[j] == s.marks[j] {
      assert SameRow(n, s', j) && SameRow(s, n, j);
    }
  }

  /** The rest of a pass, from slot i on. */
  lemma {:induction false} RestAlone(b: State, pid: nat, i: nat, en: nat, d: nat) returns (n: State)
    requires Base(b, pid) && i <= b.cap
    ensures RowsVisited(b, n, i, Max(en, d))
    ensures forall e: Env, s' | Completes(Goto(n, pid, KSeq(b.cap, en, d)), pid, e, s') ::
              Completes(Goto(b, pid, KSeq(i, en, d)), pid, e, s')
    decreases b.cap - i
  {
    if i == b.cap {
      n := b;
    } else {
      var a := Visited(b, i, Max(en, d));
      VisitedRow(b, i, Max(en, d));
      n := RestAlone(a, pid, i + 1, en, d);
      VisitThenRest(b, a, n, i, Max(en, d));
      forall e: Env, s' | Completes(Goto(n, pid, KSeq(b.cap, en, d)), pid, e, s')
        ensures Completes(Goto(b, pid, KSeq(i, en, d)), pid, e, s')
      {
        VisitAlone(b, pid, e, i, en, d, s');
      }
    }
  }

  lemma StoresAlone(b: State, pid: nat, e: Env, en: nat, d: nat)
    requires Base(b, pid)
    ensures Completes(Goto(b, pid, KSeq(b.cap, en, d)), pid, e, Goto(b.(lastEnq := en, lastDeq := d), pid, Idle))
  {
    var a, s' := b.(lastEnq := en), Goto(b.(lastEnq := en, lastDeq := d), pid, Idle);
    Again(b.(lastEnq := en, lastDeq := d), pid, KStoreDeq(d), Idle);
    PassHops(Goto(a, pid, KStoreDeq(d)), pid, e, KStoreDeq(d));
    Ends(Goto(a, pid, KStoreDeq(d)), pid, e, s');
    Again(a, pid, KStoreEnq(en, d), KStoreDeq(d));
    OnPass(b, pid, e, KStoreEnq(en, d), a, KStoreDeq(d), s');
    Again(b, pid, KSeq(b.cap, en, d), KStoreEnq(en, d));
    OnPass(b, pid, e, KSeq(b.cap, en, d), b, KStoreEnq(en, d), s');
  }

  /** A pass from s to s': every slot is visited once, and the positions are remembered. */
  ghost predicate Passed(s: State, s': State) {
    RowsVisited(s.(lastEnq := s.enq, lastDeq := s.deq), s', 0, Max(s.enq, s.deq))
  }

  /** From any state, a compact pass run alone marks every stuck slot, repairs every one
      that was already marked, and clears the other marks; nothing else changes. */
  lemma CompactAlone(s: State, pid: nat, e: Env) returns (s': State)
    requires At(s, pid, Idle) && e.op == Compact
    ensures EndsIn(s, pid, e, s') && Passed(s, s')
  {
    var n := RestAlone(s, pid, 0, s.enq, s.deq);
    s' := Goto(n.(lastEnq := s.enq, lastDeq := s.deq), pid, Idle);
    StoresAlone(n, pid, e, s.enq, s.deq);
    PassLoads(s, pid, e, s');
    StartsAlone(s, pid, e, Goto(s, pid, KLoadEnq), s');
    OnlyEnd(s, pid, e, s');
    assert s.procs[pid := Idle] == s.procs;
    Remembered(s, n, s');
  }

  lemma PassLoads(s: State, pid: nat, e: Env, s': State)
    requires Base(s, pid) && Completes(Goto(s, pid, KSeq(0, s.enq, s.deq)), pid, e, s')
    ensures Completes(Goto(s, pid, KLoadEnq), pid, e, s')
  {
    Again(s, pid, KLoadDeq(s.enq), KSeq(0, s.enq, s.deq));
    OnPass(s, pid, e, KLoadDeq(s.enq), s, KSeq(0, s.enq, s.deq), s');
    Again(s, pid, KLoadEnq, KLoadDeq(s.enq));
    OnPass(s, pid, e, KLoadEnq, s, KLoadDeq(s.enq), s');
  }

  lemma Remembered(s: State, n: State, s': State)
    requires RowsVisited(s, n, 0, Max(s.enq, s.deq)) && s' == n.(lastEnq := s.enq, lastDeq := s.deq)
    ensures Passed(s, s')
  {
    var a := s.(lastEnq := s.enq, lastDeq := s.deq);
    forall i | 0 <= i < s.cap ensures RowVisited(a, s', i, Max(s.enq, s.deq)) {
      assert RowVisited(s, n, i, Max(s.enq, s.deq));
    }
  }

  // ---- What compaction cannot repair ----

  /** Ticket enq - cap was taken by a consumer that died before it recorded its
      ownership: the slot still says published, and nobody owns it. */
  ghost predicate TakerResidue(s: State) {
    && Wf(s) && s.cap <= s.enq && s.deq <= s.enq
    && SeqAt(s, s.enq) == s.enq - s.cap + 1 && OwnerAt(s, s.enq).pid == 0
  }

  /** Such a slot is one word short of what compact takes for stuck (ring.rs:609), so it
      stays: every enqueue run alone is refused, whatever the oracle says, and every
      compact pass run alone leaves the residue in place. */
  lemma TakerResidueStays(s: State, pid: nat, e: Env) returns (s': State)
    requires TakerResidue(s) && At(s, pid, Idle) && !e.op.Dequeue?
    ensures EndsIn(s, pid, e, s') && TakerResidue(s') && At(s', pid, Idle)
    ensures e.op.Enqueue? ==> s' == s
  {
    if e.op.Compact? {
      s' := CompactAlone(s, pid, e);
      assert RowVisited(s.(lastEnq := s.enq, lastDeq := s.deq), s', SlotOf(s.enq, s.cap), s.enq);
    } else {
      s' := s;
      EnqueueRefused(s, pid, e, e.op.job);
      OnlyEnd(s, pid, e, s);
    }
  }
}
