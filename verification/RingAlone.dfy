/** Operations run alone on the step machine. From any state that runs without crashes,
    expiry and compaction reach: an enqueue that finds its slot EMPTY publishes its
    message, one that does not is refused; a dequeue steps over tombstones and expired
    messages and delivers the first message that is left, exactly as sent, or nothing
    when the next ticket is still being written. */
module RingAlone {
  import opened Prelude
  import opened RingMachine
  import O = RingOrder

  // ---- One operation run to completion by one process ----

  /** The operation, the oracle's answer, the slab's answer to the allocation, the
      clock and the process's start time. */
  datatype Env = Env(op: Op, dead: bool, page: nat, now: int, start: nat)

  function Pick(e: Env, pc: PC): Choice { Choice(e.op, e.dead, if pc.EAlloc? then e.page else 0, e.now, e.start, false) }

  ghost predicate Ready(s: State, pid: nat) {
    Wf(s) && pid in s.procs && pid != 0 && pid != RECOVERING && s.procs[pid] != Crashed
  }

  ghost predicate At(s: State, pid: nat, pc: PC) { Ready(s, pid) && s.procs[pid] == pc }

  /** One step of `pid` leads from s to n. */
  ghost predicate Hop(s: State, pid: nat, e: Env, n: State) {
    pid in s.procs && Enabled(s, pid, Pick(e, s.procs[pid])) && n == Step(s, pid, Pick(e, s.procs[pid]))
  }

  /** Within k steps of its own, process `pid` returns to idle, for the first time in s'. */
  ghost predicate FinishesIn(s: State, pid: nat, e: Env, s': State, k: nat)
    decreases k, 0
  {
    0 < k && Going(s, pid, e, s', k - 1)
  }

  ghost predicate Going(s: State, pid: nat, e: Env, s': State, k: nat)
    decreases k, 2
  {
    exists n :: GoesOn(s, pid, e, n, s', k)
  }

  ghost predicate GoesOn(s: State, pid: nat, e: Env, n: State, s': State, k: nat)
    decreases k, 1
  {
    Hop(s, pid, e, n) && if At(n, pid, Idle) then s' == n else FinishesIn(n, pid, e, s', k)
  }

  /** Process `pid` runs its operation with nobody else moving, and it ends in s'. */
  ghost predicate Completes(s: State, pid: nat, e: Env, s': State) { exists k: nat :: FinishesIn(s, pid, e, s', k) }

  lemma Ends(s: State, pid: nat, e: Env, s': State)
    requires Hop(s, pid, e, s') && At(s', pid, Idle)
    ensures Completes(s, pid, e, s')
  {
    assert GoesOn(s, pid, e, s', s', 0);
    assert Going(s, pid, e, s', 0);
    assert FinishesIn(s, pid, e, s', 1);
  }

  lemma Continues(s: State, n: State, pid: nat, e: Env, s': State)
    requires Hop(s, pid, e, n) && !At(n, pid, Idle) && Completes(n, pid, e, s')
    ensures Completes(s, pid, e, s')
  {
    var k: nat :| FinishesIn(n, pid, e, s', k);
    assert GoesOn(s, pid, e, n, s', k);
    assert Going(s, pid, e, s', k);
    assert FinishesIn(s, pid, e, s', k + 1);
  }

  /** What `pid` does at pc, by the part of its operation it is in. */
  ghost function StepAt(s: State, pid: nat, e: Env, pc: PC): State
    requires Wf(s) && Working(pc)
  {
    if IsEnqueueClaim(pc) then EnqueueClaimStep(s, pid, pc, Pick(e, pc))
    else if IsEnqueueFill(pc) then EnqueueFillStep(s, pid, pc, Pick(e, pc))
    else if IsDequeueClaim(pc) then DequeueClaimStep(s, pid, pc, Pick(e, pc))
    else if IsDequeueExpired(pc) then DequeueExpiredStep(s, pid, pc)
    else if IsDequeueRead(pc) then DequeueReadStep(s, pid, pc, Pick(e, pc))
    else if IsRepair(pc) then RepairStep(s, pid, pc)
    else CompactStep(s, pid, pc)
  }

  predicate Working(pc: PC) {
    || IsEnqueueClaim(pc) || IsEnqueueFill(pc) || IsDequeueClaim(pc) || IsDequeueExpired(pc) || IsDequeueRead(pc)
    || IsRepair(pc) || IsCompact(pc)
  }

  /** The page of the allocation step is there to be given. */
  predicate MayAlloc(s: State, e: Env, pc: PC) { pc.EAlloc? ==> e.page == 0 || e.page in s.free }

  lemma StepHops(s: State, pid: nat, e: Env, pc: PC, n: State)
    requires At(s, pid, pc) && Working(pc) && MayAlloc(s, e, pc) && n == StepAt(s, pid, e, pc)
    ensures Hop(s, pid, e, n)
  {
  }

  /** The operation goes on from n, where `pid` is at pc'. */
  lemma On(s: State, pid: nat, e: Env, pc: PC, n: State, pc': PC, s': State)
    requires At(s, pid, pc) && Working(pc) && MayAlloc(s, e, pc) && n == StepAt(s, pid, e, pc)
    requires At(n, pid, pc') && pc' != Idle && Completes(n, pid, e, s')
    ensures Completes(s, pid, e, s')
  {
    StepHops(s, pid, e, pc, n);
    Continues(s, n, pid, e, s');
  }

  /** The operation ends with this step. */
  lemma Last(s: State, pid: nat, e: Env, pc: PC, s': State)
    requires At(s, pid, pc) && Working(pc) && MayAlloc(s, e, pc) && s' == StepAt(s, pid, e, pc) && At(s', pid, Idle)
    ensures Completes(s, pid, e, s')
  {
    StepHops(s, pid, e, pc, s');
    Ends(s, pid, e, s');
  }

  /** The part of an operation that each family of steps makes up. */
  lemma ReadHops(s: State, pid: nat, e: Env, pc: PC)
    requires At(s, pid, pc) && IsDequeueRead(pc)
    ensures Hop(s, pid, e, DequeueReadStep(s, pid, pc, Pick(e, pc)))
  {
  }

  lemma FillHops(s: State, pid: nat, e: Env, pc: PC)
    requires At(s, pid, pc) && IsEnqueueFill(pc) && MayAlloc(s, e, pc)
    ensures Hop(s, pid, e, EnqueueFillStep(s, pid, pc, Pick(e, pc)))
  {
  }

  lemma OnRead(s: State, pid: nat, e: Env, pc: PC, n: State, s': State)
    requires At(s, pid, pc) && IsDequeueRead(pc) && n == DequeueReadStep(s, pid, pc, Pick(e, pc))
    requires pid in n.procs && n.procs[pid] != Idle && Completes(n, pid, e, s')
    ensures Completes(s, pid, e, s')
  {
    ReadHops(s, pid, e, pc);
    Continues(s, n, pid, e, s');
  }

  lemma OnFill(s: State, pid: nat, e: Env, pc: PC, n: State, s': State)
    requires At(s, pid, pc) && IsEnqueueFill(pc) && MayAlloc(s, e, pc) && n == EnqueueFillStep(s, pid, pc, Pick(e, pc))
    requires pid in n.procs && n.procs[pid] != Idle && Completes(n, pid, e, s')
    ensures Completes(s, pid, e, s')
  {
    FillHops(s, pid, e, pc);
    Continues(s, n, pid, e, s');
  }

  lemma Again(s: State, pid: nat, a: PC, b: PC)
    ensures Goto(Goto(s, pid, a), pid, b) == Goto(s, pid, b)
  {
    assert s.procs[pid := a][pid := b] == s.procs[pid := b];
  }

  // ---- Enqueue: from the publish store on ----

  function Cleared(s: State, t: nat): seq<Owner>
    requires Wf(s)
  {
    s.owners[SlotOf(t, s.cap) := OwnerAt(s, t).(pid := 0, ticket := 0)]
  }

  lemma ClearedTwice(s: State, pid: nat, t: nat, pc: PC)
    requires Wf(s)
    ensures Goto(ClearOwner(Goto(ClearOwner(s, t, 0), pid, pc), t, 1), pid, Idle) == Goto(s.(owners := Cleared(s, t)), pid, Idle)
  {
    assert s.procs[pid := pc][pid := Idle] == s.procs[pid := Idle];
  }

  lemma ClearAlone(s: State, pid: nat, e: Env, t: nat) returns (s': State)
    requires At(s, pid, EClear(t, 0))
    ensures Completes(s, pid, e, s') && s' == Goto(s.(owners := Cleared(s, t)), pid, Idle)
  {
    var n := Goto(ClearOwner(s, t, 0), pid, EClear(t, 1));
    s' := Goto(ClearOwner(n, t, 1), pid, Idle);
    Last(n, pid, e, EClear(t, 1), s');
    On(s, pid, e, EClear(t, 0), n, EClear(t, 1), s');
    ClearedTwice(s, pid, t, EClear(t, 1));
  }

  /** The state with ticket t published and its owner record cleared. */
  function Published(s: State, pid: nat, t: nat): State
    requires Wf(s)
  {
    s.(seqs := s.seqs[SlotOf(t, s.cap) := t + 1], owners := Cleared(s, t),
       h := s.h.(published := s.h.published + {t}), procs := s.procs[pid := Idle])
  }

  lemma PublishHop(s: State, pid: nat, e: Env, job: Job, t: nat, n: State, s': State)
    requires At(s, pid, EPublish(job, t))
    requires n == Goto(SetSeq(s, t, t + 1).(h := s.h.(published := s.h.published + {t})), pid, EClear(t, 0))
    requires Wf(n) && Completes(n, pid, e, s')
    ensures Completes(s, pid, e, s')
  {
    OnFill(s, pid, e, EPublish(job, t), n, s');
  }

  lemma PublishAlone(s: State, pid: nat, e: Env, job: Job, t: nat) returns (s': State)
    requires At(s, pid, EPublish(job, t))
    ensures Completes(s, pid, e, s') && s' == Published(s, pid, t)
  {
    var n := Goto(SetSeq(s, t, t + 1).(h := s.h.(published := s.h.published + {t})), pid, EClear(t, 0));
    s' := ClearAlone(n, pid, e, t);
    PublishHop(s, pid, e, job, t, n, s');
    Again(s, pid, EClear(t, 0), Idle);
  }

  // ---- Enqueue: the payload stores ----

  /** Only ticket t's payload and page differ. */
  ghost predicate Stored(s: State, n: State, t: nat, page: nat) {
    && Wf(s) && Wf(n) && n.cap == s.cap
    && n == s.(pays := n.pays, pages := n.pages, procs := n.procs)
    && n.pays == s.pays[SlotOf(t, s.cap) := PayAt(n, t)]
    && (forall o | o != page :: PageBytes(n, o) == PageBytes(s, o))
    && (page == 0 ==> n.pages == s.pages)
  }

  lemma OneStore(s: State, n: State, pid: nat, job: Job, t: nat, page: nat, k: nat)
    requires At(s, pid, EWrite(job, t, page, k)) && k <= 5 && O.Filled(s.pages, PayAt(s, t), job, page, k)
    requires n == Goto(StorePayload(s, job, t, page, k), pid, if k < 5 then EWrite(job, t, page, k + 1) else EPublish(job, t))
    ensures Stored(s, n, t, page) && O.Filled(n.pages, PayAt(n, t), job, page, k + 1)
    ensures k == 5 ==> PayAt(n, t).overflow == page
    ensures n.procs == s.procs[pid := n.procs[pid]]
  {
  }

  lemma StoredTwice(s: State, n: State, s': State, t: nat, page: nat)
    requires Stored(s, n, t, page) && Stored(n, s', t, page)
    ensures Stored(s, s', t, page)
  {
    assert s'.pays == s.pays[SlotOf(t, s.cap) := PayAt(s', t)];
  }

  lemma WriteHop(s: State, pid: nat, e: Env, job: Job, t: nat, page: nat, k: nat, n: State, s': State)
    requires At(s, pid, EWrite(job, t, page, k))
    requires n == Goto(StorePayload(s, job, t, page, k), pid, if k < 5 then EWrite(job, t, page, k + 1) else EPublish(job, t))
    requires Wf(n) && Completes(n, pid, e, s')
    ensures Completes(s, pid, e, s')
  {
    OnFill(s, pid, e, EWrite(job, t, page, k), n, s');
  }

  /** The last payload store, then publish: `w` is the state after the stores. */
  lemma LastWriteAlone(s: State, pid: nat, e: Env, job: Job, t: nat, page: nat) returns (w: State, s': State)
    requires At(s, pid, EWrite(job, t, page, 5)) && O.Filled(s.pages, PayAt(s, t), job, page, 5)
    ensures Completes(s, pid, e, s') && Stored(s, w, t, page) && s' == Published(w, pid, t)
    ensures O.Filled(w.pages, PayAt(w, t), job, page, 5) && PayAt(w, t).overflow == page
    ensures w.procs == s.procs[pid := EPublish(job, t)]
  {
    w := Goto(StorePayload(s, job, t, page, 5), pid, EPublish(job, t));
    OneStore(s, w, pid, job, t, page, 5);
    s' := PublishAlone(w, pid, e, job, t);
    WriteHop(s, pid, e, job, t, page, 5, w, s');
  }

  lemma {:induction false} WriteAlone(s: State, pid: nat, e: Env, job: Job, t: nat, page: nat, k: nat)
    returns (w: State, s': State)
    requires At(s, pid, EWrite(job, t, page, k)) && k <= 5 && O.Filled(s.pages, PayAt(s, t), job, page, k)
    ensures Completes(s, pid, e, s') && Stored(s, w, t, page) && s' == Published(w, pid, t)
    ensures O.Filled(w.pages, PayAt(w, t), job, page, 5) && PayAt(w, t).overflow == page
    ensures w.procs == s.procs[pid := EPublish(job, t)]
    decreases 5 - k, 1
  {
    if k == 5 {
      w, s' := LastWriteAlone(s, pid, e, job, t, page);
    } else {
      w, s' := WriteOn(s, pid, e, job, t, page, k);
    }
  }

  lemma {:induction false} WriteOn(s: State, pid: nat, e: Env, job: Job, t: nat, page: nat, k: nat)
    returns (w: State, s': State)
    requires At(s, pid, EWrite(job, t, page, k)) && k < 5 && O.Filled(s.pages, PayAt(s, t), job, page, k)
    ensures Completes(s, pid, e, s') && Stored(s, w, t, page) && s' == Published(w, pid, t)
    ensures O.Filled(w.pages, PayAt(w, t), job, page, 5) && PayAt(w, t).overflow == page
    ensures w.procs == s.procs[pid := EPublish(job, t)]
    decreases 5 - k, 0
  {
    var n := Goto(StorePayload(s, job, t, page, k), pid, EWrite(job, t, page, k + 1));
    OneStore(s, n, pid, job, t, page, k);
    w, s' := WriteAlone(n, pid, e, job, t, page, k + 1);
    StoredTwice(s, n, w, t, page);
    WriteHop(s, pid, e, job, t, page, k, n, s');
  }

  // ---- Enqueue: from the allocation on ----

  /** Where an enqueue that owns ticket t ends up when it has room for its message:
      published, its slot holding the message, everything else as it was. */
  ghost predicate Accepted(s: State, s': State, pid: nat, job: Job, t: nat, page: nat) {
    && Wf(s) && Wf(s') && s'.cap == s.cap && s'.inlineSize == s.inlineSize && s'.enq == s.enq && s'.deq == s.deq
    && s'.seqs == s.seqs[SlotOf(t, s.cap) := t + 1]
    && s'.pays == s.pays[SlotOf(t, s.cap) := PayAt(s', t)] && O.Holds(s'.pages, s.inlineSize, PayAt(s', t), job)
    && (forall o | o != page :: PageBytes(s', o) == PageBytes(s, o))
    && s'.free == s.free - {page} && PayAt(s', t).overflow == page
    && s'.owners == s.owners[SlotOf(t, s.cap) := OwnerAt(s', t)] && OwnerAt(s', t).pid == 0
    && s'.marks == s.marks && s'.procs == s.procs[pid := Idle]
    && s'.h == s.h.(published := s.h.published + {t})
  }

  /** The ticket is spent on a tombstone because the slab has no page. */
  ghost predicate Starved(s: State, s': State, pid: nat, t: nat) {
    && Wf(s) && Wf(s')
    && s' == s.(seqs := s.seqs[SlotOf(t, s.cap) := t + s.cap], owners := s'.owners, procs := s.procs[pid := Idle],
                h := s.h.(tombs := s.h.tombs + {t}))
    && s'.owners == s.owners[SlotOf(t, s.cap) := OwnerAt(s', t)] && OwnerAt(s', t).pid == 0
  }

  /** The page an enqueue takes: none for a message that fits inline. */
  function PageFor(s: State, e: Env, job: Job): nat { if |job.data| <= s.inlineSize then 0 else e.page }

  ghost predicate Ended(s: State, s': State, pid: nat, e: Env, job: Job, t: nat) {
    if |job.data| > s.inlineSize && e.page == 0 then Starved(s, s', pid, t)
    else Accepted(s, s', pid, job, t, PageFor(s, e, job))
  }

  lemma TombHop(s: State, pid: nat, e: Env, t: nat, n: State, s': State)
    requires At(s, pid, ESkip(t, 1))
    requires n == Goto(ClearOwner(s, t, 0), pid, ESkip(t, 2))
    requires Wf(n) && Completes(n, pid, e, s')
    ensures Completes(s, pid, e, s')
  {
    OnFill(s, pid, e, ESkip(t, 1), n, s');
  }

  /** The owner record of a tombstone is cleared. */
  lemma SkipClears(s: State, pid: nat, e: Env, t: nat) returns (s': State)
    requires At(s, pid, ESkip(t, 1))
    ensures Completes(s, pid, e, s') && s' == Goto(s.(owners := Cleared(s, t)), pid, Idle)
  {
    var n := Goto(ClearOwner(s, t, 0), pid, ESkip(t, 2));
    s' := Goto(ClearOwner(n, t, 1), pid, Idle);
    Last(n, pid, e, ESkip(t, 2), s');
    TombHop(s, pid, e, t, n, s');
    ClearedTwice(s, pid, t, ESkip(t, 2));
  }

  /** Ticket t a tombstone whose owner record still stands. */
  function Tombed(s: State, t: nat): State
    requires Wf(s)
  {
    SetSeq(s, t, t + s.cap).(h := s.h.(tombs := s.h.tombs + {t}))
  }

  lemma SkipSteps(s: State, pid: nat, e: Env, t: nat)
    requires Wf(s) && SeqAt(s, t) == t
    ensures EnqueueFillStep(s, pid, ESkip(t, 0), Pick(e, ESkip(t, 0))) == Goto(Tombed(s, t), pid, ESkip(t, 1))
  {
  }

  lemma SkipHop(s: State, pid: nat, e: Env, t: nat, n: State, s': State)
    requires At(s, pid, ESkip(t, 0)) && SeqAt(s, t) == t
    requires n == Goto(Tombed(s, t), pid, ESkip(t, 1))
    requires Wf(n) && Completes(n, pid, e, s')
    ensures Completes(s, pid, e, s')
  {
    SkipSteps(s, pid, e, t);
    OnFill(s, pid, e, ESkip(t, 0), n, s');
  }

  lemma TombedIsStarved(s: State, n: State, pid: nat, t: nat)
    requires Ready(s, pid) && n == Goto(Tombed(s, t), pid, ESkip(t, 1))
    ensures Starved(s, Goto(n.(owners := Cleared(n, t)), pid, Idle), pid, t)
  {
    assert n.procs[pid := Idle] == s.procs[pid := Idle];
  }

  lemma SkipAlone(s: State, pid: nat, e: Env, t: nat) returns (s': State)
    requires At(s, pid, ESkip(t, 0)) && SeqAt(s, t) == t
    ensures Completes(s, pid, e, s') && Starved(s, s', pid, t)
  {
    var n := Goto(Tombed(s, t), pid, ESkip(t, 1));
    s' := SkipClears(n, pid, e, t);
    SkipHop(s, pid, e, t, n, s');
    TombedIsStarved(s, n, pid, t);
  }

  lemma WrittenIsAccepted(s: State, n: State, w: State, pid: nat, job: Job, t: nat, page: nat)
    requires Ready(s, pid) && n == Goto(s.(free := s.free - {page}), pid, EWrite(job, t, page, 0))
    requires Stored(n, w, t, page) && w.procs == n.procs[pid := EPublish(job, t)]
    requires O.Filled(w.pages, PayAt(w, t), job, page, 5) && PayAt(w, t).overflow == page
    requires page == 0 <==> |job.data| <= s.inlineSize
    ensures Accepted(s, Published(w, pid, t), pid, job, t, page)
  {
    var s' := Published(w, pid, t);
    assert s'.procs == s.procs[pid := Idle];
    forall o | o != page ensures PageBytes(s', o) == PageBytes(s, o) {
      assert PageBytes(w, o) == PageBytes(n, o);
    }
  }

  lemma StarveHop(s: State, pid: nat, e: Env, job: Job, t: nat, n: State, s': State)
    requires At(s, pid, EAlloc(job, t)) && |job.data| > s.inlineSize && e.page == 0
    requires n == Goto(s, pid, ESkip(t, 0))
    requires Wf(n) && Completes(n, pid, e, s')
    ensures Completes(s, pid, e, s')
  {
    OnFill(s, pid, e, EAlloc(job, t), n, s');
  }

  lemma AllocHop(s: State, pid: nat, e: Env, job: Job, t: nat, n: State, s': State)
    requires At(s, pid, EAlloc(job, t)) && 0 !in s.free
    requires |job.data| <= s.inlineSize || e.page in s.free
    requires |job.data| <= s.inlineSize && e.page != 0 ==> e.page in s.free
    requires n == Goto(s.(free := s.free - {PageFor(s, e, job)}), pid, EWrite(job, t, PageFor(s, e, job), 0))
    requires Wf(n) && Completes(n, pid, e, s')
    ensures Completes(s, pid, e, s')
  {
    OnFill(s, pid, e, EAlloc(job, t), n, s');
  }

  lemma StarveAlone(s: State, pid: nat, e: Env, job: Job, t: nat) returns (s': State)
    requires At(s, pid, EAlloc(job, t)) && SeqAt(s, t) == t && |job.data| > s.inlineSize && e.page == 0
    ensures Completes(s, pid, e, s') && Starved(s, s', pid, t)
  {
    var n := Goto(s, pid, ESkip(t, 0));
    s' := SkipAlone(n, pid, e, t);
    StarveHop(s, pid, e, job, t, n, s');
    assert n.procs[pid := Idle] == s.procs[pid := Idle];
  }

  lemma FillAlone(s: State, pid: nat, e: Env, job: Job, t: nat) returns (s': State)
    requires At(s, pid, EAlloc(job, t)) && 0 !in s.free && (e.page == 0 || e.page in s.free)
    requires |job.data| <= s.inlineSize || e.page != 0
    ensures Completes(s, pid, e, s') && Accepted(s, s', pid, job, t, PageFor(s, e, job))
  {
    var page := PageFor(s, e, job);
    var n := Goto(s.(free := s.free - {page}), pid, EWrite(job, t, page, 0));
    var w;
    w, s' := WriteAlone(n, pid, e, job, t, page, 0);
    AllocHop(s, pid, e, job, t, n, s');
    WrittenIsAccepted(s, n, w, pid, job, t, page);
  }

  lemma AllocAlone(s: State, pid: nat, e: Env, job: Job, t: nat) returns (s': State)
    requires At(s, pid, EAlloc(job, t)) && SeqAt(s, t) == t && 0 !in s.free && (e.page == 0 || e.page in s.free)
    ensures Completes(s, pid, e, s') && Ended(s, s', pid, e, job, t)
  {
    if |job.data| > s.inlineSize && e.page == 0 {
      s' := StarveAlone(s, pid, e, job, t);
    } else {
      s' := FillAlone(s, pid, e, job, t);
    }
  }

  // ---- Enqueue: the owner record ----

  /** Ending is the same from a state that differs in ticket t's owner record. */
  lemma EndedAfterOwner(s: State, n: State, s': State, pid: nat, e: Env, job: Job, t: nat)
    requires Wf(s) && Wf(n) && n.cap == s.cap
    requires n == s.(owners := s.owners[SlotOf(t, s.cap) := OwnerAt(n, t)], procs := n.procs)
    requires pid in n.procs && n.procs == s.procs[pid := n.procs[pid]] && Ended(n, s', pid, e, job, t)
    ensures Ended(s, s', pid, e, job, t)
  {
    assert n.procs[pid := Idle] == s.procs[pid := Idle];
  }

  lemma OwnerHop(s: State, pid: nat, e: Env, job: Job, t: nat, k: nat, n: State, s': State)
    requires At(s, pid, EOwner(job, t, k))
    requires n == Goto(StoreOwner(s, pid, t, k, e.start), pid, if k < 2 then EOwner(job, t, k + 1) else EAlloc(job, t))
    requires Wf(n) && Completes(n, pid, e, s')
    ensures Completes(s, pid, e, s')
  {
    OnFill(s, pid, e, EOwner(job, t, k), n, s');
  }

  lemma {:induction false} OwnerAlone(s: State, pid: nat, e: Env, job: Job, t: nat, k: nat) returns (s': State)
    requires At(s, pid, EOwner(job, t, k)) && k <= 2 && SeqAt(s, t) == t
    requires 0 !in s.free && (e.page == 0 || e.page in s.free)
    ensures Completes(s, pid, e, s') && Ended(s, s', pid, e, job, t)
    decreases 3 - k
  {
    var n := Goto(StoreOwner(s, pid, t, k, e.start), pid, if k < 2 then EOwner(job, t, k + 1) else EAlloc(job, t));
    if k < 2 {
      s' := OwnerAlone(n, pid, e, job, t, k + 1);
    } else {
      s' := AllocAlone(n, pid, e, job, t);
    }
    OwnerHop(s, pid, e, job, t, k, n, s');
    EndedAfterOwner(s, n, s', pid, e, job, t);
  }

  // ---- Enqueue, whole ----

  /** Ticket enq claimed for `job` by `pid`. */
  function Claimed(s: State, pid: nat, job: Job): State {
    s.(enq := s.enq + 1, h := s.h.(jobs := s.h.jobs + [job], claimers := s.h.claimers + [pid]))
  }

  /** The position and the word of its slot are loaded. */
  lemma LoadsAlone(s: State, pid: nat, e: Env, job: Job, k: nat, n: State, s': State)
    requires At(s, pid, ELoadPos(job, k)) && SeqAt(s, s.enq) <= s.enq
    requires var pc := if SeqAt(s, s.enq) == s.enq then EClaim(job, k, s.enq) else ESuspectPid(job, k, s.enq);
             n == Goto(s, pid, pc) && Completes(n, pid, e, s')
    ensures Completes(s, pid, e, s')
  {
    var a := Goto(s, pid, ELoadSeq(job, k, s.enq));
    assert a.procs[pid := n.procs[pid]] == n.procs;
    On(a, pid, e, ELoadSeq(job, k, s.enq), n, n.procs[pid], s');
    On(s, pid, e, ELoadPos(job, k), a, ELoadSeq(job, k, s.enq), s');
  }

  lemma ClaimHop(s: State, pid: nat, e: Env, job: Job, k: nat, n: State, s': State)
    requires At(s, pid, EClaim(job, k, s.enq))
    requires n == Goto(Claimed(s, pid, job), pid, EOwner(job, s.enq, 0))
    requires Wf(n) && Completes(n, pid, e, s')
    ensures Completes(s, pid, e, s')
  {
    On(s, pid, e, EClaim(job, k, s.enq), n, n.procs[pid], s');
  }

  lemma ClaimAlone(s: State, pid: nat, e: Env, job: Job, k: nat) returns (s': State)
    requires At(s, pid, ELoadPos(job, k)) && SeqAt(s, s.enq) == s.enq
    requires 0 !in s.free && (e.page == 0 || e.page in s.free)
    ensures Completes(s, pid, e, s') && Ended(Claimed(s, pid, job), s', pid, e, job, s.enq)
  {
    var a := Goto(s, pid, EClaim(job, k, s.enq));
    s' := ClaimedAlone(a, pid, e, job, k);
    LoadsAlone(s, pid, e, job, k, a, s');
    EndedMoved(s, s', pid, e, job, EClaim(job, k, s.enq));
  }

  /** Where the enqueuer stood before its claim does not matter. */
  lemma EndedMoved(s: State, s': State, pid: nat, e: Env, job: Job, pc: PC)
    requires Wf(s) && Ended(Claimed(Goto(s, pid, pc), pid, job), s', pid, e, job, s.enq)
    ensures Ended(Claimed(s, pid, job), s', pid, e, job, s.enq)
  {
    var a, b := Claimed(s, pid, job), Claimed(Goto(s, pid, pc), pid, job);
    Again(s, pid, pc, Idle);
    assert b == a.(procs := b.procs) && b.procs[pid := Idle] == a.procs[pid := Idle];
    SameProcs(a, b, s', pid, e, job, s.enq);
  }

  lemma ClaimedAlone(s: State, pid: nat, e: Env, job: Job, k: nat) returns (s': State)
    requires At(s, pid, EClaim(job, k, s.enq)) && SeqAt(s, s.enq) == s.enq
    requires 0 !in s.free && (e.page == 0 || e.page in s.free)
    ensures Completes(s, pid, e, s') && Ended(Claimed(s, pid, job), s', pid, e, job, s.enq)
  {
    var n := Goto(Claimed(s, pid, job), pid, EOwner(job, s.enq, 0));
    s' := OwnerAlone(n, pid, e, job, s.enq, 0);
    ClaimHop(s, pid, e, job, k, n, s');
    Again(Claimed(s, pid, job), pid, n.procs[pid], Idle);
    SameProcs(Claimed(s, pid, job), n, s', pid, e, job, s.enq);
  }

  lemma SameProcs(s: State, n: State, s': State, pid: nat, e: Env, job: Job, t: nat)
    requires Wf(s) && n == s.(procs := n.procs) && n.procs[pid := Idle] == s.procs[pid := Idle]
    requires Ended(n, s', pid, e, job, t)
    ensures Ended(s, s', pid, e, job, t)
  {
  }

  lemma SenderProbes(s: State, pid: nat, e: Env, job: Job, s': State)
    requires Base(s, pid) && SeqAt(s, s.enq) < s.enq
    requires Completes(Goto(s, pid, ESuspectPid(job, 0, s.enq)), pid, e, s')
    ensures Completes(Goto(s, pid, ELoadPos(job, 0)), pid, e, s')
  {
    var p := s.enq;
    Again(s, pid, ELoadSeq(job, 0, p), ESuspectPid(job, 0, p));
    OnClaim(s, pid, e, ELoadSeq(job, 0, p), s, ESuspectPid(job, 0, p), s');
    Again(s, pid, ELoadPos(job, 0), ELoadSeq(job, 0, p));
    OnClaim(s, pid, e, ELoadPos(job, 0), s, ELoadSeq(job, 0, p), s');
  }

  /** Nobody dead owns the slot: the enqueue gives up. */
  lemma SenderGivesUp(b: State, pid: nat, e: Env, job: Job, p: nat)
    requires Base(b, pid) && (e.dead ==> OwnerAt(b, p).pid == 0)
    ensures Completes(Goto(b, pid, ESuspectPid(job, 0, p)), pid, e, Goto(b, pid, Idle))
  {
    var d := OwnerAt(b, p).pid;
    if d == 0 || d == RECOVERING {
      ClaimEnds(b, pid, e, ESuspectPid(job, 0, p));
    } else {
      ClaimEnds(b, pid, e, ESuspectStart(job, 0, p, d));
      Again(b, pid, ESuspectPid(job, 0, p), ESuspectStart(job, 0, p, d));
      OnClaim(b, pid, e, ESuspectPid(job, 0, p), b, ESuspectStart(job, 0, p, d), Goto(b, pid, Idle));
    }
  }

  lemma ClaimEnds(b: State, pid: nat, e: Env, pc: PC)
    requires Base(b, pid) && IsEnqueueClaim(pc)
    requires EnqueueClaimStep(Goto(b, pid, pc), pid, pc, Pick(e, pc)) == Goto(Goto(b, pid, pc), pid, Idle)
    ensures Completes(Goto(b, pid, pc), pid, e, Goto(b, pid, Idle))
  {
    Again(b, pid, pc, Idle);
    ClaimHops(Goto(b, pid, pc), pid, e, pc);
    Ends(Goto(b, pid, pc), pid, e, Goto(b, pid, Idle));
  }

  lemma StartsAlone(s: State, pid: nat, e: Env, n: State, s': State)
    requires At(s, pid, Idle) && n == Goto(s, pid, Start(e.op)) && Completes(n, pid, e, s')
    ensures Completes(s, pid, e, s')
  {
    Continues(s, n, pid, e, s');
  }

  /** An enqueue run alone. If the slot of ticket enq is EMPTY for it, the message is
      published under that ticket (or the ticket becomes a tombstone, if the message
      needs a page and gets none); if not, nothing changes. */
  ghost predicate EnqueueOutcome(s: State, s': State, pid: nat, e: Env, job: Job)
    requires Wf(s)
  {
    if SeqAt(s, s.enq) == s.enq then Ended(Claimed(s, pid, job), s', pid, e, job, s.enq) else s' == s
  }

  lemma EnqueueTaken(s: State, pid: nat, e: Env, job: Job) returns (s': State)
    requires At(s, pid, Idle) && e.op == Enqueue(job) && SeqAt(s, s.enq) == s.enq
    requires 0 !in s.free && (e.page == 0 || e.page in s.free)
    ensures Completes(s, pid, e, s') && Ended(Claimed(s, pid, job), s', pid, e, job, s.enq)
  {
    var n := Goto(s, pid, ELoadPos(job, 0));
    s' := ClaimAlone(n, pid, e, job, 0);
    EndedMoved(s, s', pid, e, job, ELoadPos(job, 0));
    StartsAlone(s, pid, e, n, s');
  }

  lemma EnqueueRefused(s: State, pid: nat, e: Env, job: Job)
    requires At(s, pid, Idle) && e.op == Enqueue(job) && SeqAt(s, s.enq) < s.enq
    requires e.dead ==> OwnerAt(s, s.enq).pid == 0
    ensures Completes(s, pid, e, s)
  {
    SenderGivesUp(s, pid, e, job, s.enq);
    assert s.procs[pid := Idle] == s.procs;
    SenderProbes(s, pid, e, job, s);
    StartsAlone(s, pid, e, Goto(s, pid, ELoadPos(job, 0)), s);
  }

  lemma EnqueueInState(s: State, pid: nat, e: Env, job: Job) returns (s': State)
    requires At(s, pid, Idle) && e.op == Enqueue(job) && !e.dead && SeqAt(s, s.enq) <= s.enq
    requires 0 !in s.free && (e.page == 0 || e.page in s.free)
    ensures Completes(s, pid, e, s') && EnqueueOutcome(s, s', pid, e, job)
  {
    if SeqAt(s, s.enq) == s.enq {
      s' := EnqueueTaken(s, pid, e, job);
    } else {
      s' := s;
      EnqueueRefused(s, pid, e, job);
    }
  }

  // ---- Dequeue: reading a message ----

  /** The slot is EMPTY for its next round and its owner record cleared; the message
      goes to the caller. */
  function Returned(s: State, pid: nat, t: nat, chan: Bytes, data: Bytes): State
    requires Wf(s)
  {
    s.(seqs := s.seqs[SlotOf(t, s.cap) := t + s.cap], owners := Cleared(s, t), procs := s.procs[pid := Idle],
       h := s.h.(recycled := s.h.recycled + {t}, outs := s.h.outs + [Out(t, pid, chan, data)],
                 returned := s.h.returned + {t}))
  }

  lemma RecycleSteps(s: State, pid: nat, e: Env, t: nat, ch: Bytes, data: Bytes)
    requires Wf(s)
    ensures DequeueReadStep(s, pid, DRecycle(t, ch, data), Pick(e, DRecycle(t, ch, data)))
            == Goto(Recycled(s, t), pid, DClear(t, ch, data, 0))
  {
  }

  lemma RecycleHop(s: State, pid: nat, e: Env, t: nat, ch: Bytes, data: Bytes, n: State, s': State)
    requires At(s, pid, DRecycle(t, ch, data))
    requires n == Goto(Recycled(s, t), pid, DClear(t, ch, data, 0))
    requires Wf(n) && Completes(n, pid, e, s')
    ensures Completes(s, pid, e, s')
  {
    RecycleSteps(s, pid, e, t, ch, data);
    OnRead(s, pid, e, DRecycle(t, ch, data), n, s');
  }

  lemma UnownHop(s: State, pid: nat, e: Env, t: nat, ch: Bytes, data: Bytes, n: State, s': State)
    requires At(s, pid, DClear(t, ch, data, 0))
    requires n == Goto(ClearOwner(s, t, 0), pid, DClear(t, ch, data, 1))
    requires Wf(n) && Completes(n, pid, e, s')
    ensures Completes(s, pid, e, s')
  {
    OnRead(s, pid, e, DClear(t, ch, data, 0), n, s');
  }

  lemma UnownAlone(s: State, pid: nat, e: Env, t: nat, ch: Bytes, data: Bytes) returns (s': State)
    requires At(s, pid, DClear(t, ch, data, 0))
    ensures Completes(s, pid, e, s') && s' == HandedOver(s, pid, t, ch, data)
  {
    var n := Goto(ClearOwner(s, t, 0), pid, DClear(t, ch, data, 1));
    s' := Goto(ClearOwner(n, t, 1).(h := s.h.(outs := s.h.outs + [Out(t, pid, ch, data)], returned := s.h.returned + {t})),
               pid, Idle);
    Last(n, pid, e, DClear(t, ch, data, 1), s');
    UnownHop(s, pid, e, t, ch, data, n, s');
    ClearedTwice(s, pid, t, DClear(t, ch, data, 1));
  }

  function HandedOver(s: State, pid: nat, t: nat, ch: Bytes, data: Bytes): State
    requires Wf(s)
  {
    s.(owners := Cleared(s, t), procs := s.procs[pid := Idle],
       h := s.h.(outs := s.h.outs + [Out(t, pid, ch, data)], returned := s.h.returned + {t}))
  }

  /** Ticket t's slot EMPTY for its next round. */
  function Recycled(s: State, t: nat): State
    requires Wf(s)
  {
    SetSeq(s, t, t + s.cap).(h := s.h.(recycled := s.h.recycled + {t}))
  }

  lemma RecycledThenReturned(s: State, pid: nat, t: nat, ch: Bytes, data: Bytes)
    requires Wf(s)
    ensures HandedOver(Goto(Recycled(s, t), pid, DClear(t, ch, data, 0)), pid, t, ch, data) == Returned(s, pid, t, ch, data)
  {
    assert s.procs[pid := DClear(t, ch, data, 0)][pid := Idle] == s.procs[pid := Idle];
  }

  lemma ReturnAlone(s: State, pid: nat, e: Env, t: nat, ch: Bytes, data: Bytes) returns (s': State)
    requires At(s, pid, DRecycle(t, ch, data))
    ensures Completes(s, pid, e, s') && s' == Returned(s, pid, t, ch, data)
  {
    var n := Goto(Recycled(s, t), pid, DClear(t, ch, data, 0));
    s' := UnownAlone(n, pid, e, t, ch, data);
    RecycleHop(s, pid, e, t, ch, data, n, s');
    RecycledThenReturned(s, pid, t, ch, data);
  }

  /** The page of ticket t detached and freed. */
  function Detached(s: State, t: nat): State
    requires Wf(s)
  {
    var y := PayAt(s, t);
    if y.overflow == 0 then s else FreePage(SetPay(s, t, y.(overflow := 0)), y.overflow, y.msgLen)
  }

  lemma LenHop(s: State, pid: nat, e: Env, t: nat, n: State, s': State)
    requires At(s, pid, DChanLen(t))
    requires n == Goto(s, pid, DChan(t, PayAt(s, t).chanLen))
    requires Wf(n) && Completes(n, pid, e, s')
    ensures Completes(s, pid, e, s')
  {
    OnRead(s, pid, e, DChanLen(t), n, s');
  }

  lemma ChanHop(s: State, pid: nat, e: Env, t: nat, k: nat, n: State, s': State)
    requires At(s, pid, DChan(t, k))
    requires n == Goto(s, pid, DMsgLen(t, ReadBytes(PayAt(s, t).chanBuf, k)))
    requires Wf(n) && Completes(n, pid, e, s')
    ensures Completes(s, pid, e, s')
  {
    OnRead(s, pid, e, DChan(t, k), n, s');
  }

  lemma MsgLenHop(s: State, pid: nat, e: Env, t: nat, ch: Bytes, n: State, s': State)
    requires At(s, pid, DMsgLen(t, ch))
    requires n == Goto(s, pid, DOverflow(t, ch, PayAt(s, t).msgLen))
    requires Wf(n) && Completes(n, pid, e, s')
    ensures Completes(s, pid, e, s')
  {
    OnRead(s, pid, e, DMsgLen(t, ch), n, s');
  }

  lemma OverflowHop(s: State, pid: nat, e: Env, t: nat, ch: Bytes, k: nat, n: State, s': State)
    requires At(s, pid, DOverflow(t, ch, k))
    requires n == Goto(s, pid, if PayAt(s, t).overflow != 0 then DPage(t, ch, k, PayAt(s, t).overflow) else DInline(t, ch, k))
    requires Wf(n) && Completes(n, pid, e, s')
    ensures Completes(s, pid, e, s')
  {
    OnRead(s, pid, e, DOverflow(t, ch, k), n, s');
  }

  lemma InlineHop(s: State, pid: nat, e: Env, t: nat, ch: Bytes, k: nat, n: State, s': State)
    requires At(s, pid, DInline(t, ch, k))
    requires n == Goto(s, pid, DRecycle(t, ch, ReadBytes(PayAt(s, t).inlineBuf, k)))
    requires Wf(n) && Completes(n, pid, e, s')
    ensures Completes(s, pid, e, s')
  {
    OnRead(s, pid, e, DInline(t, ch, k), n, s');
  }

  lemma PageHop(s: State, pid: nat, e: Env, t: nat, ch: Bytes, k: nat, o: nat, n: State, s': State)
    requires At(s, pid, DPage(t, ch, k, o))
    requires n == Goto(s, pid, DPageCas(t, ch, ReadBytes(PageBytes(s, o), k), o, k))
    requires Wf(n) && Completes(n, pid, e, s')
    ensures Completes(s, pid, e, s')
  {
    OnRead(s, pid, e, DPage(t, ch, k, o), n, s');
  }

  lemma CasHop(s: State, pid: nat, e: Env, t: nat, ch: Bytes, data: Bytes, o: nat, k: nat, n: State, s': State)
    requires At(s, pid, DPageCas(t, ch, data, o, k)) && PayAt(s, t).overflow == o
    requires n == Goto(SetPay(s, t, PayAt(s, t).(overflow := 0)), pid, DPageFree(t, ch, data, o, k))
    requires Wf(n) && Completes(n, pid, e, s')
    ensures Completes(s, pid, e, s')
  {
    OnRead(s, pid, e, DPageCas(t, ch, data, o, k), n, s');
  }

  lemma FreeHop(s: State, pid: nat, e: Env, t: nat, ch: Bytes, data: Bytes, o: nat, k: nat, n: State, s': State)
    requires At(s, pid, DPageFree(t, ch, data, o, k))
    requires n == Goto(FreePage(s, o, k), pid, DRecycle(t, ch, data))
    requires Wf(n) && Completes(n, pid, e, s')
    ensures Completes(s, pid, e, s')
  {
    OnRead(s, pid, e, DPageFree(t, ch, data, o, k), n, s');
  }

  /** What a reader of ticket t's slot gets. */
  function Body(s: State, t: nat): Bytes
    requires Wf(s)
  {
    var y := PayAt(s, t);
    ReadBytes(if y.overflow != 0 then PageBytes(s, y.overflow) else y.inlineBuf, y.msgLen)
  }

  lemma MovedReturned(s: State, pid: nat, t: nat, ch: Bytes, data: Bytes, pc: PC)
    requires Wf(s)
    ensures Returned(Goto(s, pid, pc), pid, t, ch, data) == Returned(s, pid, t, ch, data)
  {
    assert s.procs[pid := pc][pid := Idle] == s.procs[pid := Idle];
  }

  lemma FreeAlone(s: State, pid: nat, e: Env, t: nat, ch: Bytes, data: Bytes, o: nat, k: nat) returns (s': State)
    requires At(s, pid, DPageFree(t, ch, data, o, k))
    ensures Completes(s, pid, e, s') && s' == Returned(FreePage(s, o, k), pid, t, ch, data)
  {
    var n := Goto(FreePage(s, o, k), pid, DRecycle(t, ch, data));
    s' := ReturnAlone(n, pid, e, t, ch, data);
    FreeHop(s, pid, e, t, ch, data, o, k, n, s');
    MovedReturned(FreePage(s, o, k), pid, t, ch, data, DRecycle(t, ch, data));
  }

  lemma DetachedReturned(s: State, pid: nat, t: nat, ch: Bytes, data: Bytes, pc: PC)
    requires Wf(s) && PayAt(s, t).overflow != 0
    ensures var y := PayAt(s, t);
            Returned(FreePage(Goto(SetPay(s, t, y.(overflow := 0)), pid, pc), y.overflow, y.msgLen), pid, t, ch, data)
            == Returned(Detached(s, t), pid, t, ch, data)
  {
    Again(s, pid, pc, Idle);
  }

  lemma CasAlone(s: State, pid: nat, e: Env, t: nat, ch: Bytes, data: Bytes) returns (s': State)
    requires Wf(s) && PayAt(s, t).overflow != 0
    requires At(s, pid, DPageCas(t, ch, data, PayAt(s, t).overflow, PayAt(s, t).msgLen))
    ensures Completes(s, pid, e, s') && s' == Returned(Detached(s, t), pid, t, ch, data)
  {
    var y := PayAt(s, t);
    var pc := DPageFree(t, ch, data, y.overflow, y.msgLen);
    var n := Goto(SetPay(s, t, y.(overflow := 0)), pid, pc);
    s' := FreeAlone(n, pid, e, t, ch, data, y.overflow, y.msgLen);
    CasHop(s, pid, e, t, ch, data, y.overflow, y.msgLen, n, s');
    DetachedReturned(s, pid, t, ch, data, pc);
  }

  lemma PageAlone(s: State, pid: nat, e: Env, t: nat, ch: Bytes) returns (s': State)
    requires Wf(s) && At(s, pid, DPage(t, ch, PayAt(s, t).msgLen, PayAt(s, t).overflow)) && PayAt(s, t).overflow != 0
    ensures Completes(s, pid, e, s') && s' == Returned(Detached(s, t), pid, t, ch, Body(s, t))
  {
    var o, k, data := PayAt(s, t).overflow, PayAt(s, t).msgLen, Body(s, t);
    var n := Goto(s, pid, DPageCas(t, ch, data, o, k));
    s' := CasAlone(n, pid, e, t, ch, data);
    PageHop(s, pid, e, t, ch, k, o, n, s');
    Again(s, pid, n.procs[pid], Idle);
    SameReturned(s, n, pid, t, ch);
  }

  lemma InlineAlone(s: State, pid: nat, e: Env, t: nat, ch: Bytes) returns (s': State)
    requires Wf(s) && At(s, pid, DInline(t, ch, PayAt(s, t).msgLen)) && PayAt(s, t).overflow == 0
    ensures Completes(s, pid, e, s') && s' == Returned(Detached(s, t), pid, t, ch, Body(s, t))
  {
    var n := Goto(s, pid, DRecycle(t, ch, Body(s, t)));
    s' := ReturnAlone(n, pid, e, t, ch, Body(s, t));
    InlineHop(s, pid, e, t, ch, PayAt(s, t).msgLen, n, s');
    MovedReturned(s, pid, t, ch, Body(s, t), DRecycle(t, ch, Body(s, t)));
  }

  lemma BodyAlone(s: State, pid: nat, e: Env, t: nat, ch: Bytes) returns (s': State)
    requires Wf(s) && At(s, pid, DOverflow(t, ch, PayAt(s, t).msgLen))
    ensures Completes(s, pid, e, s') && s' == Returned(Detached(s, t), pid, t, ch, Body(s, t))
  {
    var k, o := PayAt(s, t).msgLen, PayAt(s, t).overflow;
    var n := Goto(s, pid, if o != 0 then DPage(t, ch, k, o) else DInline(t, ch, k));
    if o != 0 {
      s' := PageAlone(n, pid, e, t, ch);
    } else {
      s' := InlineAlone(n, pid, e, t, ch);
    }
    OverflowHop(s, pid, e, t, ch, k, n, s');
    SameReturned(s, n, pid, t, ch);
  }

  lemma SameReturned(s: State, n: State, pid: nat, t: nat, ch: Bytes)
    requires Wf(s) && n == s.(procs := n.procs) && n.procs[pid := Idle] == s.procs[pid := Idle]
    ensures Body(n, t) == Body(s, t)
    ensures Returned(Detached(n, t), pid, t, ch, Body(n, t)) == Returned(Detached(s, t), pid, t, ch, Body(s, t))
  {
  }

  function NameIn(s: State, t: nat): Bytes
    requires Wf(s)
  {
    ReadBytes(PayAt(s, t).chanBuf, PayAt(s, t).chanLen)
  }

  lemma NameAlone(s: State, pid: nat, e: Env, t: nat) returns (s': State)
    requires At(s, pid, DChanLen(t))
    ensures Completes(s, pid, e, s') && s' == Returned(Detached(s, t), pid, t, NameIn(s, t), Body(s, t))
  {
    var n := Goto(s, pid, DChan(t, PayAt(s, t).chanLen));
    s' := ChanAlone(n, pid, e, t);
    LenHop(s, pid, e, t, n, s');
    MovedReading(s, pid, t, n.procs[pid]);
  }

  lemma ChanAlone(s: State, pid: nat, e: Env, t: nat) returns (s': State)
    requires Wf(s) && At(s, pid, DChan(t, PayAt(s, t).chanLen))
    ensures Completes(s, pid, e, s') && s' == Returned(Detached(s, t), pid, t, NameIn(s, t), Body(s, t))
  {
    var n := Goto(s, pid, DMsgLen(t, NameIn(s, t)));
    s' := MsgLenAlone(n, pid, e, t);
    ChanHop(s, pid, e, t, PayAt(s, t).chanLen, n, s');
    MovedReading(s, pid, t, n.procs[pid]);
  }

  lemma MsgLenAlone(s: State, pid: nat, e: Env, t: nat) returns (s': State)
    requires Wf(s) && At(s, pid, DMsgLen(t, NameIn(s, t)))
    ensures Completes(s, pid, e, s') && s' == Returned(Detached(s, t), pid, t, NameIn(s, t), Body(s, t))
  {
    var n := Goto(s, pid, DOverflow(t, NameIn(s, t), PayAt(s, t).msgLen));
    s' := BodyAlone(n, pid, e, t, NameIn(s, t));
    MsgLenHop(s, pid, e, t, NameIn(s, t), n, s');
    MovedReading(s, pid, t, n.procs[pid]);
  }

  lemma MovedReading(s: State, pid: nat, t: nat, pc: PC)
    requires Wf(s)
    ensures var n := Goto(s, pid, pc);
            && NameIn(n, t) == NameIn(s, t) && Body(n, t) == Body(s, t)
            && Returned(Detached(n, t), pid, t, NameIn(s, t), Body(s, t))
               == Returned(Detached(s, t), pid, t, NameIn(s, t), Body(s, t))
  {
    Again(s, pid, pc, Idle);
    SameReturned(s, Goto(s, pid, pc), pid, t, NameIn(s, t));
  }

  lemma TakeOwnerHop(s: State, pid: nat, e: Env, t: nat, k: nat, n: State, s': State)
    requires At(s, pid, DOwner(t, k))
    requires n == Goto(StoreOwner(s, pid, t, k, e.start), pid, if k < 2 then DOwner(t, k + 1) else DChanLen(t))
    requires Wf(n) && Completes(n, pid, e, s')
    ensures Completes(s, pid, e, s')
  {
    OnRead(s, pid, e, DOwner(t, k), n, s');
  }

  /** The message of ticket t is delivered to `pid`: `o` its owner record at the end. */
  ghost predicate Delivers(s: State, s': State, pid: nat, t: nat) {
    && Wf(s) && Wf(s')
    && s' == Returned(Detached(s, t), pid, t, NameIn(s, t), Body(s, t)).(owners := s'.owners)
    && s'.owners == s.owners[SlotOf(t, s.cap) := OwnerAt(s', t)] && OwnerAt(s', t).pid == 0
  }

  lemma DeliversAfterOwner(s: State, n: State, s': State, pid: nat, t: nat)
    requires Wf(s) && Wf(n) && n.cap == s.cap && Delivers(n, s', pid, t)
    requires n == s.(owners := s.owners[SlotOf(t, s.cap) := OwnerAt(n, t)], procs := n.procs)
    requires n.procs[pid := Idle] == s.procs[pid := Idle]
    ensures Delivers(s, s', pid, t)
  {
    ReturnedUnderOwner(s, n, s'.owners, pid, t, NameIn(s, t), Body(s, t));
  }

  lemma ReturnedUnderOwner(s: State, n: State, owners: seq<Owner>, pid: nat, t: nat, ch: Bytes, data: Bytes)
    requires Wf(s) && Wf(n) && n.cap == s.cap && n == s.(owners := n.owners, procs := n.procs)
    requires n.procs[pid := Idle] == s.procs[pid := Idle]
    ensures Returned(Detached(n, t), pid, t, ch, data).(owners := owners)
            == Returned(Detached(s, t), pid, t, ch, data).(owners := owners)
  {
  }

  lemma NameDelivers(s: State, pid: nat, e: Env, t: nat) returns (s': State)
    requires At(s, pid, DChanLen(t))
    ensures Completes(s, pid, e, s') && Delivers(s, s', pid, t)
  {
    s' := NameAlone(s, pid, e, t);
  }

  /** One store of the reader's owner record. */
  lemma OwnerStored(s: State, pid: nat, t: nat, k: nat, start: nat, pc: PC, n: State)
    requires Ready(s, pid) && n == Goto(StoreOwner(s, pid, t, k, start), pid, pc) && pc != Crashed
    ensures At(n, pid, pc) && n.cap == s.cap && n.procs[pid := Idle] == s.procs[pid := Idle]
    ensures n == s.(owners := s.owners[SlotOf(t, s.cap) := OwnerAt(n, t)], procs := n.procs)
  {
  }

  lemma {:induction false} ReadAlone(s: State, pid: nat, e: Env, t: nat, k: nat) returns (s': State)
    requires At(s, pid, DOwner(t, k)) && k <= 2
    ensures Completes(s, pid, e, s') && Delivers(s, s', pid, t)
    decreases 2 - k, 5
  {
    var pc := if k < 2 then DOwner(t, k + 1) else DChanLen(t);
    var n := Goto(StoreOwner(s, pid, t, k, e.start), pid, pc);
    OwnerStored(s, pid, t, k, e.start, pc, n);
    s' := AfterOwnerStore(n, pid, e, t, k);
    TakeOwnerHop(s, pid, e, t, k, n, s');
    DeliversAfterOwner(s, n, s', pid, t);
  }

  lemma {:induction false} AfterOwnerStore(n: State, pid: nat, e: Env, t: nat, k: nat) returns (s': State)
    requires k <= 2 && At(n, pid, if k < 2 then DOwner(t, k + 1) else DChanLen(t))
    ensures Completes(n, pid, e, s') && Delivers(n, s', pid, t)
    decreases 2 - k, 4
  {
    if k < 2 {
      s' := ReadAlone(n, pid, e, t, k + 1);
    } else {
      s' := NameDelivers(n, pid, e, t);
    }
  }

  // ---- Dequeue: one look at the ticket in front ----

  ghost predicate Base(s: State, pid: nat) { Wf(s) && pid in s.procs && pid != 0 && pid != RECOVERING }

  /** The scan goes on from n: one step of the claim loop. */
  lemma OnScan(b: State, pid: nat, e: Env, pc: PC, n: State, pc': PC, s': State)
    requires Base(b, pid) && IsDequeueClaim(pc) && pc' != Idle
    requires DequeueClaimStep(Goto(b, pid, pc), pid, pc, Pick(e, pc)) == Goto(n, pid, pc')
    requires Completes(Goto(n, pid, pc'), pid, e, s')
    ensures Completes(Goto(b, pid, pc), pid, e, s')
  {
    ScanHops(Goto(b, pid, pc), pid, e, pc);
    Continues(Goto(b, pid, pc), Goto(n, pid, pc'), pid, e, s');
  }

  lemma ScanHops(s: State, pid: nat, e: Env, pc: PC)
    requires At(s, pid, pc) && IsDequeueClaim(pc)
    ensures Hop(s, pid, e, DequeueClaimStep(s, pid, pc, Pick(e, pc)))
  {
  }

  lemma DropHops(s: State, pid: nat, e: Env, pc: PC)
    requires At(s, pid, pc) && IsDequeueExpired(pc)
    ensures Hop(s, pid, e, DequeueExpiredStep(s, pid, pc))
  {
  }

  /** One step of discarding an expired message. */
  lemma OnDrop(b: State, pid: nat, e: Env, pc: PC, n: State, pc': PC, s': State)
    requires Base(b, pid) && IsDequeueExpired(pc) && pc' != Idle
    requires DequeueExpiredStep(Goto(b, pid, pc), pid, pc) == Goto(n, pid, pc')
    requires Completes(Goto(n, pid, pc'), pid, e, s')
    ensures Completes(Goto(b, pid, pc), pid, e, s')
  {
    DropHops(Goto(b, pid, pc), pid, e, pc);
    Continues(Goto(b, pid, pc), Goto(n, pid, pc'), pid, e, s');
  }

  /** What the word of the slot in front sends the scan to. */
  function Look(s: State): PC
    requires Wf(s)
  {
    var q := SeqAt(s, s.deq);
    if q < s.deq + 1 then DSuspectPid(s.deq) else if q > s.deq + 1 then DSkip(s.deq) else DClaim(s.deq)
  }

  lemma LookAlone(b: State, pid: nat, e: Env, s': State)
    requires Base(b, pid) && Completes(Goto(b, pid, Look(b)), pid, e, s')
    ensures Completes(Goto(b, pid, DLoadPos), pid, e, s')
  {
    Again(b, pid, DLoadSeq(b.deq), Look(b));
    OnScan(b, pid, e, DLoadSeq(b.deq), b, Look(b), s');
    Again(b, pid, DLoadPos, DLoadSeq(b.deq));
    OnScan(b, pid, e, DLoadPos, b, DLoadSeq(b.deq), s');
  }

  /** The tombstone in front stepped over. */
  function Stepped(s: State): State { s.(deq := s.deq + 1, h := s.h.(skips := s.h.skips + {s.deq})) }

  lemma StepOver(b: State, pid: nat, e: Env, s': State)
    requires Base(b, pid) && SeqAt(b, b.deq) > b.deq + 1
    requires Completes(Goto(Stepped(b), pid, DLoadPos), pid, e, s')
    ensures Completes(Goto(b, pid, DLoadPos), pid, e, s')
  {
    Again(b, pid, DSkip(b.deq), DLoadPos);
    OnScan(b, pid, e, DSkip(b.deq), Stepped(b), DLoadPos, s');
    LookAlone(b, pid, e, s');
  }

  /** The ticket in front claimed by `pid`. */
  function Taken(s: State, pid: nat): State {
    s.(deq := s.deq + 1, h := s.h.(takeLog := s.h.takeLog + [s.deq], takers := s.h.takers[s.deq := pid]))
  }

  lemma TakeAlone(b: State, pid: nat, e: Env, s': State)
    requires Base(b, pid) && SeqAt(b, b.deq) == b.deq + 1
    requires Completes(Goto(Taken(b, pid), pid, DExpiry(b.deq)), pid, e, s')
    ensures Completes(Goto(b, pid, DLoadPos), pid, e, s')
  {
    Again(b, pid, DClaim(b.deq), DExpiry(b.deq));
    OnScan(b, pid, e, DClaim(b.deq), Taken(b, pid), DExpiry(b.deq), s');
    LookAlone(b, pid, e, s');
  }

  lemma ExpiryAlone(b: State, pid: nat, e: Env, t: nat, s': State)
    requires Base(b, pid)
    requires Completes(Goto(b, pid, if e.now > PayAt(b, t).expiry then XRecycle(t, 0) else DOwner(t, 0)), pid, e, s')
    ensures Completes(Goto(b, pid, DExpiry(t)), pid, e, s')
  {
    var pc := if e.now > PayAt(b, t).expiry then XRecycle(t, 0) else DOwner(t, 0);
    Again(b, pid, DExpiry(t), pc);
    OnScan(b, pid, e, DExpiry(t), b, pc, s');
  }

  /** Nothing is there to take: the scan gives up. */
  lemma StopAlone(b: State, pid: nat, e: Env)
    requires Base(b, pid) && SeqAt(b, b.deq) <= b.deq && !e.dead
    ensures Completes(Goto(b, pid, DLoadPos), pid, e, Goto(b, pid, Idle))
  {
    var p, d, s' := b.deq, OwnerAt(b, b.deq).pid, Goto(b, pid, Idle);
    if d == 0 {
      GiveUp(b, pid, e, DSuspectPid(p));
    } else {
      GiveUp(b, pid, e, DSuspectStart(p, d));
      Again(b, pid, DSuspectPid(p), DSuspectStart(p, d));
      OnScan(b, pid, e, DSuspectPid(p), b, DSuspectStart(p, d), s');
    }
    LookAlone(b, pid, e, s');
  }

  lemma GiveUp(b: State, pid: nat, e: Env, pc: PC)
    requires Base(b, pid) && IsDequeueClaim(pc)
    requires DequeueClaimStep(Goto(b, pid, pc), pid, pc, Pick(e, pc)) == Goto(Goto(b, pid, pc), pid, Idle)
    ensures Completes(Goto(b, pid, pc), pid, e, Goto(b, pid, Idle))
  {
    Again(b, pid, pc, Idle);
    Ends(Goto(b, pid, pc), pid, e, Goto(b, pid, Idle));
  }

  // ---- Dequeue: an expired message ----

  function Unowned(s: State, t: nat): State
    requires Wf(s)
  {
    s.(owners := Cleared(s, t))
  }

  /** The message of ticket t discarded: its slot EMPTY for the next round, its page freed. */
  function Discarded(s: State, t: nat): State
    requires Wf(s)
  {
    Detached(Unowned(Recycled(s, t), t), t)
  }

  lemma DetachAlone(b: State, pid: nat, e: Env, t: nat, s': State)
    requires Base(b, pid) && Completes(Goto(Detached(b, t), pid, DLoadPos), pid, e, s')
    ensures Completes(Goto(b, pid, XLoadOverflow(t)), pid, e, s')
  {
    var o, n := PayAt(b, t).overflow, PayAt(b, t).msgLen;
    if o == 0 {
      Again(b, pid, XLoadOverflow(t), DLoadPos);
      OnDrop(b, pid, e, XLoadOverflow(t), b, DLoadPos, s');
    } else {
      PageDropped(b, pid, e, t, s');
      Again(b, pid, XLoadLen(t, o), XCas(t, o, n));
      OnDrop(b, pid, e, XLoadLen(t, o), b, XCas(t, o, n), s');
      Again(b, pid, XLoadOverflow(t), XLoadLen(t, o));
      OnDrop(b, pid, e, XLoadOverflow(t), b, XLoadLen(t, o), s');
    }
  }

  lemma PageDropped(b: State, pid: nat, e: Env, t: nat, s': State)
    requires Base(b, pid) && PayAt(b, t).overflow != 0
    requires Completes(Goto(Detached(b, t), pid, DLoadPos), pid, e, s')
    ensures Completes(Goto(b, pid, XCas(t, PayAt(b, t).overflow, PayAt(b, t).msgLen)), pid, e, s')
  {
    var o, k := PayAt(b, t).overflow, PayAt(b, t).msgLen;
    var n := SetPay(b, t, PayAt(b, t).(overflow := 0));
    Again(FreePage(n, o, k), pid, XFree(o, k), DLoadPos);
    OnDrop(n, pid, e, XFree(o, k), FreePage(n, o, k), DLoadPos, s');
    Again(n, pid, XCas(t, o, k), XFree(o, k));
    OnDrop(b, pid, e, XCas(t, o, k), n, XFree(o, k), s');
  }

  lemma DropAlone(b: State, pid: nat, e: Env, t: nat, s': State)
    requires Base(b, pid) && Completes(Goto(Discarded(b, t), pid, DLoadPos), pid, e, s')
    ensures Completes(Goto(b, pid, XRecycle(t, 0)), pid, e, s')
  {
    var r := Recycled(b, t);
    DetachAlone(Unowned(r, t), pid, e, t, s');
    UnownThen(r, pid, e, t, s');
    RecycleThen(b, pid, e, t, s');
  }

  lemma RecycleThen(b: State, pid: nat, e: Env, t: nat, s': State)
    requires Base(b, pid) && Completes(Goto(Recycled(b, t), pid, XRecycle(t, 1)), pid, e, s')
    ensures Completes(Goto(b, pid, XRecycle(t, 0)), pid, e, s')
  {
    Again(Recycled(b, t), pid, XRecycle(t, 0), XRecycle(t, 1));
    OnDrop(b, pid, e, XRecycle(t, 0), Recycled(b, t), XRecycle(t, 1), s');
  }

  lemma UnownThen(r: State, pid: nat, e: Env, t: nat, s': State)
    requires Base(r, pid) && Completes(Goto(Unowned(r, t), pid, XLoadOverflow(t)), pid, e, s')
    ensures Completes(Goto(r, pid, XRecycle(t, 1)), pid, e, s')
  {
    var n := ClearOwner(r, t, 0);
    assert ClearOwner(n, t, 1) == Unowned(r, t);
    Again(Unowned(r, t), pid, XRecycle(t, 2), XLoadOverflow(t));
    OnDrop(n, pid, e, XRecycle(t, 2), Unowned(r, t), XLoadOverflow(t), s');
    Again(n, pid, XRecycle(t, 1), XRecycle(t, 2));
    OnDrop(r, pid, e, XRecycle(t, 1), n, XRecycle(t, 2), s');
  }

  // ---- Dequeue: the scan ----

  /** Ticket t holds nothing for a consumer at time `now`: it is a tombstone, or its
      message has expired. */
  predicate Gone(h: History, now: int, t: nat) {
    t in h.tombs || (t in h.published && t < |h.jobs| && h.jobs[t].expiry < now)
  }

  /** The word and the payload of ticket t's slot say what the log says of t. */
  ghost predicate Told(s: State, t: nat)
    requires Wf(s)
  {
    && (t in s.h.tombs ==> t !in s.h.published && SeqAt(s, t) > t + 1)
    && (t in s.h.published ==> SeqAt(s, t) == t + 1 && t < |s.h.jobs| && PayAt(s, t).expiry == s.h.jobs[t].expiry)
    && (t !in s.h.tombs && t !in s.h.published ==> SeqAt(s, t) <= t)
  }

  /** Everything from the dequeue position up to ticket u is gone. */
  ghost predicate Line(s: State, now: int, u: nat)
    requires Wf(s)
  {
    s.deq <= u && (forall t: nat | s.deq <= t < u :: Gone(s.h, now, t)) && forall t: nat | s.deq <= t <= u :: Told(s, t)
  }

  /** The ticket in front passed: stepped over if it is a tombstone, else taken and discarded. */
  function Turn(s: State, pid: nat): State
    requires Wf(s)
  {
    if SeqAt(s, s.deq) > s.deq + 1 then Stepped(s) else Discarded(Taken(s, pid), s.deq)
  }

  lemma TurnAlone(b: State, pid: nat, e: Env, s': State)
    requires Base(b, pid) && Told(b, b.deq) && Gone(b.h, e.now, b.deq)
    requires Completes(Goto(Turn(b, pid), pid, DLoadPos), pid, e, s')
    ensures Completes(Goto(b, pid, DLoadPos), pid, e, s')
  {
    if SeqAt(b, b.deq) > b.deq + 1 {
      StepOver(b, pid, e, s');
    } else {
      DropAlone(Taken(b, pid), pid, e, b.deq, s');
      ExpiryAlone(Taken(b, pid), pid, e, b.deq, s');
      TakeAlone(b, pid, e, s');
    }
  }

  ghost predicate PagesBack(s: State, s': State)
    requires Wf(s)
  {
    forall t: nat | s.deq <= t < s'.deq && t in s.h.published :: PageBack(PayAt(s, t), s'.free)
  }

  /** A turn leaves every slot but that of its ticket alone. */
  ghost predicate Turned(s: State, n: State, pid: nat) {
    && Wf(s) && Wf(n) && n.deq == s.deq + 1
    && n == s.(deq := n.deq, seqs := n.seqs, pays := n.pays, owners := n.owners, free := n.free, h := n.h)
    && s.free <= n.free
    && if s.deq in s.h.published then
         && n.seqs == s.seqs[SlotOf(s.deq, s.cap) := s.deq + s.cap] && PageBack(PayAt(s, s.deq), n.free)
         && (forall i | 0 <= i < s.cap && i != SlotOf(s.deq, s.cap) :: n.pays[i] == s.pays[i])
         && n.h == s.h.(takeLog := s.h.takeLog + [s.deq], takers := s.h.takers[s.deq := pid],
                        recycled := s.h.recycled + {s.deq})
       else n.seqs == s.seqs && n.pays == s.pays && n.h == s.h.(skips := s.h.skips + {s.deq})
  }

  lemma TurnTurns(s: State, pid: nat, now: int)
    requires Base(s, pid) && Told(s, s.deq) && Gone(s.h, now, s.deq)
    ensures Turned(s, Turn(s, pid), pid)
  {
    if s.deq in s.h.published {
      assert SeqAt(s, s.deq) == s.deq + 1;
    }
  }

  /** A ticket further on is told of as before. */
  lemma TurnKeepsTold(s: State, n: State, pid: nat, t: nat)
    requires Turned(s, n, pid) && s.deq < t && Told(s, s.deq) && Told(s, t)
    ensures Told(n, t)
    ensures t in s.h.published ==> SeqAt(n, t) == SeqAt(s, t) && PayAt(n, t) == PayAt(s, t)
  {
    if s.deq in s.h.published && SlotOf(t, s.cap) == SlotOf(s.deq, s.cap) {
      SlotGap(s.deq, t, s.cap);
    }
  }

  lemma TurnKeepsLine(s: State, n: State, pid: nat, now: int, u: nat)
    requires Turned(s, n, pid) && Line(s, now, u) && s.deq < u
    ensures Line(n, now, u)
  {
    forall t: nat | n.deq <= t <= u ensures Told(n, t) {
      TurnKeepsTold(s, n, pid, t);
    }
    forall t: nat | n.deq <= t < u ensures Gone(n.h, now, t) {
      assert Gone(s.h, now, t);
    }
  }

  /** The tickets of a set from lo up to hi, in order. */
  function Among(ts: set<nat>, lo: nat, hi: nat): seq<nat>
    decreases hi - lo
  {
    if lo >= hi then [] else (if lo in ts then [lo] else []) + Among(ts, lo + 1, hi)
  }

  lemma {:induction false} AmongGrows(ts: set<nat>, lo: nat, hi: nat)
    requires lo <= hi
    ensures Among(ts, lo, hi + 1) == Among(ts, lo, hi) + if hi in ts then [hi] else []
    decreases hi - lo
  {
    if lo < hi {
      AmongGrows(ts, lo + 1, hi);
    }
  }

  /** What a scan by `pid` from s on has logged once it stands at position d: it took
      the published tickets, in order, and stepped over the others. */
  ghost predicate Logged(h: History, h': History, pid: nat, from: nat, d: nat) {
    && h' == h.(takeLog := h'.takeLog, takers := h'.takers, skips := h'.skips, recycled := h'.recycled,
                outs := h'.outs, returned := h'.returned)
    && h'.takeLog == h.takeLog + Among(h.published, from, d)
    && (forall t: nat :: t in h'.takers <==> t in h.takers || (from <= t < d && t in h.published))
    && (forall t: nat | t in h'.takers ::
          h'.takers[t] == if from <= t < d && t in h.published then pid else if t in h.takers then h.takers[t] else 0)
    && (forall t: nat :: t in h'.skips <==> t in h.skips || (from <= t < d && t !in h.published))
    && (forall t: nat :: t in h'.recycled <==> t in h.recycled || (from <= t < d && t in h.published))
  }

  /** From s to n the scan went from position s.deq to n.deq and delivered nothing. */
  ghost predicate Scanned(s: State, n: State, pid: nat) {
    && Wf(s) && Wf(n) && s.deq <= n.deq
    && n == s.(deq := n.deq, seqs := n.seqs, pays := n.pays, owners := n.owners, free := n.free, h := n.h)
    && s.free <= n.free && PagesBack(s, n)
    && Logged(s.h, n.h, pid, s.deq, n.deq) && n.h.outs == s.h.outs && n.h.returned == s.h.returned
  }

  lemma LogOneMore(h: History, a: History, b: History, pid: nat, from: nat, d: nat)
    requires from < d && Logged(a, b, pid, from + 1, d)
    requires if from in h.published then
               a == h.(takeLog := h.takeLog + [from], takers := h.takers[from := pid], recycled := h.recycled + {from})
             else a == h.(skips := h.skips + {from})
    ensures Logged(h, b, pid, from, d)
  {
    assert b.takeLog == h.takeLog + Among(h.published, from, d);
  }

  lemma TurnThenScan(s: State, a: State, n: State, pid: nat, now: int)
    requires Turned(s, a, pid) && Scanned(a, n, pid) && Line(s, now, n.deq)
    ensures Scanned(s, n, pid)
  {
    forall t: nat | s.deq <= t < n.deq && t in s.h.published ensures PageBack(PayAt(s, t), n.free) {
      if t > s.deq {
        TurnKeepsTold(s, a, pid, t);
        assert PageBack(PayAt(a, t), n.free);
      }
    }
    LogOneMore(s.h, a.h, n.h, pid, s.deq, n.deq);
  }

  /** The scan passes everything that is gone and stands at ticket u. */
  lemma {:induction false} ScanAlone(s: State, pid: nat, now: int, u: nat) returns (n: State)
    requires Base(s, pid) && Line(s, now, u)
    ensures Scanned(s, n, pid) && n.deq == u && Told(n, u)
    ensures u in s.h.published ==> SeqAt(n, u) == SeqAt(s, u) && PayAt(n, u) == PayAt(s, u)
    ensures forall e: Env, s' | e.now == now && Completes(Goto(n, pid, DLoadPos), pid, e, s') ::
              Completes(Goto(s, pid, DLoadPos), pid, e, s')
    decreases u - s.deq
  {
    if s.deq == u {
      n := s;
    } else {
      var a := Turn(s, pid);
      TurnTurns(s, pid, now);
      TurnKeepsLine(s, a, pid, now, u);
      TurnKeepsTold(s, a, pid, u);
      n := ScanAlone(a, pid, now, u);
      TurnThenScan(s, a, n, pid, now);
      forall e: Env, s' | e.now == now && Completes(Goto(n, pid, DLoadPos), pid, e, s')
        ensures Completes(Goto(s, pid, DLoadPos), pid, e, s')
      {
        TurnAlone(s, pid, e, s');
      }
    }
  }

  // ---- Dequeue, whole ----

  lemma DeliverAlone(b: State, pid: nat, e: Env) returns (s': State)
    requires Base(b, pid) && SeqAt(b, b.deq) == b.deq + 1 && e.now <= PayAt(b, b.deq).expiry
    ensures Completes(Goto(b, pid, DLoadPos), pid, e, s') && Delivers(Taken(b, pid), s', pid, b.deq)
  {
    var t, a := b.deq, Taken(b, pid);
    s' := ReadAlone(Goto(a, pid, DOwner(t, 0)), pid, e, t, 0);
    DeliversAfterMove(a, s', pid, t, DOwner(t, 0));
    ExpiryAlone(a, pid, e, t, s');
    TakeAlone(b, pid, e, s');
  }

  lemma DeliversAfterMove(a: State, s': State, pid: nat, t: nat, pc: PC)
    requires Wf(a) && Delivers(Goto(a, pid, pc), s', pid, t)
    ensures Delivers(a, s', pid, t)
  {
    Again(a, pid, pc, Idle);
    SameReturned(a, Goto(a, pid, pc), pid, t, NameIn(a, t));
  }

  /** Reading a slot that holds a message gives the message. */
  lemma HeldIsRead(s: State, t: nat, job: Job)
    requires Wf(s) && O.Holds(s.pages, s.inlineSize, PayAt(s, t), job)
    ensures NameIn(s, t) == Clip(job.chan) && Body(s, t) == job.data
  {
  }

  /** A dequeue by `pid` that ends in s' went up to ticket u and, if u is published,
      delivered it: its name as the name field keeps it, and its bytes. */
  ghost predicate Dequeued(s: State, s': State, pid: nat, u: nat) {
    var got := u in s.h.published;
    && Wf(s) && PagesBack(s, s') && s.free <= s'.free
    && u < |s.h.jobs| + 1 && (got ==> u < |s.h.jobs|)
    && s'.deq == (if got then u + 1 else u) && s'.enq == s.enq && s'.cap == s.cap && s'.procs == s.procs
    && Logged(s.h, s'.h, pid, s.deq, s'.deq)
    && s'.h.outs == s.h.outs + (if got then [Out(u, pid, Clip(s.h.jobs[u].chan), s.h.jobs[u].data)] else [])
    && s'.h.returned == s.h.returned + (if got then {u} else {})
  }

  lemma DeliveryLogged(s: State, n: State, s': State, pid: nat, u: nat, job: Job)
    requires Scanned(s, n, pid) && n.deq == u && u in s.h.published && u < |s.h.jobs| && job == s.h.jobs[u]
    requires PayAt(n, u) == PayAt(s, u)
    requires Delivers(Taken(n, pid), s', pid, u) && NameIn(n, u) == Clip(job.chan) && Body(n, u) == job.data
    requires s.procs[pid := Idle] == s.procs
    ensures Dequeued(s, s', pid, u)
  {
    DeliveredState(Taken(n, pid), s', pid, u, Clip(job.chan), job.data);
    TakeLogged(s.h, n.h, s'.h, pid, s.deq, u);
  }

  /** What a delivery comes to, the slot apart. */
  lemma DeliveredState(a: State, s': State, pid: nat, u: nat, chan: Bytes, data: Bytes)
    requires Delivers(a, s', pid, u) && NameIn(a, u) == chan && Body(a, u) == data
    ensures s'.h == a.h.(recycled := a.h.recycled + {u}, outs := a.h.outs + [Out(u, pid, chan, data)],
                         returned := a.h.returned + {u})
    ensures s'.deq == a.deq && s'.enq == a.enq && s'.cap == a.cap && s'.procs == a.procs[pid := Idle] && a.free <= s'.free
    ensures PageBack(PayAt(a, u), s'.free)
  {
  }

  lemma TakeLogged(h: History, a: History, b: History, pid: nat, from: nat, u: nat)
    requires from <= u && Logged(h, a, pid, from, u) && u in h.published
    requires b == a.(takeLog := a.takeLog + [u], takers := a.takers[u := pid], recycled := a.recycled + {u},
                     outs := b.outs, returned := b.returned)
    ensures Logged(h, b, pid, from, u + 1)
  {
    AmongGrows(h.published, from, u);
    assert b.takeLog == h.takeLog + Among(h.published, from, u + 1);
  }

  lemma NothingLogged(s: State, n: State, pid: nat, u: nat)
    requires Scanned(s, n, pid) && n.deq == u && u !in s.h.published && u <= |s.h.jobs|
    requires s.procs[pid := Idle] == s.procs
    ensures Dequeued(s, Goto(n, pid, Idle), pid, u)
  {
  }

  lemma DequeueDelivers(s: State, pid: nat, e: Env, n: State, u: nat) returns (s': State)
    requires Base(s, pid) && s.procs[pid] == Idle && Scanned(s, n, pid) && n.deq == u && u in s.h.published
    requires u < |s.h.jobs| && Told(n, u) && !Gone(s.h, e.now, u)
    requires PayAt(n, u) == PayAt(s, u) && O.Holds(n.pages, n.inlineSize, PayAt(n, u), s.h.jobs[u])
    ensures Completes(Goto(n, pid, DLoadPos), pid, e, s') && Dequeued(s, s', pid, u)
  {
    s' := DeliverAlone(n, pid, e);
    HeldIsRead(n, u, s.h.jobs[u]);
    assert s.procs[pid := Idle] == s.procs;
    DeliveryLogged(s, n, s', pid, u, s.h.jobs[u]);
  }

  lemma DequeueStops(s: State, pid: nat, e: Env, n: State, u: nat) returns (s': State)
    requires Base(s, pid) && s.procs[pid] == Idle && Scanned(s, n, pid) && n.deq == u && u !in s.h.published
    requires u <= |s.h.jobs| && Told(n, u) && u !in n.h.tombs && !e.dead
    ensures Completes(Goto(n, pid, DLoadPos), pid, e, s') && Dequeued(s, s', pid, u)
  {
    s' := Goto(n, pid, Idle);
    StopAlone(n, pid, e);
    assert s.procs[pid := Idle] == s.procs;
    NothingLogged(s, n, pid, u);
  }

  lemma DequeueInState(s: State, pid: nat, e: Env, u: nat) returns (s': State)
    requires At(s, pid, Idle) && e.op == Dequeue && !e.dead
    requires Line(s, e.now, u) && !Gone(s.h, e.now, u) && u <= |s.h.jobs|
    requires u in s.h.published ==> u < |s.h.jobs| && O.Holds(s.pages, s.inlineSize, PayAt(s, u), s.h.jobs[u])
    ensures Completes(s, pid, e, s') && Dequeued(s, s', pid, u)
  {
    var n := ScanAlone(s, pid, e.now, u);
    if u in s.h.published {
      s' := DequeueDelivers(s, pid, e, n, u);
    } else {
      s' := DequeueStops(s, pid, e, n, u);
    }
    StartsAlone(s, pid, e, Goto(s, pid, DLoadPos), s');
  }

  // ---- An enqueue whose slot is ahead ----

  /** One step of an enqueue's claim loop. */
  lemma OnClaim(b: State, pid: nat, e: Env, pc: PC, n: State, pc': PC, s': State)
    requires Base(b, pid) && IsEnqueueClaim(pc) && pc' != Idle
    requires EnqueueClaimStep(Goto(b, pid, pc), pid, pc, Pick(e, pc)) == Goto(n, pid, pc')
    requires Completes(Goto(n, pid, pc'), pid, e, s')
    ensures Completes(Goto(b, pid, pc), pid, e, s')
  {
    ClaimHops(Goto(b, pid, pc), pid, e, pc);
    Continues(Goto(b, pid, pc), Goto(n, pid, pc'), pid, e, s');
  }

  lemma ClaimHops(s: State, pid: nat, e: Env, pc: PC)
    requires At(s, pid, pc) && IsEnqueueClaim(pc)
    ensures Hop(s, pid, e, EnqueueClaimStep(s, pid, pc, Pick(e, pc)))
  {
  }

  /** The look number k (of 64) at a slot that is ahead. */
  lemma {:induction false} AheadAlone(b: State, pid: nat, e: Env, job: Job, k: nat)
    requires Base(b, pid) && SeqAt(b, b.enq) > b.enq && k < SPIN_BOUND
    ensures Completes(Goto(b, pid, ELoadPos(job, k)), pid, e, Goto(b, pid, Idle))
    decreases SPIN_BOUND - k
  {
    if k + 1 == SPIN_BOUND {
      LooksLast(b, pid, e, job, k);
    } else {
      AheadAlone(b, pid, e, job, k + 1);
      LooksOn(b, pid, e, job, k, Goto(b, pid, Idle));
    }
    var a := ELoadSeq(job, k, b.enq);
    Again(b, pid, ELoadPos(job, k), a);
    OnClaim(b, pid, e, ELoadPos(job, k), b, a, Goto(b, pid, Idle));
  }

  lemma LooksOn(b: State, pid: nat, e: Env, job: Job, k: nat, s': State)
    requires Base(b, pid) && SeqAt(b, b.enq) > b.enq && k + 1 < SPIN_BOUND
    requires Completes(Goto(b, pid, ELoadPos(job, k + 1)), pid, e, s')
    ensures Completes(Goto(b, pid, ELoadSeq(job, k, b.enq)), pid, e, s')
  {
    Again(b, pid, ELoadSeq(job, k, b.enq), ELoadPos(job, k + 1));
    OnClaim(b, pid, e, ELoadSeq(job, k, b.enq), b, ELoadPos(job, k + 1), s');
  }

  lemma LooksLast(b: State, pid: nat, e: Env, job: Job, k: nat)
    requires Base(b, pid) && SeqAt(b, b.enq) > b.enq && k + 1 == SPIN_BOUND
    ensures Completes(Goto(b, pid, ELoadSeq(job, k, b.enq)), pid, e, Goto(b, pid, Idle))
  {
    ClaimEnds(b, pid, e, ELoadSeq(job, k, b.enq));
  }

  /** From any state in which a repair has taken the slot of ticket enq past it, an
      enqueue run alone gives up after its bounded number of looks and changes nothing. */
  lemma AheadIsRefused(s: State, pid: nat, e: Env, job: Job)
    requires At(s, pid, Idle) && e.op == Enqueue(job) && SeqAt(s, s.enq) > s.enq
    ensures EndsIn(s, pid, e, s)
  {
    AheadAlone(s, pid, e, job, 0);
    assert s.procs[pid := Idle] == s.procs;
    StartsAlone(s, pid, e, Goto(s, pid, ELoadPos(job, 0)), s);
    OnlyEnd(s, pid, e, s);
  }

  // ---- One outcome ----

  lemma OneHop(s: State, pid: nat, e: Env, n: State, m: State)
    requires Hop(s, pid, e, n) && Hop(s, pid, e, m)
    ensures n == m
  {
  }

  lemma NextOf(s: State, pid: nat, e: Env, s': State, k: nat) returns (n: State)
    requires FinishesIn(s, pid, e, s', k)
    ensures 0 < k && Hop(s, pid, e, n) && if At(n, pid, Idle) then s' == n else FinishesIn(n, pid, e, s', k - 1)
  {
    assert Going(s, pid, e, s', k - 1);
    n :| GoesOn(s, pid, e, n, s', k - 1);
  }

  lemma {:induction false} OneOutcome(s: State, pid: nat, e: Env, a: State, j: nat, b: State, k: nat)
    requires FinishesIn(s, pid, e, a, j) && FinishesIn(s, pid, e, b, k)
    ensures a == b
    decreases k
  {
    var n := NextOf(s, pid, e, a, j);
    var m := NextOf(s, pid, e, b, k);
    OneHop(s, pid, e, n, m);
    if !At(n, pid, Idle) {
      OneOutcome(n, pid, e, a, j - 1, b, k - 1);
    }
  }

  /** Process `pid`, run alone, ends its operation in s' and nowhere else. */
  ghost predicate EndsIn(s: State, pid: nat, e: Env, s': State) {
    Completes(s, pid, e, s') && forall x | Completes(s, pid, e, x) :: x == s'
  }

  lemma OnlyEnd(s: State, pid: nat, e: Env, s': State)
    requires Completes(s, pid, e, s')
    ensures EndsIn(s, pid, e, s')
  {
    forall x | Completes(s, pid, e, x) ensures x == s' {
      var j: nat :| FinishesIn(s, pid, e, x, j);
      var k: nat :| FinishesIn(s, pid, e, s', k);
      OneOutcome(s, pid, e, x, j, s', k);
    }
  }

  // ---- In every run ----

  /** The first ticket at or past `d` that is not gone. */
  lemma {:induction false} FirstLeft(h: History, now: int, d: nat, enq: nat) returns (u: nat)
    requires d <= enq && !Gone(h, now, enq)
    ensures d <= u <= enq && !Gone(h, now, u) && forall t: nat | d <= t < u :: Gone(h, now, t)
    decreases enq - d
  {
    if Gone(h, now, d) {
      u := FirstLeft(h, now, d + 1, enq);
    } else {
      u := d;
    }
  }

  /** What the invariant of every run says of a ticket at or past the dequeue position. */
  lemma InvTells(s: State, t: nat)
    requires O.Inv(s) && s.deq <= t <= s.enq
    ensures Told(s, t)
    ensures t in s.h.published ==> t < |s.h.jobs| && O.Holds(s.pages, s.inlineSize, PayAt(s, t), s.h.jobs[t])
  {
    var v := O.V(s);
    assert O.ViewInv(v);
    if t < s.enq {
      assert O.SeqOk(v, t);
      if t in s.h.published {
        assert O.PayloadOk(v, t);
      }
    }
  }

  /** From any state that a run without crashes, expiry and compaction reaches, a
      dequeue run alone passes every ticket that is a tombstone or has expired and
      stands at the first ticket u that is not. If u is published it ends having
      taken u and delivered exactly the message sent under it; if not (u is still
      being written, or nothing was claimed that far) it ends having delivered nothing. */
  lemma DequeueAlone(r: seq<State>, i: nat, pid: nat, e: Env) returns (u: nat, s': State)
    requires O.CalmRun(r) && i < |r| && At(r[i], pid, Idle) && e.op == Dequeue && !e.dead
    ensures r[i].deq <= u <= r[i].enq && !Gone(r[i].h, e.now, u)
    ensures forall t: nat | r[i].deq <= t < u :: Gone(r[i].h, e.now, t)
    ensures EndsIn(r[i], pid, e, s') && Dequeued(r[i], s', pid, u)
  {
    var s := r[i];
    O.CalmRunInv(r, i);
    assert O.ViewInv(O.V(s));
    u := FirstLeft(s.h, e.now, s.deq, s.enq);
    forall t: nat | s.deq <= t <= u ensures Told(s, t) {
      InvTells(s, t);
    }
    InvTells(s, u);
    s' := DequeueInState(s, pid, e, u);
    OnlyEnd(s, pid, e, s');
  }

  /** The slot of ticket enq is EMPTY for it exactly when the slot's previous round is
      finished (a first round has none before it). */
  lemma EmptyMeans(r: seq<State>, i: nat)
    requires O.CalmRun(r) && i < |r|
    ensures Wf(r[i]) && SeqAt(r[i], r[i].enq) <= r[i].enq && 0 !in r[i].free
    ensures SeqAt(r[i], r[i].enq) == r[i].enq <==> r[i].enq < r[i].cap || O.Done(r[i].h, r[i].enq - r[i].cap)
  {
    var s, v := r[i], O.V(r[i]);
    O.CalmRunInv(r, i);
    assert O.ViewInv(v);
    assert O.SeqV(v, s.enq) <= s.enq;
    if s.enq < s.cap {
      O.SeqWordsPhasedAndMonotone(r, 0, i);
      assert r[0].seqs[s.enq] == s.enq;
    } else {
      assert O.SeqOk(v, s.enq - s.cap);
    }
  }

  /** An enqueue by `pid` of `job` that ends in s': refused without a trace, or its
      ticket published with the message in its slot (in page `page`, if it needs one),
      or, when it needs a page and gets none, its ticket a tombstone. */
  ghost predicate Enqueued(s: State, s': State, pid: nat, job: Job, page: nat) {
    var h, t := s.h, s.enq;
    if t >= s.cap && !O.Done(h, t - s.cap) then s' == s
    else
      && Wf(s) && Wf(s') && s'.cap == s.cap && s'.enq == t + 1 && s'.deq == s.deq && s'.procs == s.procs
      && (forall i | 0 <= i < s.cap && i != SlotOf(t, s.cap) :: s'.seqs[i] == s.seqs[i] && s'.pays[i] == s.pays[i])
      && if |job.data| > s.inlineSize && page == 0 then
           && s'.h == h.(jobs := h.jobs + [job], claimers := h.claimers + [pid], tombs := h.tombs + {t})
           && SeqAt(s', t) == t + s.cap && s'.free == s.free
         else
           && s'.h == h.(jobs := h.jobs + [job], claimers := h.claimers + [pid], published := h.published + {t})
           && SeqAt(s', t) == t + 1 && O.Holds(s'.pages, s.inlineSize, PayAt(s', t), job)
           && PayAt(s', t).overflow == (if |job.data| > s.inlineSize then page else 0)
           && s'.free == s.free - {PayAt(s', t).overflow}
  }

  lemma EndedMeans(s: State, s': State, pid: nat, e: Env, job: Job)
    requires Wf(s) && s.procs[pid := Idle] == s.procs && 0 !in s.free
    requires Ended(Claimed(s, pid, job), s', pid, e, job, s.enq)
    requires s.enq >= s.cap ==> O.Done(s.h, s.enq - s.cap)
    ensures Enqueued(s, s', pid, job, e.page)
  {
  }

  /** From any state that a run without crashes, expiry and compaction reaches, an
      enqueue run alone is refused exactly when the previous round of its slot is
      unfinished, and then changes nothing; else its ticket ends published, holding
      the message. */
  lemma EnqueueAlone(r: seq<State>, i: nat, pid: nat, e: Env, job: Job) returns (s': State)
    requires O.CalmRun(r) && i < |r| && At(r[i], pid, Idle) && e.op == Enqueue(job) && !e.dead
    requires e.page == 0 || e.page in r[i].free
    ensures EndsIn(r[i], pid, e, s') && Enqueued(r[i], s', pid, job, e.page)
  {
    var s := r[i];
    EmptyMeans(r, i);
    s' := EnqueueInState(s, pid, e, job);
    if SeqAt(s, s.enq) == s.enq {
      assert s.procs[pid := Idle] == s.procs;
      EndedMeans(s, s', pid, e, job);
    }
    OnlyEnd(s, pid, e, s');
  }
}
