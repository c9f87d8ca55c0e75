/** The ring with processes that crash at any step, a death oracle that never
    declares a live process dead, and compaction. Coarser steps than
    `RingMachine`: the producer's owner record is one step, publish and owner
    clear are one step, a consumer's claim and owner record are one step, recycle
    and owner clear are one step, and a repair is one step (so the RECOVERING
    word is never seen). A producer's claim and its owner record stay two steps:
    a crash between them is what compaction exists to repair. */
module RingCrash {
  import opened Prelude
  import M = RingMachine

  datatype Cont = BackToEnqueue(job: M.Job, spins: nat) | BackToDequeue

  /** P*: enqueue; C*: dequeue; K*: compact. */
  datatype PC =
    | Idle
    | Crashed
    | PLoadPos(job: M.Job, spins: nat)
    | PLoadSeq(job: M.Job, spins: nat, p: nat)
    | PSuspect(job: M.Job, spins: nat, p: nat)
    | PClaim(job: M.Job, spins: nat, p: nat)
    | PGap(job: M.Job, t: nat)
    | PAlloc(job: M.Job, t: nat)
    | PSkip(t: nat)
    | PWrite(job: M.Job, t: nat)
    | PPublish(job: M.Job, t: nat)
    | CLoadPos
    | CLoadSeq(p: nat)
    | CSuspect(p: nat)
    | CSkip(p: nat)
    | CTake(p: nat)
    | CRead(t: nat)
    | CRecycle(t: nat, job: M.Job)
    | CReturn(t: nat, job: M.Job)
    | Repair(p: nat, corpse: nat, ret: Cont)
    | KLoadEnq
    | KLoadDeq(e: nat)
    | KSlot(i: nat, m: nat)

  datatype Out = Out(ticket: nat, pid: nat, job: M.Job)

  /** The observer's log. */
  datatype History = History(
    jobs: seq<M.Job>,          // the message of each claimed ticket
    claimers: seq<nat>,        // the producer of each claimed ticket
    recorded: set<nat>,        // tickets whose producer recorded its ownership
    published: set<nat>,
    tombs: set<nat>,           // SKIP tombstones
    takeLog: seq<nat>,         // tickets in the order consumers claimed them
    takers: map<nat, nat>,
    recycled: set<nat>,
    lost: set<nat>,            // tickets finished by a repair
    outs: seq<Out>,
    returned: set<nat>)

  datatype State = State(
    cap: nat,
    enq: nat,
    deq: nat,
    seqs: seq<nat>,
    owners: seq<nat>,
    tickets: seq<nat>,
    msgs: seq<M.Job>,
    marks: seq<bool>,
    dead: set<nat>,            // the crashed processes
    procs: map<nat, PC>,
    h: History)

  datatype Op = Enqueue(job: M.Job) | Dequeue | Compact

  /** What a step takes from outside: the operation an idle process starts, the
      oracle's answer, the slab's answer, and whether the process crashes instead. */
  datatype Choice = Choice(op: Op, dead: bool, page: bool, crash: bool)

  ghost predicate Wf(s: State) {
    2 <= s.cap && |s.seqs| == |s.owners| == |s.tickets| == |s.msgs| == |s.marks| == s.cap
  }

  function SeqAt(s: State, t: nat): nat requires Wf(s) { s.seqs[SlotOf(t, s.cap)] }

  function OwnerAt(s: State, t: nat): nat requires Wf(s) { s.owners[SlotOf(t, s.cap)] }

  function SetSeq(s: State, t: nat, w: nat): State requires Wf(s) {
    s.(seqs := s.seqs[SlotOf(t, s.cap) := w])
  }

  function SetOwner(s: State, t: nat, pid: nat, ticket: nat): State requires Wf(s) {
    s.(owners := s.owners[SlotOf(t, s.cap) := pid], tickets := s.tickets[SlotOf(t, s.cap) := ticket])
  }

  function Goto(s: State, pid: nat, pc: PC): State {
    s.(procs := s.procs[pid := pc])
  }

  function Resume(ret: Cont): PC {
    match ret
    case BackToEnqueue(job, n) => PLoadPos(job, n)
    case BackToDequeue => CLoadPos
  }

  function Start(op: Op): PC {
    match op
    case Enqueue(job) => PLoadPos(job, 0)
    case Dequeue => CLoadPos
    case Compact => KLoadEnq
  }

  /** No live producer sits between its claim and its owner record. */
  ghost predicate NoLiveGap(s: State) {
    forall p | p in s.procs :: !s.procs[p].PGap?
  }

  /** A live process may step. The oracle only confirms real deaths, and a compact
      pass only visits slots while no live producer is in the claim gap. */
  ghost predicate Enabled(s: State, pid: nat, c: Choice) {
    && Wf(s)
    && pid in s.procs && s.procs[pid] != Crashed && pid != 0
    && (c.dead && s.procs[pid].PSuspect? ==> OwnerAt(s, s.procs[pid].p) in s.dead)
    && (c.dead && s.procs[pid].CSuspect? ==> OwnerAt(s, s.procs[pid].p) in s.dead)
    && (s.procs[pid].KSlot? ==> NoLiveGap(s))
  }

  ghost function Step(s: State, pid: nat, c: Choice): State
    requires Enabled(s, pid, c)
  {
    var pc := s.procs[pid];
    if c.crash then Goto(s, pid, Crashed).(dead := s.dead + {pid})
    else if pc.Idle? then Goto(s, pid, Start(c.op))
    else if IsProducer(pc) then ProducerStep(s, pid, pc, c)
    else if IsConsumer(pc) then ConsumerStep(s, pid, pc, c)
    else if pc.Repair? then RepairStep(s, pid, pc)
    else CompactStep(s, pid, pc)
  }

  predicate IsProducer(pc: PC) {
    || pc.PLoadPos? || pc.PLoadSeq? || pc.PSuspect? || pc.PClaim? || pc.PGap? || pc.PAlloc? || pc.PSkip?
    || pc.PWrite? || pc.PPublish?
  }

  predicate IsConsumer(pc: PC) {
    || pc.CLoadPos? || pc.CLoadSeq? || pc.CSuspect? || pc.CSkip? || pc.CTake? || pc.CRead? || pc.CRecycle?
    || pc.CReturn?
  }

  function ProducerStep(s: State, pid: nat, pc: PC, c: Choice): State
    requires Wf(s) && IsProducer(pc)
  {
    match pc
    case PLoadPos(job, n) => Goto(s, pid, PLoadSeq(job, n, s.enq))
    case PLoadSeq(job, n, p) =>
      var q := SeqAt(s, p);
      Goto(s, pid,
        if q == p then PClaim(job, n, p)
        else if q < p then PSuspect(job, n, p)
        else if n + 1 >= M.SPIN_BOUND then Idle
        else PLoadPos(job, n + 1))
    case PSuspect(job, n, p) =>
      Goto(s, pid, if OwnerAt(s, p) != 0 && c.dead then Repair(p, OwnerAt(s, p), BackToEnqueue(job, n)) else Idle)
    case PClaim(job, n, p) =>
      if s.enq == p then
        Goto(s.(enq := p + 1, h := s.h.(jobs := s.h.jobs + [job], claimers := s.h.claimers + [pid])), pid, PGap(job, p))
      else Goto(s, pid, PLoadPos(job, n))
    case PGap(job, t) =>
      Goto(SetOwner(s, t, pid, t).(h := s.h.(recorded := s.h.recorded + {t})), pid, PAlloc(job, t))
    case PAlloc(job, t) => Goto(s, pid, if c.page then PWrite(job, t) else PSkip(t))
    case PSkip(t) =>
      Goto(SetOwner(SetSeq(s, t, t + s.cap), t, 0, 0).(h := s.h.(tombs := s.h.tombs + {t})), pid, Idle)
    case PWrite(job, t) => Goto(s.(msgs := s.msgs[SlotOf(t, s.cap) := job]), pid, PPublish(job, t))
    case PPublish(job, t) =>
      Goto(SetOwner(SetSeq(s, t, t + 1), t, 0, 0).(h := s.h.(published := s.h.published + {t})), pid, Idle)
  }

  function ConsumerStep(s: State, pid: nat, pc: PC, c: Choice): State
    requires Wf(s) && IsConsumer(pc)
  {
    match pc
    case CLoadPos => Goto(s, pid, CLoadSeq(s.deq))
    case CLoadSeq(p) =>
      var q := SeqAt(s, p);
      Goto(s, pid, if q < p + 1 then CSuspect(p) else if q > p + 1 then CSkip(p) else CTake(p))
    case CSuspect(p) =>
      Goto(s, pid, if OwnerAt(s, p) != 0 && c.dead then Repair(p, OwnerAt(s, p), BackToDequeue) else Idle)
    case CSkip(p) => Goto(if s.deq == p then s.(deq := p + 1) else s, pid, CLoadPos)
    case CTake(p) =>
      if s.deq == p then
        Goto(SetOwner(s, p, pid, p).(deq := p + 1, h := s.h.(takeLog := s.h.takeLog + [p], takers := s.h.takers[p := pid])),
             pid, CRead(p))
      else Goto(s, pid, CLoadPos)
    case CRead(t) => Goto(s, pid, CRecycle(t, s.msgs[SlotOf(t, s.cap)]))
    case CRecycle(t, job) =>
      Goto(SetOwner(SetSeq(s, t, t + s.cap), t, 0, 0).(h := s.h.(recycled := s.h.recycled + {t})), pid, CReturn(t, job))
    case CReturn(t, job) =>
      Goto(s.(h := s.h.(outs := s.h.outs + [Out(t, pid, job)], returned := s.h.returned + {t})), pid, Idle)
  }

  /** `recover_slot`: if the corpse still owns the slot, make it EMPTY for the
      round after the corpse's ticket. */
  function RepairStep(s: State, pid: nat, pc: PC): State
    requires Wf(s) && pc.Repair?
  {
    var i := SlotOf(pc.p, s.cap);
    if s.owners[i] == pc.corpse then
      Goto(s.(seqs := s.seqs[i := s.tickets[i] + s.cap], owners := s.owners[i := 0], tickets := s.tickets[i := 0],
              h := s.h.(lost := s.h.lost + {s.tickets[i]})),
           pid, Resume(pc.ret))
    else Goto(s, pid, Resume(pc.ret))
  }

  /** Compact sees slot i stuck: its word is a full round behind position m and
      nobody owns it. */
  predicate Stuck(s: State, i: nat, m: nat)
    requires Wf(s) && i < s.cap
  {
    m >= s.cap && s.seqs[i] <= m - s.cap && s.owners[i] == 0
  }

  /** One slot of a compact pass: mark a stuck slot, repair one that was marked. */
  function CompactSlot(s: State, i: nat, m: nat): State
    requires Wf(s) && i < s.cap
  {
    if !Stuck(s, i, m) then s.(marks := s.marks[i := false])
    else if !s.marks[i] then s.(marks := s.marks[i := true])
    else s.(seqs := s.seqs[i := M.NextTicket(m, i, s.cap)], tickets := s.tickets[i := 0],
            marks := s.marks[i := false], h := s.h.(lost := s.h.lost + {s.seqs[i]}))
  }

  predicate IsCompact(pc: PC) { pc.KLoadEnq? || pc.KLoadDeq? || pc.KSlot? }

  function CompactStep(s: State, pid: nat, pc: PC): State
    requires Wf(s) && IsCompact(pc)
  {
    match pc
    case KLoadEnq => Goto(s, pid, KLoadDeq(s.enq))
    case KLoadDeq(e) => Goto(s, pid, KSlot(0, Max(e, s.deq)))
    case KSlot(i, m) =>
      if i < s.cap then Goto(CompactSlot(s, i, m), pid, KSlot(i + 1, m)) else Goto(s, pid, Idle)
  }

  ghost predicate Next(s: State, s': State) {
    exists pid: nat, c: Choice :: Enabled(s, pid, c) && s' == Step(s, pid, c)
  }

  ghost predicate Init(s: State) {
    && Wf(s)
    && s.enq == s.deq == 0
    && (forall i | 0 <= i < s.cap :: s.seqs[i] == i && s.owners[i] == 0)
    && s.dead == {}
    && (forall p | p in s.procs :: s.procs[p] == Idle && p != 0)
    && s.h == History([], [], {}, {}, {}, [], map[], {}, {}, [], {})
  }

  ghost predicate Run(r: seq<State>) {
    0 < |r| && Init(r[0]) && forall i: nat | i + 1 < |r| :: NextAt(r, i)
  }

  ghost predicate NextAt(r: seq<State>, i: nat)
    requires i + 1 < |r|
  {
    Next(r[i], r[i + 1])
  }
}
