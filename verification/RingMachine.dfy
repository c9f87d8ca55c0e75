/** The ring as a concurrent step machine. Every load, compare-and-swap and store
    of `try_enqueue`, `try_dequeue`, `recover_slot`, `repair_slot_to` and `compact`
    is a step of its own; processes interleave freely and may crash between any
    two steps. Memory is sequentially consistent and tickets do not wrap. */
module RingMachine {
  import opened Prelude

  /** Owner word of a slot that is under repair; never a process id. */
  const RECOVERING: nat := 0xFFFF_FFFF

  /** Retries of an enqueue that finds its slot ahead of its ticket. */
  const SPIN_BOUND: nat := 64

  /** Largest slab block; a free of more bytes than this is ignored by the slab. */
  const MAX_BLOCK: nat := 16_777_216

  datatype Job = Job(chan: Bytes, data: Bytes, expiry: int)

  datatype Owner = Owner(pid: nat, ticket: nat, start: nat)

  datatype Payload = Payload(expiry: int, chanLen: nat, chanBuf: Bytes,
                             msgLen: nat, inlineBuf: Bytes, overflow: nat)

  /** Where a repair returns to. */
  datatype Cont =
    | BackToEnqueue(job: Job, spins: nat)
    | BackToDequeue
    | BackToCompact(i: nat, e: nat, d: nat)

  /** The next step of a process, with its local variables. E*: enqueue;
      D*: dequeue; X*: dequeue of an expired message; R*: slot repair; K*: compact. */
  datatype PC =
    | Idle
    | Crashed
    | ELoadPos(job: Job, spins: nat)
    | ELoadSeq(job: Job, spins: nat, p: nat)
    | ESuspectPid(job: Job, spins: nat, p: nat)
    | ESuspectStart(job: Job, spins: nat, p: nat, dead: nat)
    | EClaim(job: Job, spins: nat, p: nat)
    | EOwner(job: Job, t: nat, k: nat)
    | EAlloc(job: Job, t: nat)
    | ESkip(t: nat, k: nat)
    | EWrite(job: Job, t: nat, page: nat, k: nat)
    | EPublish(job: Job, t: nat)
    | EClear(t: nat, k: nat)
    | DLoadPos
    | DLoadSeq(p: nat)
    | DSuspectPid(p: nat)
    | DSuspectStart(p: nat, dead: nat)
    | DSkip(p: nat)
    | DClaim(p: nat)
    | DExpiry(t: nat)
    | XRecycle(t: nat, k: nat)
    | XLoadOverflow(t: nat)
    | XLoadLen(t: nat, o: nat)
    | XCas(t: nat, o: nat, n: nat)
    | XFree(o: nat, n: nat)
    | DOwner(t: nat, k: nat)
    | DChanLen(t: nat)
    | DChan(t: nat, n: nat)
    | DMsgLen(t: nat, chan: Bytes)
    | DOverflow(t: nat, chan: Bytes, n: nat)
    | DPage(t: nat, chan: Bytes, n: nat, o: nat)
    | DPageCas(t: nat, chan: Bytes, data: Bytes, o: nat, n: nat)
    | DPageFree(t: nat, chan: Bytes, data: Bytes, o: nat, n: nat)
    | DInline(t: nat, chan: Bytes, n: nat)
    | DRecycle(t: nat, chan: Bytes, data: Bytes)
    | DClear(t: nat, chan: Bytes, data: Bytes, k: nat)
    | RClaim(p: nat, dead: nat, ret: Cont)
    | RTicket(p: nat, ret: Cont)
    | RSeq(p: nat, ticket: nat, ret: Cont)
    | RLoadOverflow(p: nat, q: nat, target: nat, ret: Cont)
    | RLoadLen(p: nat, q: nat, target: nat, o: nat, ret: Cont)
    | RCas(p: nat, q: nat, target: nat, o: nat, n: nat, ret: Cont)
    | RFree(p: nat, q: nat, target: nat, o: nat, n: nat, ret: Cont)
    | RFixSeq(p: nat, q: nat, target: nat, ret: Cont)
    | RFixOwner(p: nat, ret: Cont)
    | RFixTicket(p: nat, ret: Cont)
    | KLoadEnq
    | KLoadDeq(e: nat)
    | KSeq(i: nat, e: nat, d: nat)
    | KOwner(i: nat, e: nat, d: nat, q: nat)
    | KMark(i: nat, e: nat, d: nat, q: nat, o: nat)
    | KTicket(i: nat, e: nat, d: nat, q: nat)
    | KSetMark(i: nat, e: nat, d: nat)
    | KUnmark(i: nat, e: nat, d: nat)
    | KStoreEnq(e: nat, d: nat)
    | KStoreDeq(d: nat)

  datatype Out = Out(ticket: nat, pid: nat, chan: Bytes, data: Bytes)

  /** What has happened so far: an observer's log that no step reads. */
  datatype History = History(
    jobs: seq<Job>,            // the message of each claimed ticket
    claimers: seq<nat>,        // the producer of each claimed ticket
    published: set<nat>,       // tickets whose publish store ran
    tombs: set<nat>,           // tickets turned into SKIP tombstones
    takeLog: seq<nat>,         // tickets in the order consumers claimed them
    takers: map<nat, nat>,     // who claimed each of them
    skips: set<nat>,           // tickets consumers stepped over
    recycled: set<nat>,        // tickets whose slot was recycled by its consumer
    outs: seq<Out>,            // deliveries, in the order they returned
    returned: set<nat>)        // tickets delivered

  datatype State = State(
    cap: nat,
    inlineSize: nat,
    enq: nat,
    deq: nat,
    seqs: seq<nat>,
    pays: seq<Payload>,
    owners: seq<Owner>,
    marks: seq<bool>,
    lastEnq: nat,
    lastDeq: nat,
    free: set<nat>,            // pages in the slab's free lists or not yet bumped
    pages: map<nat, Bytes>,    // contents of every overflow page
    procs: map<nat, PC>,
    h: History)

  datatype Op = Enqueue(job: Job) | Dequeue | Compact

  /** Everything a step takes from outside: the operation an idle process starts,
      the death oracle's answer, the slab's answer, the clock, the process's start
      time, and whether the process crashes instead of stepping. */
  datatype Choice = Choice(op: Op, dead: bool, page: nat, now: int, start: nat, crash: bool)

  ghost predicate Wf(s: State) {
    && 2 <= s.cap
    && |s.seqs| == |s.pays| == |s.owners| == |s.marks| == s.cap
  }

  function SeqAt(s: State, t: nat): nat requires Wf(s) { s.seqs[SlotOf(t, s.cap)] }

  function PayAt(s: State, t: nat): Payload requires Wf(s) { s.pays[SlotOf(t, s.cap)] }

  function OwnerAt(s: State, t: nat): Owner requires Wf(s) { s.owners[SlotOf(t, s.cap)] }

  function SetSeq(s: State, t: nat, v: nat): State requires Wf(s) {
    s.(seqs := s.seqs[SlotOf(t, s.cap) := v])
  }

  function SetPay(s: State, t: nat, v: Payload): State requires Wf(s) {
    s.(pays := s.pays[SlotOf(t, s.cap) := v])
  }

  function SetOwner(s: State, t: nat, v: Owner): State requires Wf(s) {
    s.(owners := s.owners[SlotOf(t, s.cap) := v])
  }

  function SetMark(s: State, t: nat, v: bool): State requires Wf(s) {
    s.(marks := s.marks[SlotOf(t, s.cap) := v])
  }

  function Goto(s: State, pid: nat, pc: PC): State {
    s.(procs := s.procs[pid := pc])
  }

  /** The three stores of an owner record, one per step. */
  function StoreOwner(s: State, pid: nat, t: nat, k: nat, start: nat): State requires Wf(s) {
    var o := OwnerAt(s, t);
    SetOwner(s, t, if k == 0 then o.(pid := pid) else if k == 1 then o.(ticket := t) else o.(start := start))
  }

  /** The two stores that clear an owner record. */
  function ClearOwner(s: State, t: nat, k: nat): State requires Wf(s) {
    var o := OwnerAt(s, t);
    SetOwner(s, t, if k == 0 then o.(pid := 0) else o.(ticket := 0))
  }

  /** `slab.free`: a length no class covers leaves the page out. */
  function FreePage(s: State, o: nat, n: nat): State {
    if n <= MAX_BLOCK then s.(free := s.free + {o}) else s
  }

  /** The page of a message that has left its slot is back with the slab (which ignores
      a length that no class covers). */
  predicate PageBack(y: Payload, free: set<nat>) { y.overflow == 0 || y.msgLen > MAX_BLOCK || y.overflow in free }

  /** The payload stores of an enqueue: expiry, name length, name, message length,
      message bytes (in the slot or in its page), overflow word. */
  function StorePayload(s: State, job: Job, t: nat, page: nat, k: nat): State requires Wf(s) {
    var y := PayAt(s, t);
    if k == 0 then SetPay(s, t, y.(expiry := job.expiry))
    else if k == 1 then SetPay(s, t, y.(chanLen := Min(|job.chan|, NAME_WIDTH)))
    else if k == 2 then SetPay(s, t, y.(chanBuf := Overlay(y.chanBuf, Clip(job.chan))))
    else if k == 3 then SetPay(s, t, y.(msgLen := |job.data|))
    else if k == 4 then
      if page == 0 then SetPay(s, t, y.(inlineBuf := Overlay(y.inlineBuf, job.data)))
      else s.(pages := s.pages[page := Overlay(PageBytes(s, page), job.data)])
    else SetPay(s, t, y.(overflow := page))
  }

  function PageBytes(s: State, o: nat): Bytes {
    if o in s.pages then s.pages[o] else []
  }

  function Resume(ret: Cont): PC {
    match ret
    case BackToEnqueue(job, spins) => ELoadPos(job, spins)
    case BackToDequeue => DLoadPos
    case BackToCompact(i, e, d) => KUnmark(i, e, d)
  }

  function Start(op: Op): PC {
    match op
    case Enqueue(job) => ELoadPos(job, 0)
    case Dequeue => DLoadPos
    case Compact => KLoadEnq
  }

  /** The next ticket of slot `i` at or past position `m`. */
  function NextTicket(m: nat, i: nat, cap: nat): nat
    requires 0 < cap && i < cap
  {
    var r := SlotOf(m, cap);
    SlotOfBelow(m, cap);
    if r <= i then m - r + i else m - r + cap + i
  }

  lemma {:induction false} SlotOfBelow(m: nat, cap: nat)
    requires 0 < cap
    ensures SlotOf(m, cap) <= m && SlotOf(m - SlotOf(m, cap), cap) == 0
  {
    if cap <= m {
      SlotOfBelow(m - cap, cap);
    }
  }

  /** It is the least ticket at or past m that uses the slot. */
  lemma NextTicketIsLeast(m: nat, i: nat, cap: nat)
    requires i < cap
    ensures var n := NextTicket(m, i, cap); m <= n && SlotOf(n, cap) == i
    ensures forall t: nat | m <= t && SlotOf(t, cap) == i :: NextTicket(m, i, cap) <= t
  {
    var r, n := SlotOf(m, cap), NextTicket(m, i, cap);
    SlotOfBelow(m, cap);
    SlotOfOffset(m - r, i, cap);
    forall t: nat | m <= t && SlotOf(t, cap) == i ensures n <= t {
      if t < n {
        SlotGap(t, n, cap);
      }
    }
  }

  lemma {:induction false} SlotOfOffset(base: nat, i: nat, cap: nat)
    requires i < cap && SlotOf(base, cap) == 0
    ensures SlotOf(base + i, cap) == i
    ensures SlotOf(base + cap + i, cap) == i
  {
    if cap <= base {
      SlotOfOffset(base - cap, i, cap);
    }
  }

  ghost predicate Enabled(s: State, pid: nat, c: Choice) {
    && Wf(s)
    && pid in s.procs && s.procs[pid] != Crashed
    && pid != 0 && pid != RECOVERING
    && (c.page == 0 || c.page in s.free)
  }

  ghost function Step(s: State, pid: nat, c: Choice): State
    requires Enabled(s, pid, c)
  {
    var pc := s.procs[pid];
    if c.crash then Goto(s, pid, Crashed)
    else if pc.Idle? then Goto(s, pid, Start(c.op))
    else if IsEnqueueClaim(pc) then EnqueueClaimStep(s, pid, pc, c)
    else if IsEnqueueFill(pc) then EnqueueFillStep(s, pid, pc, c)
    else if IsDequeueClaim(pc) then DequeueClaimStep(s, pid, pc, c)
    else if IsDequeueExpired(pc) then DequeueExpiredStep(s, pid, pc)
    else if IsDequeueRead(pc) then DequeueReadStep(s, pid, pc, c)
    else if IsRepair(pc) then RepairStep(s, pid, pc)
    else CompactStep(s, pid, pc)
  }

  predicate IsEnqueueClaim(pc: PC) {
    pc.ELoadPos? || pc.ELoadSeq? || pc.ESuspectPid? || pc.ESuspectStart? || pc.EClaim?
  }

  predicate IsEnqueueFill(pc: PC) {
    pc.EOwner? || pc.EAlloc? || pc.ESkip? || pc.EWrite? || pc.EPublish? || pc.EClear?
  }

  predicate IsDequeueClaim(pc: PC) {
    pc.DLoadPos? || pc.DLoadSeq? || pc.DSuspectPid? || pc.DSuspectStart? || pc.DSkip? || pc.DClaim? || pc.DExpiry?
  }

  predicate IsDequeueExpired(pc: PC) {
    pc.XRecycle? || pc.XLoadOverflow? || pc.XLoadLen? || pc.XCas? || pc.XFree?
  }

  predicate IsDequeueRead(pc: PC) {
    || pc.DOwner? || pc.DChanLen? || pc.DChan? || pc.DMsgLen? || pc.DOverflow? || pc.DPage? || pc.DPageCas?
    || pc.DPageFree? || pc.DInline? || pc.DRecycle? || pc.DClear?
  }

  predicate IsRepair(pc: PC) {
    || pc.RClaim? || pc.RTicket? || pc.RSeq? || pc.RLoadOverflow? || pc.RLoadLen? || pc.RCas? || pc.RFree?
    || pc.RFixSeq? || pc.RFixOwner? || pc.RFixTicket?
  }

  predicate IsCompact(pc: PC) {
    || pc.KLoadEnq? || pc.KLoadDeq? || pc.KSeq? || pc.KOwner? || pc.KMark? || pc.KTicket? || pc.KSetMark?
    || pc.KUnmark? || pc.KStoreEnq? || pc.KStoreDeq?
  }

  /** `try_enqueue` up to and including its claim of a ticket. */
  function EnqueueClaimStep(s: State, pid: nat, pc: PC, c: Choice): State
    requires Wf(s) && IsEnqueueClaim(pc)
  {
    match pc
    case ELoadPos(job, n) => Goto(s, pid, ELoadSeq(job, n, s.enq))
    case ELoadSeq(job, n, p) =>
      var q := SeqAt(s, p);
      Goto(s, pid,
        if q == p then EClaim(job, n, p)
        else if q < p then ESuspectPid(job, n, p)
        else if n + 1 >= SPIN_BOUND then Idle
        else ELoadPos(job, n + 1))
    case ESuspectPid(job, n, p) =>
      var d := OwnerAt(s, p).pid;
      Goto(s, pid, if d == 0 || d == RECOVERING then Idle else ESuspectStart(job, n, p, d))
    case ESuspectStart(job, n, p, d) =>
      Goto(s, pid, if c.dead then RClaim(p, d, BackToEnqueue(job, n)) else Idle)
    case EClaim(job, n, p) =>
      if s.enq == p then
        Goto(s.(enq := p + 1, h := s.h.(jobs := s.h.jobs + [job], claimers := s.h.claimers + [pid])),
             pid, EOwner(job, p, 0))
      else Goto(s, pid, ELoadPos(job, n))
  }

  /** `try_enqueue` once it owns ticket t. */
  function EnqueueFillStep(s: State, pid: nat, pc: PC, c: Choice): State
    requires Wf(s) && IsEnqueueFill(pc)
  {
    match pc
    case EOwner(job, t, k) =>
      Goto(StoreOwner(s, pid, t, k, c.start), pid, if k < 2 then EOwner(job, t, k + 1) else EAlloc(job, t))
    case EAlloc(job, t) =>
      if |job.data| <= s.inlineSize then Goto(s, pid, EWrite(job, t, 0, 0))
      else if c.page == 0 then Goto(s, pid, ESkip(t, 0))
      else Goto(s.(free := s.free - {c.page}), pid, EWrite(job, t, c.page, 0))
    case ESkip(t, k) =>
      if k == 0 then
        if SeqAt(s, t) == t then
          Goto(SetSeq(s, t, t + s.cap).(h := s.h.(tombs := s.h.tombs + {t})), pid, ESkip(t, 1))
        else Goto(s, pid, ESkip(t, 1))
      else Goto(ClearOwner(s, t, k - 1), pid, if k == 1 then ESkip(t, 2) else Idle)
    case EWrite(job, t, g, k) =>
      Goto(StorePayload(s, job, t, g, k), pid, if k < 5 then EWrite(job, t, g, k + 1) else EPublish(job, t))
    case EPublish(job, t) =>
      Goto(SetSeq(s, t, t + 1).(h := s.h.(published := s.h.published + {t})), pid, EClear(t, 0))
    case EClear(t, k) =>
      Goto(ClearOwner(s, t, k), pid, if k == 0 then EClear(t, 1) else Idle)
  }

  /** `try_dequeue` up to its expiry check. */
  function DequeueClaimStep(s: State, pid: nat, pc: PC, c: Choice): State
    requires Wf(s) && IsDequeueClaim(pc)
  {
    match pc
    case DLoadPos => Goto(s, pid, DLoadSeq(s.deq))
    case DLoadSeq(p) =>
      var q := SeqAt(s, p);
      Goto(s, pid, if q < p + 1 then DSuspectPid(p) else if q > p + 1 then DSkip(p) else DClaim(p))
    case DSuspectPid(p) =>
      var d := OwnerAt(s, p).pid;
      Goto(s, pid, if d == 0 then Idle else DSuspectStart(p, d))
    case DSuspectStart(p, d) =>
      Goto(s, pid, if d != RECOVERING && c.dead then RClaim(p, d, BackToDequeue) else Idle)
    case DSkip(p) =>
      if s.deq == p then Goto(s.(deq := p + 1, h := s.h.(skips := s.h.skips + {p})), pid, DLoadPos)
      else Goto(s, pid, DLoadPos)
    case DClaim(p) =>
      if s.deq == p then
        Goto(s.(deq := p + 1, h := s.h.(takeLog := s.h.takeLog + [p], takers := s.h.takers[p := pid])),
             pid, DExpiry(p))
      else Goto(s, pid, DLoadPos)
    case DExpiry(t) =>
      Goto(s, pid, if c.now > PayAt(s, t).expiry then XRecycle(t, 0) else DOwner(t, 0))
  }

  /** `try_dequeue` discarding an expired message. */
  function DequeueExpiredStep(s: State, pid: nat, pc: PC): State
    requires Wf(s) && IsDequeueExpired(pc)
  {
    match pc
    case XRecycle(t, k) =>
      if k == 0 then
        Goto(SetSeq(s, t, t + s.cap).(h := s.h.(recycled := s.h.recycled + {t})), pid, XRecycle(t, 1))
      else Goto(ClearOwner(s, t, k - 1), pid, if k == 1 then XRecycle(t, 2) else XLoadOverflow(t))
    case XLoadOverflow(t) =>
      var o := PayAt(s, t).overflow;
      Goto(s, pid, if o == 0 then DLoadPos else XLoadLen(t, o))
    case XLoadLen(t, o) => Goto(s, pid, XCas(t, o, PayAt(s, t).msgLen))
    case XCas(t, o, n) =>
      if PayAt(s, t).overflow == o then Goto(SetPay(s, t, PayAt(s, t).(overflow := 0)), pid, XFree(o, n))
      else Goto(s, pid, DLoadPos)
    case XFree(o, n) => Goto(FreePage(s, o, n), pid, DLoadPos)
  }

  /** `try_dequeue` delivering the message of ticket t. */
  function DequeueReadStep(s: State, pid: nat, pc: PC, c: Choice): State
    requires Wf(s) && IsDequeueRead(pc)
  {
    match pc
    case DOwner(t, k) =>
      Goto(StoreOwner(s, pid, t, k, c.start), pid, if k < 2 then DOwner(t, k + 1) else DChanLen(t))
    case DChanLen(t) => Goto(s, pid, DChan(t, PayAt(s, t).chanLen))
    case DChan(t, n) => Goto(s, pid, DMsgLen(t, ReadBytes(PayAt(s, t).chanBuf, n)))
    case DMsgLen(t, ch) => Goto(s, pid, DOverflow(t, ch, PayAt(s, t).msgLen))
    case DOverflow(t, ch, n) =>
      var o := PayAt(s, t).overflow;
      Goto(s, pid, if o != 0 then DPage(t, ch, n, o) else DInline(t, ch, n))
    case DPage(t, ch, n, o) => Goto(s, pid, DPageCas(t, ch, ReadBytes(PageBytes(s, o), n), o, n))
    case DPageCas(t, ch, data, o, n) =>
      if PayAt(s, t).overflow == o then
        Goto(SetPay(s, t, PayAt(s, t).(overflow := 0)), pid, DPageFree(t, ch, data, o, n))
      else Goto(s, pid, DRecycle(t, ch, data))
    case DPageFree(t, ch, data, o, n) => Goto(FreePage(s, o, n), pid, DRecycle(t, ch, data))
    case DInline(t, ch, n) => Goto(s, pid, DRecycle(t, ch, ReadBytes(PayAt(s, t).inlineBuf, n)))
    case DRecycle(t, ch, data) =>
      Goto(SetSeq(s, t, t + s.cap).(h := s.h.(recycled := s.h.recycled + {t})), pid, DClear(t, ch, data, 0))
    case DClear(t, ch, data, k) =>
      if k == 0 then Goto(ClearOwner(s, t, 0), pid, DClear(t, ch, data, 1))
      else
        Goto(ClearOwner(s, t, 1).(h := s.h.(outs := s.h.outs + [Out(t, pid, ch, data)],
                                             returned := s.h.returned + {t})), pid, Idle)
  }

  /** `recover_slot` and `repair_slot_to`. */
  function RepairStep(s: State, pid: nat, pc: PC): State
    requires Wf(s) && IsRepair(pc)
  {
    match pc
    case RClaim(p, d, ret) =>
      if OwnerAt(s, p).pid == d then
        Goto(SetOwner(s, p, OwnerAt(s, p).(pid := RECOVERING)), pid, RTicket(p, ret))
      else Goto(s, pid, Resume(ret))
    case RTicket(p, ret) => Goto(s, pid, RSeq(p, OwnerAt(s, p).ticket, ret))
    case RSeq(p, tk, ret) => Goto(s, pid, RLoadOverflow(p, SeqAt(s, p), tk + s.cap, ret))
    case RLoadOverflow(p, q, target, ret) =>
      var o := PayAt(s, p).overflow;
      Goto(s, pid, if o == 0 then RFixSeq(p, q, target, ret) else RLoadLen(p, q, target, o, ret))
    case RLoadLen(p, q, target, o, ret) => Goto(s, pid, RCas(p, q, target, o, PayAt(s, p).msgLen, ret))
    case RCas(p, q, target, o, n, ret) =>
      if PayAt(s, p).overflow == o then
        Goto(SetPay(s, p, PayAt(s, p).(overflow := 0)), pid, RFree(p, q, target, o, n, ret))
      else Goto(s, pid, RFixSeq(p, q, target, ret))
    case RFree(p, q, target, o, n, ret) => Goto(FreePage(s, o, n), pid, RFixSeq(p, q, target, ret))
    case RFixSeq(p, q, target, ret) =>
      Goto(if SeqAt(s, p) == q then SetSeq(s, p, target) else s, pid, RFixOwner(p, ret))
    case RFixOwner(p, ret) =>
      Goto(if OwnerAt(s, p).pid == RECOVERING then SetOwner(s, p, OwnerAt(s, p).(pid := 0)) else s,
           pid, RFixTicket(p, ret))
    case RFixTicket(p, ret) => Goto(SetOwner(s, p, OwnerAt(s, p).(ticket := 0)), pid, Resume(ret))
  }

  /** `compact`. */
  function CompactStep(s: State, pid: nat, pc: PC): State
    requires Wf(s) && IsCompact(pc)
  {
    match pc
    case KLoadEnq => Goto(s, pid, KLoadDeq(s.enq))
    case KLoadDeq(e) => Goto(s, pid, KSeq(0, e, s.deq))
    case KSeq(i, e, d) =>
      Goto(s, pid, if i < s.cap then KOwner(i, e, d, s.seqs[i]) else KStoreEnq(e, d))
    case KOwner(i, e, d, q) =>
      var o := OwnerAt(s, i).pid;
      var m := Max(e, d);
      Goto(s, pid,
        if m >= s.cap && q <= m - s.cap && (o == 0 || o == RECOVERING) then KMark(i, e, d, q, o)
        else KUnmark(i, e, d))
    case KMark(i, e, d, q, o) =>
      if s.marks[SlotOf(i, s.cap)] then
        Goto(s, pid,
          if o == RECOVERING then KTicket(i, e, d, q)
          else RLoadOverflow(i, q, NextTicket(Max(e, d), SlotOf(i, s.cap), s.cap), BackToCompact(i, e, d)))
      else Goto(s, pid, KSetMark(i, e, d))
    case KTicket(i, e, d, q) =>
      Goto(s, pid, RLoadOverflow(i, q, OwnerAt(s, i).ticket + s.cap, BackToCompact(i, e, d)))
    case KSetMark(i, e, d) => Goto(SetMark(s, i, true), pid, KSeq(i + 1, e, d))
    case KUnmark(i, e, d) => Goto(SetMark(s, i, false), pid, KSeq(i + 1, e, d))
    case KStoreEnq(e, d) => Goto(s.(lastEnq := e), pid, KStoreDeq(d))
    case KStoreDeq(d) => Goto(s.(lastDeq := d), pid, Idle)
  }

  ghost predicate Next(s: State, s': State) {
    exists pid: nat, c: Choice :: Enabled(s, pid, c) && s' == Step(s, pid, c)
  }

  /** A freshly initialised ring: slot i is EMPTY for ticket i, nothing is owned,
      no overflow page is attached, every process is idle. */
  ghost predicate Init(s: State) {
    && Wf(s) && s.inlineSize <= 512
    && s.enq == s.deq == 0
    && (forall i | 0 <= i < s.cap :: s.seqs[i] == i && s.pays[i].overflow == 0 && s.owners[i] == Owner(0, 0, 0)
                                     && !s.marks[i])
    && 0 !in s.free
    && (forall p | p in s.procs :: s.procs[p] == Idle)
    && s.h == History([], [], {}, {}, [], map[], {}, {}, [], {})
  }

  /** A run: each state follows from the one before by one step of some process. */
  ghost predicate Run(r: seq<State>) {
    0 < |r| && Init(r[0]) && forall i: nat | i + 1 < |r| :: NextAt(r, i)
  }

  ghost predicate NextAt(r: seq<State>, i: nat)
    requires i + 1 < |r|
  {
    Next(r[i], r[i + 1])
  }
}
