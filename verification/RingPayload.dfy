/** The crash machine with its payloads: a message goes into its slot, and comes
    out again, by the single stores, loads, swaps and slab calls of `RingMachine`,
    and a process may crash between any two of them. What a repair releases is
    here too. `RingCrash` alone keeps of all this only which message a slot was
    given (`msgs`, a record that no step here reads). */
module RingPayload {
  import opened Prelude
  import M = RingMachine
  import C = RingCrash

  /** `ring`: positions, words, owner records, processes and the log. `mem`: the
      payloads, the overflow pages, the slab's free pool, and per process its next
      payload step; nothing else of it is used. `outs`: what deliveries returned. */
  datatype State = State(ring: C.State, mem: M.State, outs: seq<M.Out>)

  /** What a step takes from outside; `page` is the slab's answer, 0 for none. */
  datatype Choice = Choice(op: C.Op, dead: bool, page: nat, crash: bool)

  /** Reading ticket t out of its slot, from the name length to the last byte. */
  predicate Reads(b: M.PC, t: nat) {
    && (b.DChanLen? || b.DChan? || b.DMsgLen? || b.DOverflow? || b.DPage? || b.DPageCas? || b.DPageFree? || b.DInline?)
    && b.t == t
  }

  /** Payload step b belongs to ring step pc. */
  predicate Fits(pc: C.PC, b: M.PC) {
    match pc
    case PAlloc(job, t) => b == M.EAlloc(job, t)
    case PWrite(job, t) => b.EWrite? && b.job == job && b.t == t
    case PPublish(job, t) => b == M.EPublish(job, t)
    case CRead(t) => Reads(b, t)
    case CRecycle(t, _) => b.DRecycle? && b.t == t
    case CReturn(t, _) => b.DRecycle? && b.t == t
    case _ => b == M.Idle
  }

  /** The payload step a process starts with at ring step pc. */
  function Entry(pc: C.PC): M.PC {
    match pc
    case PAlloc(job, t) => M.EAlloc(job, t)
    case CRead(t) => M.DChanLen(t)
    case _ => M.Idle
  }

  ghost predicate Wf(f: State) {
    && C.Wf(f.ring) && M.Wf(f.mem) && f.mem.cap == f.ring.cap
    && (forall q | q in f.ring.procs :: FitsAt(f, q))
  }

  ghost predicate FitsAt(f: State, q: nat)
    requires q in f.ring.procs
  {
    q in f.mem.procs && Fits(f.ring.procs[q], f.mem.procs[q])
  }

  function MemChoice(c: Choice): M.Choice { M.Choice(M.Dequeue, false, c.page, 0, 0, false) }

  /** The ring sees of the slab's answer only whether there is room for the message. */
  function RingChoice(f: State, pid: nat, c: Choice): C.Choice
    requires pid in f.ring.procs
  {
    var pc := f.ring.procs[pid];
    C.Choice(c.op, c.dead, pc.PAlloc? ==> |pc.job.data| <= f.mem.inlineSize || c.page != 0, c.crash)
  }

  ghost predicate Enabled(f: State, pid: nat, c: Choice) {
    && Wf(f) && pid in f.ring.procs && C.Enabled(f.ring, pid, RingChoice(f, pid, c))
    && M.Enabled(f.mem, pid, MemChoice(c))
  }

  ghost function RingStep(f: State, pid: nat, c: Choice): C.State
    requires Enabled(f, pid, c)
  {
    C.Step(f.ring, pid, RingChoice(f, pid, c))
  }

  ghost function Step(f: State, pid: nat, c: Choice): State
    requires Enabled(f, pid, c)
  {
    var pc := f.ring.procs[pid];
    if c.crash then f.(ring := RingStep(f, pid, c), mem := M.Goto(f.mem, pid, M.Idle))
    else if pc.PAlloc? then AllocStep(f, pid, c)
    else if pc.PWrite? then WriteStep(f, pid, c)
    else if pc.CRead? then ReadStep(f, pid, c)
    else if pc.CRecycle? then f.(ring := RingStep(f, pid, c))
    else if pc.CReturn? then ReturnStep(f, pid, c)
    else if Repairs(f.ring, pc) then RepairStep(f, pid, c)
    else OtherStep(f, pid, c)
  }

  /** Page allocation, which decides between writing and tombstoning. */
  ghost function AllocStep(f: State, pid: nat, c: Choice): State
    requires Enabled(f, pid, c) && f.ring.procs[pid].PAlloc?
  {
    var mem := M.EnqueueFillStep(f.mem, pid, f.mem.procs[pid], MemChoice(c));
    f.(ring := RingStep(f, pid, c), mem := if mem.procs[pid].EWrite? then mem else M.Goto(mem, pid, M.Idle))
  }

  /** One of the six payload stores; the last one takes the producer on. */
  ghost function WriteStep(f: State, pid: nat, c: Choice): State
    requires Enabled(f, pid, c) && f.ring.procs[pid].PWrite?
  {
    var mem := M.EnqueueFillStep(f.mem, pid, f.mem.procs[pid], MemChoice(c));
    f.(ring := if mem.procs[pid].EPublish? then RingStep(f, pid, c) else f.ring, mem := mem)
  }

  /** One load, swap or slab call of a reader; the last one takes it on. */
  ghost function ReadStep(f: State, pid: nat, c: Choice): State
    requires Enabled(f, pid, c) && f.ring.procs[pid].CRead?
  {
    assert FitsAt(f, pid);
    var mem := M.DequeueReadStep(f.mem, pid, f.mem.procs[pid], MemChoice(c));
    f.(ring := if mem.procs[pid].DRecycle? then RingStep(f, pid, c) else f.ring, mem := mem)
  }

  /** The delivery returns what was read. */
  ghost function ReturnStep(f: State, pid: nat, c: Choice): State
    requires Enabled(f, pid, c) && f.ring.procs[pid].CReturn?
  {
    assert FitsAt(f, pid);
    var b := f.mem.procs[pid];
    f.(ring := RingStep(f, pid, c), mem := M.Goto(f.mem, pid, M.Idle),
       outs := f.outs + [M.Out(b.t, pid, b.chan, b.data)])
  }

  /** Ring step pc is a repair that finds its slot still to be repaired. */
  predicate Repairs(s: C.State, pc: C.PC)
    requires C.Wf(s)
  {
    || (pc.Repair? && s.owners[SlotOf(pc.p, s.cap)] == pc.corpse)
    || (pc.KSlot? && pc.i < s.cap && C.Stuck(s, pc.i, pc.m) && s.marks[pc.i])
  }

  function RepairedSlot(s: C.State, pc: C.PC): (i: nat)
    requires C.Wf(s) && Repairs(s, pc)
    ensures i < s.cap
  {
    if pc.Repair? then SlotOf(pc.p, s.cap) else pc.i
  }

  /** The overflow word of slot i is taken out. */
  function Detached(mem: M.State, i: nat): M.State
    requires i < |mem.pays|
  {
    mem.(pays := mem.pays[i := mem.pays[i].(overflow := 0)])
  }

  /** The page attached to slot i, if any, is detached and freed. */
  function Released(mem: M.State, i: nat): M.State
    requires i < |mem.pays|
  {
    var y := mem.pays[i];
    if y.overflow == 0 then mem else M.FreePage(Detached(mem, i), y.overflow, y.msgLen)
  }

  ghost function RepairStep(f: State, pid: nat, c: Choice): State
    requires Enabled(f, pid, c) && Repairs(f.ring, f.ring.procs[pid])
  {
    f.(ring := RingStep(f, pid, c), mem := Released(f.mem, RepairedSlot(f.ring, f.ring.procs[pid])))
  }

  /** Every step that touches no payload. */
  ghost function OtherStep(f: State, pid: nat, c: Choice): State
    requires Enabled(f, pid, c)
  {
    var s := RingStep(f, pid, c);
    f.(ring := s, mem := M.Goto(f.mem, pid, if pid in s.procs then Entry(s.procs[pid]) else M.Idle))
  }

  ghost predicate Next(f: State, f': State) {
    exists pid: nat, c: Choice :: Enabled(f, pid, c) && f' == Step(f, pid, c)
  }

  ghost predicate Init(f: State) {
    && C.Init(f.ring) && M.Wf(f.mem) && f.mem.cap == f.ring.cap && f.mem.inlineSize <= 512
    && (forall i | 0 <= i < f.mem.cap :: f.mem.pays[i].overflow == 0)
    && 0 !in f.mem.free
    && f.mem.procs.Keys == f.ring.procs.Keys
    && (forall q | q in f.mem.procs :: f.mem.procs[q] == M.Idle)
    && f.outs == []
  }

  ghost predicate Run(r: seq<State>) {
    0 < |r| && Init(r[0]) && forall i: nat | i + 1 < |r| :: NextAt(r, i)
  }

  ghost predicate NextAt(r: seq<State>, i: nat)
    requires i + 1 < |r|
  {
    Next(r[i], r[i + 1])
  }
}
