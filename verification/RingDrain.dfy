/** Operations run alone, byte by byte: whatever a dequeue or a compact pass does on
    the ring of `RingCrash`, it also does by the single loads, swaps and slab calls of
    `RingPayload`, and what a drain hands out is then the bytes that were sent. */
module RingDrain {
  import opened Prelude
  import M = RingMachine
  import C = RingCrash
  import S = RingSurvive
  import R = RingRecover
  import W = RingWedge
  import opened RingIntact
  import opened RingPayload

  // ---- One operation run to completion ----

  /** Nothing special happens: no crash, and the oracle tells the truth. */
  ghost function Quiet(f: State, pid: nat, op: C.Op): Choice { Choice(op, R.Confirms(f.ring, pid), 0, false) }

  /** Within k steps of its own, process `pid` returns to idle, for the first time in f'. */
  ghost predicate FinishesIn(f: State, pid: nat, op: C.Op, f': State, k: nat)
    decreases k, 0
  {
    0 < k && Going(f, pid, op, f', k - 1)
  }

  ghost predicate Going(f: State, pid: nat, op: C.Op, f': State, k: nat)
    decreases k, 1
  {
    && Enabled(f, pid, Quiet(f, pid, op))
    && var n := Step(f, pid, Quiet(f, pid, op));
       if R.IdleLive(n.ring, pid) then f' == n else FinishesIn(n, pid, op, f', k)
  }

  /** Process `pid` runs operation `op` with nobody else moving, and it ends in f'. */
  ghost predicate Completes(f: State, pid: nat, op: C.Op, f': State) {
    exists k: nat :: FinishesIn(f, pid, op, f', k)
  }

  lemma Ends(f: State, pid: nat, op: C.Op, f': State)
    requires Enabled(f, pid, Quiet(f, pid, op)) && f' == Step(f, pid, Quiet(f, pid, op)) && R.IdleLive(f'.ring, pid)
    ensures Completes(f, pid, op, f')
  {
    assert Going(f, pid, op, f', 0);
    assert FinishesIn(f, pid, op, f', 1);
  }

  lemma Continues(f: State, n: State, pid: nat, op: C.Op, f': State)
    requires Enabled(f, pid, Quiet(f, pid, op)) && n == Step(f, pid, Quiet(f, pid, op))
    requires !R.IdleLive(n.ring, pid) && Completes(n, pid, op, f')
    ensures Completes(f, pid, op, f')
  {
    var k: nat :| FinishesIn(n, pid, op, f', k);
    assert Going(f, pid, op, f', k);
    assert FinishesIn(f, pid, op, f', k + 1);
  }

  // ---- Every step of the coarse ring, by steps of the fine one ----

  /** The process is not sending. */
  predicate Receiving(pc: C.PC) {
    || pc.Idle? || C.IsConsumer(pc) || C.IsCompact(pc) || (pc.Repair? && pc.ret.BackToDequeue?)
  }

  /** How many steps a reader has left. */
  function Rank(b: M.PC): nat {
    match b
    case DChanLen(_) => 8
    case DChan(_, _) => 7
    case DMsgLen(_, _) => 6
    case DOverflow(_, _, _) => 5
    case DPage(_, _, _, _) => 4
    case DPageCas(_, _, _, _, _) => 3
    case DPageFree(_, _, _, _, _) => 2
    case DInline(_, _, _) => 1
    case _ => 0
  }

  lemma QuietEnabled(f: State, pid: nat, op: C.Op)
    requires Wf(f) && C.Enabled(f.ring, pid, R.Quiet(f.ring, pid, op)) && pid != M.RECOVERING && Receiving(f.ring.procs[pid])
    ensures Enabled(f, pid, Quiet(f, pid, op)) && RingChoice(f, pid, Quiet(f, pid, op)) == R.Quiet(f.ring, pid, op)
  {
    assert FitsAt(f, pid);
  }

  /** Every load, swap and slab call brings a reader closer to its end. */
  lemma ReadRank(mem: M.State, pid: nat, b: M.PC, t: nat, c: M.Choice)
    requires M.Wf(mem) && Reads(b, t)
    ensures var mem' := M.DequeueReadStep(mem, pid, b, c); pid in mem'.procs && Rank(mem'.procs[pid]) < Rank(b)
  {
    if b.DPageCas? || b.DPageFree? {
      PageRank(mem, pid, b, c);
    } else if b.DChanLen? || b.DChan? || b.DMsgLen? {
      NameLoad(mem, pid, b, c);
    } else {
      BodyLoad(mem, pid, b, c);
    }
  }

  lemma PageRank(mem: M.State, pid: nat, b: M.PC, c: M.Choice)
    requires M.Wf(mem) && (b.DPageCas? || b.DPageFree?)
    ensures var mem' := M.DequeueReadStep(mem, pid, b, c); pid in mem'.procs && Rank(mem'.procs[pid]) < Rank(b)
  {
  }

  lemma NameLoad(mem: M.State, pid: nat, b: M.PC, c: M.Choice)
    requires M.Wf(mem) && (b.DChanLen? || b.DChan? || b.DMsgLen?)
    ensures M.DequeueReadStep(mem, pid, b, c) == M.Goto(mem, pid, Loaded(mem, b)) && Rank(Loaded(mem, b)) < Rank(b)
  {
  }

  lemma BodyLoad(mem: M.State, pid: nat, b: M.PC, c: M.Choice)
    requires M.Wf(mem) && (b.DOverflow? || b.DPage? || b.DInline?)
    ensures M.DequeueReadStep(mem, pid, b, c) == M.Goto(mem, pid, Loaded(mem, b)) && Rank(Loaded(mem, b)) < Rank(b)
  {
  }

  /** Where a load takes a reader. */
  function Loaded(mem: M.State, b: M.PC): M.PC
    requires M.Wf(mem) && (b.DChanLen? || b.DChan? || b.DMsgLen? || b.DOverflow? || b.DPage? || b.DInline?)
  {
    match b
    case DChanLen(t) => M.DChan(t, M.PayAt(mem, t).chanLen)
    case DChan(t, n) => M.DMsgLen(t, ReadBytes(M.PayAt(mem, t).chanBuf, n))
    case DMsgLen(t, ch) => M.DOverflow(t, ch, M.PayAt(mem, t).msgLen)
    case DOverflow(t, ch, n) =>
      var o := M.PayAt(mem, t).overflow;
      if o != 0 then M.DPage(t, ch, n, o) else M.DInline(t, ch, n)
    case DPage(t, ch, n, o) => M.DPageCas(t, ch, ReadBytes(M.PageBytes(mem, o), n), o, n)
    case DInline(t, ch, n) => M.DRecycle(t, ch, ReadBytes(M.PayAt(mem, t).inlineBuf, n))
  }

  lemma ReadQuietly(f: State, pid: nat, op: C.Op, n: State)
    requires Enabled(f, pid, Quiet(f, pid, op)) && f.ring.procs[pid].CRead? && n == ReadStep(f, pid, Quiet(f, pid, op))
    ensures n.ring == RingStep(f, pid, Quiet(f, pid, op)) || n.ring == f.ring
    ensures pid in f.mem.procs && pid in n.mem.procs && Rank(n.mem.procs[pid]) < Rank(f.mem.procs[pid])
  {
    assert FitsAt(f, pid);
    ReadRank(f.mem, pid, f.mem.procs[pid], f.ring.procs[pid].t, MemChoice(Quiet(f, pid, op)));
  }

  /** Away from the payload every step is the ring's. */
  lemma OtherQuietly(f: State, pid: nat, op: C.Op)
    requires Enabled(f, pid, Quiet(f, pid, op)) && Receiving(f.ring.procs[pid]) && !f.ring.procs[pid].CRead?
    ensures Step(f, pid, Quiet(f, pid, op)).ring == RingStep(f, pid, Quiet(f, pid, op))
  {
  }

  /** One step either is the ring's step or brings a reader closer to it. */
  lemma QuietStep(f: State, pid: nat, op: C.Op, n: State)
    requires Enabled(f, pid, Quiet(f, pid, op)) && RingChoice(f, pid, Quiet(f, pid, op)) == R.Quiet(f.ring, pid, op)
    requires Receiving(f.ring.procs[pid]) && n == Step(f, pid, Quiet(f, pid, op))
    ensures n.ring == C.Step(f.ring, pid, R.Quiet(f.ring, pid, op)) || (n.ring == f.ring && f.ring.procs[pid].CRead?)
    ensures n.ring != C.Step(f.ring, pid, R.Quiet(f.ring, pid, op)) ==>
              pid in f.mem.procs && pid in n.mem.procs && Rank(n.mem.procs[pid]) < Rank(f.mem.procs[pid])
  {
    if f.ring.procs[pid].CRead? {
      ReadQuietly(f, pid, op, n);
    } else {
      OtherQuietly(f, pid, op);
    }
  }

  lemma RingKeepsShape(s: C.State, pid: nat, c: C.Choice)
    requires C.Enabled(s, pid, c)
    ensures var s' := C.Step(s, pid, c);
            C.Wf(s') && s'.cap == s.cap && s'.procs.Keys == s.procs.Keys
            && forall q | q in s.procs && q != pid :: s'.procs[q] == s.procs[q]
  {
  }

  lemma ReadKeepsShape(mem: M.State, pid: nat, b: M.PC, t: nat, c: M.Choice)
    requires M.Wf(mem) && Reads(b, t)
    ensures var mem' := M.DequeueReadStep(mem, pid, b, c);
            M.Wf(mem') && mem'.cap == mem.cap && pid in mem'.procs && mem'.procs == mem.procs[pid := mem'.procs[pid]]
            && (Reads(mem'.procs[pid], t) || (mem'.procs[pid].DRecycle? && mem'.procs[pid].t == t))
  {
  }

  /** Every process's payload step still belongs to its ring step. */
  lemma ShapeKept(f: State, n: State, pid: nat)
    requires Wf(f) && C.Wf(n.ring) && M.Wf(n.mem) && n.mem.cap == n.ring.cap
    requires n.ring.procs.Keys == f.ring.procs.Keys && pid in n.mem.procs && n.mem.procs == f.mem.procs[pid := n.mem.procs[pid]]
    requires forall q | q in f.ring.procs && q != pid :: n.ring.procs[q] == f.ring.procs[q]
    requires pid in n.ring.procs ==> Fits(n.ring.procs[pid], n.mem.procs[pid])
    ensures Wf(n)
  {
    forall q | q in n.ring.procs ensures FitsAt(n, q) {
      assert FitsAt(f, q);
    }
  }

  lemma ReadKeepsWf(f: State, pid: nat, op: C.Op, n: State)
    requires Wf(f) && Enabled(f, pid, Quiet(f, pid, op)) && f.ring.procs[pid].CRead? && n == ReadStep(f, pid, Quiet(f, pid, op))
    ensures Wf(n)
  {
    assert FitsAt(f, pid);
    RingKeepsShape(f.ring, pid, RingChoice(f, pid, Quiet(f, pid, op)));
    ReadKeepsShape(f.mem, pid, f.mem.procs[pid], f.ring.procs[pid].t, MemChoice(Quiet(f, pid, op)));
    if n.mem.procs[pid].DRecycle? {
      ReadEnds(f.ring, pid, RingChoice(f, pid, Quiet(f, pid, op)));
    }
    ShapeKept(f, n, pid);
  }

  lemma OtherKeepsWf(f: State, pid: nat, op: C.Op, n: State)
    requires Wf(f) && Enabled(f, pid, Quiet(f, pid, op)) && Receiving(f.ring.procs[pid]) && !f.ring.procs[pid].CRead?
    requires n == Step(f, pid, Quiet(f, pid, op)) && !op.Enqueue?
    ensures Wf(n)
  {
    assert FitsAt(f, pid);
    RingKeepsShape(f.ring, pid, RingChoice(f, pid, Quiet(f, pid, op)));
    OtherQuietly(f, pid, op);
    OtherPayload(f, pid, op, n);
    ShapeKept(f, n, pid);
  }

  /** Away from the payload, only pages that a repair releases change. */
  lemma OtherPayload(f: State, pid: nat, op: C.Op, n: State)
    requires Wf(f) && Enabled(f, pid, Quiet(f, pid, op)) && Receiving(f.ring.procs[pid]) && !f.ring.procs[pid].CRead?
    requires n == Step(f, pid, Quiet(f, pid, op)) && !op.Enqueue?
    ensures M.Wf(n.mem) && n.mem.cap == f.mem.cap && pid in n.mem.procs
    ensures n.mem.procs == f.mem.procs[pid := n.mem.procs[pid]]
    ensures pid in n.ring.procs ==> Fits(n.ring.procs[pid], n.mem.procs[pid])
  {
    var pc := f.ring.procs[pid];
    if pc.CRecycle? {
      RecyclePayload(f, pid, op, n);
    } else if pc.CReturn? {
      ReturnPayload(f, pid, op, n);
    } else if Repairs(f.ring, pc) {
      RepairPayload(f, pid, op, n);
    } else {
      RestPayload(f, pid, op, n);
    }
  }

  lemma RecyclePayload(f: State, pid: nat, op: C.Op, n: State)
    requires Enabled(f, pid, Quiet(f, pid, op)) && f.ring.procs[pid].CRecycle?
    requires n == f.(ring := RingStep(f, pid, Quiet(f, pid, op)))
    ensures n.mem == f.mem && pid in f.mem.procs && (pid in n.ring.procs ==> Fits(n.ring.procs[pid], f.mem.procs[pid]))
  {
    assert FitsAt(f, pid);
  }

  lemma ReturnPayload(f: State, pid: nat, op: C.Op, n: State)
    requires Enabled(f, pid, Quiet(f, pid, op)) && f.ring.procs[pid].CReturn? && n == ReturnStep(f, pid, Quiet(f, pid, op))
    ensures n.mem == M.Goto(f.mem, pid, M.Idle) && (pid in n.ring.procs ==> Fits(n.ring.procs[pid], M.Idle))
  {
  }

  lemma RepairPayload(f: State, pid: nat, op: C.Op, n: State)
    requires Enabled(f, pid, Quiet(f, pid, op)) && Receiving(f.ring.procs[pid]) && Repairs(f.ring, f.ring.procs[pid])
    requires n == RepairStep(f, pid, Quiet(f, pid, op))
    ensures M.Wf(n.mem) && n.mem.cap == f.mem.cap && n.mem.procs == f.mem.procs && pid in f.mem.procs
    ensures pid in n.ring.procs ==> Fits(n.ring.procs[pid], n.mem.procs[pid])
  {
    assert FitsAt(f, pid);
  }

  lemma RestPayload(f: State, pid: nat, op: C.Op, n: State)
    requires Enabled(f, pid, Quiet(f, pid, op)) && Receiving(f.ring.procs[pid]) && !Repairs(f.ring, f.ring.procs[pid])
    requires !f.ring.procs[pid].CRead? && !f.ring.procs[pid].CRecycle? && !f.ring.procs[pid].CReturn? && !op.Enqueue?
    requires n == OtherStep(f, pid, Quiet(f, pid, op))
    ensures n.mem == M.Goto(f.mem, pid, n.mem.procs[pid])
    ensures pid in n.ring.procs ==> Fits(n.ring.procs[pid], n.mem.procs[pid])
  {
  }

  /** A dequeue or a compact pass never starts to send. */
  lemma StaysReceiving(s: C.State, pid: nat, op: C.Op)
    requires C.Enabled(s, pid, R.Quiet(s, pid, op)) && Receiving(s.procs[pid]) && !op.Enqueue?
    ensures var s' := C.Step(s, pid, R.Quiet(s, pid, op)); pid in s'.procs && Receiving(s'.procs[pid])
  {
  }

  /** One step of the fine machine, where the ring can step. */
  lemma OneStep(f: State, pid: nat, op: C.Op, n: State)
    requires Wf(f) && C.Enabled(f.ring, pid, R.Quiet(f.ring, pid, op)) && Receiving(f.ring.procs[pid]) && !op.Enqueue?
    requires pid != M.RECOVERING && (Enabled(f, pid, Quiet(f, pid, op)) ==> n == Step(f, pid, Quiet(f, pid, op)))
    ensures Enabled(f, pid, Quiet(f, pid, op)) && Wf(n)
    ensures n.ring == C.Step(f.ring, pid, R.Quiet(f.ring, pid, op)) || (n.ring == f.ring && RankAt(n, pid) < RankAt(f, pid))
  {
    QuietEnabled(f, pid, op);
    QuietStep(f, pid, op, n);
    if f.ring.procs[pid].CRead? {
      ReadKeepsWf(f, pid, op, n);
    } else {
      OtherKeepsWf(f, pid, op, n);
    }
  }

  function RankAt(f: State, pid: nat): nat { if pid in f.mem.procs then Rank(f.mem.procs[pid]) else 0 }

  lemma {:induction false} LiftFinishes(f: State, pid: nat, op: C.Op, s': C.State, k: nat) returns (f': State)
    requires Wf(f) && pid in f.ring.procs && Receiving(f.ring.procs[pid]) && !op.Enqueue? && pid != M.RECOVERING
    requires R.FinishesIn(f.ring, pid, op, s', k)
    ensures Completes(f, pid, op, f') && f'.ring == s' && Wf(f')
    decreases k, 1 + RankAt(f, pid)
  {
    R.MayStep(f.ring, pid, op, s', k);
    QuietEnabled(f, pid, op);
    var n := Step(f, pid, Quiet(f, pid, op));
    OneStep(f, pid, op, n);
    if n.ring == C.Step(f.ring, pid, R.Quiet(f.ring, pid, op)) {
      f' := LiftNext(f, n, pid, op, s', k);
    } else {
      f' := LiftFinishes(n, pid, op, s', k);
      Continues(f, n, pid, op, f');
    }
  }

  /** After a step of the ring, the rest of the operation. */
  lemma {:induction false} LiftNext(f: State, n: State, pid: nat, op: C.Op, s': C.State, k: nat) returns (f': State)
    requires Wf(n) && Enabled(f, pid, Quiet(f, pid, op)) && n == Step(f, pid, Quiet(f, pid, op))
    requires !op.Enqueue? && pid != M.RECOVERING && Receiving(f.ring.procs[pid])
    requires C.Enabled(f.ring, pid, R.Quiet(f.ring, pid, op)) && n.ring == C.Step(f.ring, pid, R.Quiet(f.ring, pid, op))
    requires R.FinishesIn(f.ring, pid, op, s', k)
    ensures Completes(f, pid, op, f') && f'.ring == s' && Wf(f')
    decreases k, 0
  {
    R.FirstStep(f.ring, pid, op, s', k, n.ring);
    StaysReceiving(f.ring, pid, op);
    if R.IdleLive(n.ring, pid) {
      f' := n;
      Ends(f, pid, op, f');
    } else {
      f' := LiftFinishes(n, pid, op, s', k - 1);
      Continues(f, n, pid, op, f');
    }
  }

  /** Process `pid` has nothing in hand. */
  ghost predicate Resting(f: State, pid: nat) { Wf(f) && R.IdleLive(f.ring, pid) && pid != M.RECOVERING }

  /** What a dequeue or a compact pass run alone does to the ring, it does with the
      payloads in it, too. */
  lemma LiftCompletes(f: State, pid: nat, op: C.Op, s': C.State) returns (f': State)
    requires Resting(f, pid) && !op.Enqueue? && R.Completes(f.ring, pid, op, s')
    ensures Completes(f, pid, op, f') && f'.ring == s' && Resting(f', pid)
  {
    var k: nat :| R.FinishesIn(f.ring, pid, op, s', k);
    f' := LiftFinishes(f, pid, op, s', k);
    FinishesIdle(f.ring, pid, op, s', k);
  }

  lemma {:induction false} FinishesIdle(s: C.State, pid: nat, op: C.Op, s': C.State, k: nat)
    requires R.FinishesIn(s, pid, op, s', k)
    ensures R.IdleLive(s', pid)
    decreases k
  {
    R.MayStep(s, pid, op, s', k);
    var n := C.Step(s, pid, R.Quiet(s, pid, op));
    R.FirstStep(s, pid, op, s', k, n);
    if !R.IdleLive(n, pid) {
      FinishesIdle(n, pid, op, s', k - 1);
    }
  }

  lemma FineStep(f: State, pid: nat, op: C.Op, f': State, k: nat)
    requires FinishesIn(f, pid, op, f', k)
    ensures Enabled(f, pid, Quiet(f, pid, op))
    ensures 0 < k && var n := Step(f, pid, Quiet(f, pid, op));
                     if R.IdleLive(n.ring, pid) then f' == n else FinishesIn(n, pid, op, f', k - 1)
  {
    assert Going(f, pid, op, f', k - 1);
  }

  lemma {:induction false} FinishesKeepsInv(f: State, pid: nat, op: C.Op, f': State, k: nat)
    requires Inv(f) && FinishesIn(f, pid, op, f', k)
    ensures Inv(f')
    decreases k
  {
    FineStep(f, pid, op, f', k);
    StepKeepsInv(f, pid, Quiet(f, pid, op));
    var n := Step(f, pid, Quiet(f, pid, op));
    if !R.IdleLive(n.ring, pid) {
      FinishesKeepsInv(n, pid, op, f', k - 1);
    }
  }

  lemma CompletesKeepsInv(f: State, pid: nat, op: C.Op, f': State)
    requires Inv(f) && Completes(f, pid, op, f')
    ensures Inv(f')
  {
    var k: nat :| FinishesIn(f, pid, op, f', k);
    FinishesKeepsInv(f, pid, op, f', k);
  }

  // ---- Draining ----

  /** The states that operations run one after the other go through. */
  ghost predicate Trace(states: seq<State>, pid: nat, op: C.Op) {
    0 < |states| && forall i: nat | i + 1 < |states| :: TraceAt(states, pid, op, i)
  }

  ghost predicate TraceAt(states: seq<State>, pid: nat, op: C.Op, i: nat)
    requires i + 1 < |states|
  {
    Completes(states[i], pid, op, states[i + 1])
  }

  /** k operations of one process, one after the other. */
  ghost predicate Repeats(f: State, pid: nat, op: C.Op, k: nat, f': State) {
    exists states :: RepeatsBy(states, f, pid, op, k, f')
  }

  ghost predicate RepeatsBy(states: seq<State>, f: State, pid: nat, op: C.Op, k: nat, f': State) {
    Trace(states, pid, op) && |states| == k + 1 && states[0] == f && states[k] == f'
  }

  lemma TraceGrows(f: State, rest: seq<State>, pid: nat, op: C.Op)
    requires Trace(rest, pid, op) && Completes(f, pid, op, rest[0])
    ensures Trace([f] + rest, pid, op)
  {
    var states := [f] + rest;
    forall i: nat | i + 1 < |states| ensures TraceAt(states, pid, op, i) {
      assert i > 0 ==> TraceAt(rest, pid, op, i - 1);
    }
  }

  lemma {:induction false} LiftTrace(f: State, pid: nat, op: C.Op, ring: seq<C.State>) returns (states: seq<State>)
    requires R.Trace(ring, pid, op) && f.ring == ring[0] && Resting(f, pid) && !op.Enqueue?
    ensures Trace(states, pid, op) && |states| == |ring| && states[0] == f
    ensures states[|ring| - 1].ring == ring[|ring| - 1] && Resting(states[|ring| - 1], pid)
    decreases |ring|
  {
    if |ring| == 1 {
      states := [f];
    } else {
      var f1 := LiftFirst(f, pid, op, ring);
      RestOfTrace(ring, pid, op);
      var rest := LiftTrace(f1, pid, op, ring[1..]);
      TraceGrows(f, rest, pid, op);
      states := [f] + rest;
    }
  }

  lemma LiftFirst(f: State, pid: nat, op: C.Op, ring: seq<C.State>) returns (f1: State)
    requires R.Trace(ring, pid, op) && f.ring == ring[0] && Resting(f, pid) && !op.Enqueue? && 1 < |ring|
    ensures Completes(f, pid, op, f1) && f1.ring == ring[1] && Resting(f1, pid)
  {
    assert R.TraceAt(ring, pid, op, 0);
    f1 := LiftCompletes(f, pid, op, ring[1]);
  }

  lemma RestOfTrace(ring: seq<C.State>, pid: nat, op: C.Op)
    requires R.Trace(ring, pid, op) && 1 < |ring|
    ensures R.Trace(ring[1..], pid, op)
  {
    forall i: nat | i + 1 < |ring[1..]| ensures R.TraceAt(ring[1..], pid, op, i) {
      assert R.TraceAt(ring, pid, op, i + 1);
    }
  }

  /** Operations repeated on the ring are repeated with the payloads in it. */
  lemma LiftRepeats(f: State, pid: nat, op: C.Op, k: nat, s': C.State) returns (f': State)
    requires Resting(f, pid) && !op.Enqueue? && R.Repeats(f.ring, pid, op, k, s')
    ensures Repeats(f, pid, op, k, f') && f'.ring == s' && Resting(f', pid)
  {
    var ring := R.TraceOf(f.ring, pid, op, k, s');
    var states := LiftTrace(f, pid, op, ring);
    f' := states[k];
    assert RepeatsBy(states, f, pid, op, k, f');
  }

  lemma {:induction false} TraceKeepsInv(states: seq<State>, pid: nat, op: C.Op, i: nat)
    requires Trace(states, pid, op) && Inv(states[0]) && i < |states|
    ensures Inv(states[i])
    decreases i
  {
    if i > 0 {
      TraceKeepsInv(states, pid, op, i - 1);
      assert TraceAt(states, pid, op, i - 1);
      CompletesKeepsInv(states[i - 1], pid, op, states[i]);
    }
  }

  lemma RepeatsKeepInv(f: State, pid: nat, op: C.Op, k: nat, f': State)
    requires Inv(f) && Repeats(f, pid, op, k, f')
    ensures Inv(f')
  {
    var states :| RepeatsBy(states, f, pid, op, k, f');
    TraceKeepsInv(states, pid, op, k);
  }

  /** The deliveries of `tickets` by consumer q: for each the name, as the field keeps
      it, and the bytes that were sent. */
  function Deliveries(tickets: seq<nat>, q: nat, jobs: seq<M.Job>): (r: seq<M.Out>)
    requires forall i | 0 <= i < |tickets| :: tickets[i] < |jobs|
  {
    seq(|tickets|, i requires 0 <= i < |tickets| => M.Out(tickets[i], q, Clip(jobs[tickets[i]].chan), jobs[tickets[i]].data))
  }

  /** The waiting messages below hi come out in ticket order, their bytes as sent, and
      the tickets of dead producers passed on the way, and no others, are lost. */
  ghost predicate DrainsBytes(f: State, q: nat, hi: nat, f': State) {
    var l := R.WaitingIn(f.ring.h, f.ring.deq, hi);
    && Repeats(f, q, C.Dequeue, |l|, f')
    && (forall i | 0 <= i < |l| :: l[i] < |f.ring.h.jobs|)
    && f'.outs == f.outs + Deliveries(l, q, f.ring.h.jobs)
    && f.ring.deq <= f'.ring.deq <= hi && R.Lost(f.ring, f'.ring.h.lost, f'.ring.deq)
  }

  /** A delivery's bytes are those of the message its log entry names. */
  lemma OutFromLog(f: State, j: nat)
    requires Inv(f) && j < |f.outs|
    ensures |f.outs| == |f.ring.h.outs|
    ensures var x := f.ring.h.outs[j]; f.outs[j] == M.Out(x.ticket, x.pid, Clip(x.job.chan), x.job.data)
  {
    assert OutAt(f.outs, f.ring.h, j);
    assert S.OutOk(f.ring.h, f.ring.h.outs[j]) by {
      assert S.V(f.ring).h == f.ring.h;
    }
  }

  /** What the log says was delivered fixes the bytes that were. */
  lemma OutsFromLog(f: State, f': State, l: seq<nat>, q: nat)
    requires Inv(f) && Inv(f') && forall i | 0 <= i < |l| :: l[i] < |f.ring.h.jobs|
    requires f'.ring.h.outs == f.ring.h.outs + R.Deliveries(l, q, f.ring.h.jobs)
    ensures f'.outs == f.outs + Deliveries(l, q, f.ring.h.jobs)
  {
    var more := Deliveries(l, q, f.ring.h.jobs);
    assert |f'.outs| == |f.outs| + |l|;
    forall j | 0 <= j < |f'.outs| ensures f'.outs[j] == (f.outs + more)[j] {
      OutFromLog(f', j);
      if j < |f.outs| {
        OutFromLog(f, j);
      }
    }
  }

  lemma DrainsInState(f: State, q: nat, hi: nat) returns (f': State)
    requires Inv(f) && Resting(f, q) && R.Clear(f.ring, hi)
    ensures DrainsBytes(f, q, hi, f')
  {
    var l := R.WaitingIn(f.ring.h, f.ring.deq, hi);
    var s' := R.DrainsAll(f.ring, q, hi);
    f' := LiftRepeats(f, q, C.Dequeue, |l|, s');
    RepeatsKeepInv(f, q, C.Dequeue, |l|, f');
    OutsFromLog(f, f', l, q);
  }

  /** From any reachable state, with crashes and repairs behind it: as many dequeues,
      run alone, as messages wait below a position up to which no live producer is at
      work deliver exactly those, in ticket order, each with the name and the bytes that
      its producer stored, past the slots of dead producers, which they repair. */
  lemma DrainsIntact(r: seq<State>, n: nat, q: nat, hi: nat) returns (f': State)
    requires Run(r) && n < |r| && R.IdleLive(r[n].ring, q) && q != M.RECOVERING && R.Clear(r[n].ring, hi)
    ensures DrainsBytes(r[n], q, hi, f')
  {
    RunInv(r, n);
    f' := DrainsInState(r[n], q, hi);
  }

  /** The wedge, bytes included: two compact passes unblock a wedged ring, releasing
      what they must and nothing else, and dequeues then deliver the bytes of every
      message behind the dead ticket, in ticket order, as sent. */
  lemma WedgeRepairedIntact(r: seq<State>, n: nat, t: nat, pid: nat, q: nat) returns (f1: State, f2: State)
    requires Run(r) && n < |r| && W.Residue(r[n].ring, t) && r[n].ring.enq == t + r[n].ring.cap
    requires C.NoLiveGap(r[n].ring) && R.IdleLive(r[n].ring, pid) && pid != M.RECOVERING
    requires R.IdleLive(r[n].ring, q) && q != M.RECOVERING
    ensures Completes(r[n], pid, C.Compact, f1) && Completes(f1, pid, C.Compact, f2)
    ensures W.Unwedged(r[n].ring, f2.ring, t)
    ensures forall hi: nat | W.ClearBut(r[n].ring, t, hi) :: exists f' :: DrainsBytes(f2, q, hi, f')
    ensures forall hi: nat | W.ClearBut(r[n].ring, t, hi) ::
              R.WaitingIn(f2.ring.h, f2.ring.deq, hi) == R.WaitingIn(r[n].ring.h, r[n].ring.deq, hi)
  {
    RunInv(r, n);
    var f := r[n];
    W.WedgeStuckOnly(f.ring, t);
    var s1, s2 := W.TwoPassesUnwedge(f.ring, pid, t);
    f1 := LiftCompletes(f, pid, C.Compact, s1);
    f2 := LiftCompletes(f1, pid, C.Compact, s2);
    CompletesKeepsInv(f, pid, C.Compact, f1);
    CompletesKeepsInv(f1, pid, C.Compact, f2);
    forall hi: nat | W.ClearBut(f.ring, t, hi)
      ensures (exists f' :: DrainsBytes(f2, q, hi, f')) && R.WaitingIn(s2.h, s2.deq, hi) == R.WaitingIn(f.ring.h, f.ring.deq, hi)
    {
      ClearAfter(f.ring, s2, t, hi);
      var f' := DrainsInState(f2, q, hi);
    }
  }

  lemma ClearAfter(s: C.State, s2: C.State, t: nat, hi: nat)
    requires W.Unwedged(s, s2, t) && W.ClearBut(s, t, hi)
    ensures R.Clear(s2, hi) && R.WaitingIn(s2.h, s2.deq, hi) == R.WaitingIn(s.h, s.deq, hi)
  {
    forall w: nat | s2.deq <= w < hi ensures R.Waits(s2.h, w) || R.Gone(s2, w) {
      assert w == t || R.Waits(s.h, w) || R.Gone(s, w);
    }
    R.SameWaiting(s.h, s2.h, s.deq, hi);
  }
}
