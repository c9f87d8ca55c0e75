/** What one process does, run alone, on a ring in which others have crashed at any
    step: the messages a dequeue delivers and the slots of the dead it repairs on its
    way, and when an enqueue is accepted, after a repair or without one. The oracle
    tells the truth about who is dead. */
module RingRecover {
  import opened Prelude
  import M = RingMachine
  import opened RingCrash
  import opened RingSurvive

  // ---- One operation run to completion by one process ----

  /** The oracle is asked of the owner of the slot that `pid` looks at. */
  ghost predicate Confirms(s: State, pid: nat) {
    Wf(s) && pid in s.procs && (s.procs[pid].PSuspect? || s.procs[pid].CSuspect?) && OwnerAt(s, s.procs[pid].p) in s.dead
  }

  /** Nothing special happens: no crash, the oracle tells the truth, the slab has room. */
  ghost function Quiet(s: State, pid: nat, op: Op): Choice { Choice(op, Confirms(s, pid), true, false) }

  ghost predicate IdleLive(s: State, pid: nat) {
    pid in s.procs && s.procs[pid] == Idle && pid != 0
  }

  ghost predicate Hop(s: State, pid: nat, op: Op, s': State) {
    Enabled(s, pid, Quiet(s, pid, op)) && s' == Step(s, pid, Quiet(s, pid, op))
  }

  /** Within k steps of its own, process `pid` returns to idle, for the first time in s'. */
  ghost predicate FinishesIn(s: State, pid: nat, op: Op, s': State, k: nat)
    decreases k, 0
  {
    0 < k && Going(s, pid, op, s', k - 1)
  }

  ghost predicate Going(s: State, pid: nat, op: Op, s': State, k: nat)
    decreases k, 1
  {
    && Enabled(s, pid, Quiet(s, pid, op))
    && var n := Step(s, pid, Quiet(s, pid, op));
       if IdleLive(n, pid) then s' == n else FinishesIn(n, pid, op, s', k)
  }

  /** Process `pid` runs operation `op` (or what is left of it) with nobody else
      moving, and the operation ends in s'. */
  ghost predicate Completes(s: State, pid: nat, op: Op, s': State) {
    exists k: nat :: FinishesIn(s, pid, op, s', k)
  }

  lemma {:induction false} FinishesUnique(s: State, pid: nat, op: Op, a: State, j: nat, b: State, k: nat)
    requires FinishesIn(s, pid, op, a, j) && FinishesIn(s, pid, op, b, k)
    ensures a == b
    decreases k
  {
    assert Going(s, pid, op, a, j - 1) && Going(s, pid, op, b, k - 1);
    var n := Step(s, pid, Quiet(s, pid, op));
    if !IdleLive(n, pid) {
      FinishesUnique(n, pid, op, a, j - 1, b, k - 1);
    }
  }

  /** An operation run alone has one outcome. */
  lemma CompletesUnique(s: State, pid: nat, op: Op, a: State, b: State)
    requires Completes(s, pid, op, a) && Completes(s, pid, op, b)
    ensures a == b
  {
    var j: nat :| FinishesIn(s, pid, op, a, j);
    var k: nat :| FinishesIn(s, pid, op, b, k);
    FinishesUnique(s, pid, op, a, j, b, k);
  }

  /** Process `pid`, run alone, ends operation `op` in s' and nowhere else. */
  ghost predicate EndsIn(s: State, pid: nat, op: Op, s': State) {
    Completes(s, pid, op, s') && forall x | Completes(s, pid, op, x) :: x == s'
  }

  lemma OnlyEnd(s: State, pid: nat, op: Op, s': State)
    requires Completes(s, pid, op, s')
    ensures EndsIn(s, pid, op, s')
  {
    forall x | Completes(s, pid, op, x) ensures x == s' {
      CompletesUnique(s, pid, op, x, s');
    }
  }

  /** What the first step of an operation run alone comes to. */
  lemma FirstStep(s: State, pid: nat, op: Op, s': State, k: nat, n: State)
    requires FinishesIn(s, pid, op, s', k) && Enabled(s, pid, Quiet(s, pid, op)) && n == Step(s, pid, Quiet(s, pid, op))
    ensures 0 < k && if IdleLive(n, pid) then s' == n else FinishesIn(n, pid, op, s', k - 1)
  {
    assert Going(s, pid, op, s', k - 1);
  }

  lemma MayStep(s: State, pid: nat, op: Op, s': State, k: nat)
    requires FinishesIn(s, pid, op, s', k)
    ensures Enabled(s, pid, Quiet(s, pid, op))
  {
    assert Going(s, pid, op, s', k - 1);
  }

  lemma {:induction false} FinishesKeepsInv(s: State, pid: nat, op: Op, s': State, k: nat)
    requires Inv(s) && FinishesIn(s, pid, op, s', k)
    ensures Inv(s')
    decreases k
  {
    MayStep(s, pid, op, s', k);
    StepKeepsInv(s, pid, Quiet(s, pid, op));
    var n := Step(s, pid, Quiet(s, pid, op));
    FirstStep(s, pid, op, s', k, n);
    if !IdleLive(n, pid) {
      FinishesKeepsInv(n, pid, op, s', k - 1);
    }
  }

  lemma CompletesKeepsInv(s: State, pid: nat, op: Op, s': State)
    requires Inv(s) && Completes(s, pid, op, s')
    ensures Inv(s')
  {
    var k: nat :| FinishesIn(s, pid, op, s', k);
    FinishesKeepsInv(s, pid, op, s', k);
  }

  lemma Ends(s: State, pid: nat, op: Op, s': State)
    requires Hop(s, pid, op, s') && IdleLive(s', pid)
    ensures Completes(s, pid, op, s')
  {
    assert Going(s, pid, op, s', 0);
    assert FinishesIn(s, pid, op, s', 1);
  }

  lemma Continues(s: State, n: State, pid: nat, op: Op, s': State)
    requires Hop(s, pid, op, n) && !IdleLive(n, pid) && Completes(n, pid, op, s')
    ensures Completes(s, pid, op, s')
  {
    var k: nat :| FinishesIn(n, pid, op, s', k);
    assert Going(s, pid, op, s', k);
    assert FinishesIn(s, pid, op, s', k + 1);
  }

  lemma StartHop(s: State, pid: nat, op: Op)
    requires Wf(s) && IdleLive(s, pid)
    ensures Hop(s, pid, op, Goto(s, pid, Start(op)))
  {
  }

  ghost predicate Known(s: State, pid: nat) { Wf(s) && pid in s.procs && pid != 0 }

  lemma Again(s: State, pid: nat, a: PC, b: PC)
    ensures Goto(Goto(s, pid, a), pid, b) == Goto(s, pid, b)
  {
    assert s.procs[pid := a][pid := b] == s.procs[pid := b];
  }

  /** Moving process `pid` from where it is left in `s` at pc is the step taken at pc. */
  lemma ProducerHop(s: State, pid: nat, pc: PC, op: Op)
    requires Known(s, pid) && IsProducer(pc)
    ensures Hop(Goto(s, pid, pc), pid, op, ProducerStep(Goto(s, pid, pc), pid, pc, Quiet(Goto(s, pid, pc), pid, op)))
  {
  }

  lemma ConsumerHop(s: State, pid: nat, pc: PC, op: Op)
    requires Known(s, pid) && IsConsumer(pc)
    ensures Hop(Goto(s, pid, pc), pid, op, ConsumerStep(Goto(s, pid, pc), pid, pc, Quiet(Goto(s, pid, pc), pid, op)))
  {
  }

  lemma RepairHop(s: State, pid: nat, pc: PC, op: Op)
    requires Known(s, pid) && pc.Repair?
    ensures Hop(Goto(s, pid, pc), pid, op, RepairStep(Goto(s, pid, pc), pid, pc))
  {
  }

  lemma CompactHop(s: State, pid: nat, pc: PC, op: Op)
    requires Known(s, pid) && IsCompact(pc) && NoLiveGap(s)
    ensures Hop(Goto(s, pid, pc), pid, op, CompactStep(Goto(s, pid, pc), pid, pc))
  {
  }

  /** Operation `op`, run k times in a row by one process with nobody else moving,
      leads from s to s'. */
  ghost predicate Repeats(s: State, pid: nat, op: Op, k: nat, s': State)
    decreases k, 0
  {
    if k == 0 then s' == s else ThenRepeats(s, pid, op, k - 1, s')
  }

  /** Once, and then k times more. */
  ghost predicate ThenRepeats(s: State, pid: nat, op: Op, k: nat, s': State)
    decreases k, 1
  {
    exists m :: Completes(s, pid, op, m) && Repeats(m, pid, op, k, s')
  }

  lemma FirstOfMany(s: State, pid: nat, op: Op, k: nat, s': State) returns (m: State)
    requires k > 0 && Repeats(s, pid, op, k, s')
    ensures Completes(s, pid, op, m) && Repeats(m, pid, op, k - 1, s')
  {
    assert ThenRepeats(s, pid, op, k - 1, s');
    m :| Completes(s, pid, op, m) && Repeats(m, pid, op, k - 1, s');
  }

  /** The states that repeated operations go through. */
  ghost predicate Trace(states: seq<State>, pid: nat, op: Op) {
    0 < |states| && forall i: nat | i + 1 < |states| :: TraceAt(states, pid, op, i)
  }

  ghost predicate TraceAt(states: seq<State>, pid: nat, op: Op, i: nat)
    requires i + 1 < |states|
  {
    Completes(states[i], pid, op, states[i + 1])
  }

  lemma TraceGrows(s: State, rest: seq<State>, pid: nat, op: Op)
    requires Trace(rest, pid, op) && Completes(s, pid, op, rest[0])
    ensures Trace([s] + rest, pid, op)
  {
    var states := [s] + rest;
    forall i: nat | i + 1 < |states| ensures TraceAt(states, pid, op, i) {
      assert i > 0 ==> TraceAt(rest, pid, op, i - 1);
    }
  }

  lemma {:induction false} TraceOf(s: State, pid: nat, op: Op, k: nat, s': State) returns (states: seq<State>)
    requires Repeats(s, pid, op, k, s')
    ensures Trace(states, pid, op) && |states| == k + 1 && states[0] == s && states[k] == s'
    decreases k
  {
    if k == 0 {
      states := [s];
    } else {
      var m := FirstOfMany(s, pid, op, k, s');
      var rest := TraceOf(m, pid, op, k - 1, s');
      TraceGrows(s, rest, pid, op);
      states := [s] + rest;
    }
  }

  // ---- Slots of the dead ----

  /** Ticket w's producer recorded its ownership and died before it was through. */
  ghost predicate Abandoned(s: State, w: nat) {
    w < |s.h.claimers| && w in s.h.recorded && w !in s.h.published && !Finished(s.h, w) && s.h.claimers[w] in s.dead
  }

  /** Ticket w's consumer died before it recycled the slot. */
  ghost predicate Dropped(s: State, w: nat) {
    w in s.h.takers && !Finished(s.h, w) && s.h.takers[w] in s.dead
  }

  /** Ticket w holds nothing for a consumer: it is finished, or its producer is dead. */
  ghost predicate Gone(s: State, w: nat) { Finished(s.h, w) || Abandoned(s, w) }

  /** The slot of position p, whose record names a ticket of the dead, made EMPTY for
      the round after that ticket. */
  function Mended(s: State, p: nat): State
    requires Wf(s)
  {
    var i := SlotOf(p, s.cap);
    s.(seqs := s.seqs[i := s.tickets[i] + s.cap], owners := s.owners[i := 0], tickets := s.tickets[i := 0],
       h := s.h.(lost := s.h.lost + {s.tickets[i]}))
  }

  /** The slot of position p is owned by a dead process. */
  ghost predicate DeadOwner(s: State, p: nat)
    requires Wf(s)
  {
    OwnerAt(s, p) != 0 && OwnerAt(s, p) in s.dead
  }

  lemma RepairThen(s: State, q: nat, op: Op, p: nat, ret: Cont, s': State)
    requires Known(s, q) && DeadOwner(s, p)
    requires Completes(Goto(Mended(s, p), q, Resume(ret)), q, op, s')
    ensures Completes(Goto(s, q, Repair(p, OwnerAt(s, p), ret)), q, op, s')
  {
    var pc := Repair(p, OwnerAt(s, p), ret);
    RepairHop(s, q, pc, op);
    Again(Mended(s, p), q, pc, Resume(ret));
    Continues(Goto(s, q, pc), Goto(Mended(s, p), q, Resume(ret)), q, op, s');
  }

  // ---- Enqueue ----

  /** The state once process q has sent `job` under the next ticket. */
  function Sent(s: State, q: nat, job: M.Job): State
    requires Wf(s)
  {
    var i, t := SlotOf(s.enq, s.cap), s.enq;
    s.(enq := t + 1, seqs := s.seqs[i := t + 1], owners := s.owners[i := 0], tickets := s.tickets[i := 0],
       msgs := s.msgs[i := job],
       h := s.h.(jobs := s.h.jobs + [job], claimers := s.h.claimers + [q], recorded := s.h.recorded + {t},
                 published := s.h.published + {t}))
  }

  /** Ticket enq claimed, recorded and its message stored. */
  function Filled(s: State, q: nat, job: M.Job): State
    requires Wf(s)
  {
    var i, t := SlotOf(s.enq, s.cap), s.enq;
    s.(enq := t + 1, owners := s.owners[i := q], tickets := s.tickets[i := t], msgs := s.msgs[i := job],
       h := s.h.(jobs := s.h.jobs + [job], claimers := s.h.claimers + [q], recorded := s.h.recorded + {t}))
  }

  function Published(s: State, t: nat): State
    requires Wf(s)
  {
    SetOwner(SetSeq(s, t, t + 1), t, 0, 0).(h := s.h.(published := s.h.published + {t}))
  }

  lemma FilledThenPublished(s: State, q: nat, job: M.Job)
    requires Wf(s)
    ensures Published(Filled(s, q, job), s.enq) == Sent(s, q, job)
  {
    var i := SlotOf(s.enq, s.cap);
    assert s.owners[i := q][i := 0] == s.owners[i := 0];
    assert s.tickets[i := s.enq][i := 0] == s.tickets[i := 0];
  }

  lemma PublishEnds(b: State, q: nat, job: M.Job, t: nat)
    requires Known(b, q)
    ensures Completes(Goto(b, q, PPublish(job, t)), q, Enqueue(job), Goto(Published(b, t), q, Idle))
  {
    ProducerHop(b, q, PPublish(job, t), Enqueue(job));
    Again(Published(b, t), q, PPublish(job, t), Idle);
    Ends(Goto(b, q, PPublish(job, t)), q, Enqueue(job), Goto(Published(b, t), q, Idle));
  }

  lemma FillThenPublish(s: State, q: nat, job: M.Job)
    requires Known(s, q)
    ensures Completes(Goto(s, q, PClaim(job, 0, s.enq)), q, Enqueue(job), Goto(Sent(s, q, job), q, Idle))
  {
    var op, t, s' := Enqueue(job), s.enq, Goto(Sent(s, q, job), q, Idle);
    var c := s.(enq := t + 1, h := s.h.(jobs := s.h.jobs + [job], claimers := s.h.claimers + [q]));
    var a := SetOwner(c, t, q, t).(h := c.h.(recorded := c.h.recorded + {t}));
    var b := Filled(s, q, job);
    PublishEnds(b, q, job, t);
    FilledThenPublished(s, q, job);
    ProducerHop(a, q, PWrite(job, t), op);
    Again(b, q, PWrite(job, t), PPublish(job, t));
    Continues(Goto(a, q, PWrite(job, t)), Goto(b, q, PPublish(job, t)), q, op, s');
    ProducerHop(a, q, PAlloc(job, t), op);
    Again(a, q, PAlloc(job, t), PWrite(job, t));
    Continues(Goto(a, q, PAlloc(job, t)), Goto(a, q, PWrite(job, t)), q, op, s');
    ProducerHop(c, q, PGap(job, t), op);
    Again(a, q, PGap(job, t), PAlloc(job, t));
    Continues(Goto(c, q, PGap(job, t)), Goto(a, q, PAlloc(job, t)), q, op, s');
    ProducerHop(s, q, PClaim(job, 0, t), op);
    Again(c, q, PClaim(job, 0, t), PGap(job, t));
    Continues(Goto(s, q, PClaim(job, 0, t)), Goto(c, q, PGap(job, t)), q, op, s');
  }

  /** The position and its slot's word are loaded: EMPTY leads to the claim, behind to the owner. */
  lemma ProbeAlone(s: State, q: nat, job: M.Job, pc: PC, s': State)
    requires Known(s, q) && SeqAt(s, s.enq) <= s.enq
    requires pc == if SeqAt(s, s.enq) == s.enq then PClaim(job, 0, s.enq) else PSuspect(job, 0, s.enq)
    requires Completes(Goto(s, q, pc), q, Enqueue(job), s')
    ensures Completes(Goto(s, q, PLoadPos(job, 0)), q, Enqueue(job), s')
  {
    var op, a := Enqueue(job), PLoadSeq(job, 0, s.enq);
    ProducerHop(s, q, a, op);
    Again(s, q, a, pc);
    Continues(Goto(s, q, a), Goto(s, q, pc), q, op, s');
    ProducerHop(s, q, PLoadPos(job, 0), op);
    Again(s, q, PLoadPos(job, 0), a);
    Continues(Goto(s, q, PLoadPos(job, 0)), Goto(s, q, a), q, op, s');
  }

  /** An enqueue that finds its slot EMPTY publishes its message under the next ticket. */
  lemma SendsAlone(s: State, q: nat, job: M.Job)
    requires Known(s, q) && SeqAt(s, s.enq) == s.enq
    ensures Completes(Goto(s, q, PLoadPos(job, 0)), q, Enqueue(job), Goto(Sent(s, q, job), q, Idle))
  {
    FillThenPublish(s, q, job);
    ProbeAlone(s, q, job, PClaim(job, 0, s.enq), Goto(Sent(s, q, job), q, Idle));
  }

  /** One that finds its slot a round behind and nobody dead owning it is refused. */
  lemma RefusedAlone(s: State, q: nat, job: M.Job)
    requires Known(s, q) && SeqAt(s, s.enq) < s.enq && !DeadOwner(s, s.enq)
    ensures Completes(Goto(s, q, PLoadPos(job, 0)), q, Enqueue(job), Goto(s, q, Idle))
  {
    var b := PSuspect(job, 0, s.enq);
    ProducerHop(s, q, b, Enqueue(job));
    Again(s, q, b, Idle);
    Ends(Goto(s, q, b), q, Enqueue(job), Goto(s, q, Idle));
    ProbeAlone(s, q, job, b, Goto(s, q, Idle));
  }

  /** One that finds a dead process owning it repairs the slot and tries again. */
  lemma RepairsAlone(s: State, q: nat, job: M.Job, s': State)
    requires Known(s, q) && SeqAt(s, s.enq) < s.enq && DeadOwner(s, s.enq)
    requires Completes(Goto(Mended(s, s.enq), q, PLoadPos(job, 0)), q, Enqueue(job), s')
    ensures Completes(Goto(s, q, PLoadPos(job, 0)), q, Enqueue(job), s')
  {
    var b, ret := PSuspect(job, 0, s.enq), BackToEnqueue(job, 0);
    var c := Repair(s.enq, OwnerAt(s, s.enq), ret);
    RepairThen(s, q, Enqueue(job), s.enq, ret, s');
    ProducerHop(s, q, b, Enqueue(job));
    Again(s, q, b, c);
    Continues(Goto(s, q, b), Goto(s, q, c), q, Enqueue(job), s');
    ProbeAlone(s, q, job, b, s');
  }

  lemma StartsAlone(s: State, q: nat, op: Op, s': State)
    requires Wf(s) && IdleLive(s, q) && Completes(Goto(s, q, Start(op)), q, op, s')
    ensures Completes(s, q, op, s')
  {
    StartHop(s, q, op);
    Continues(s, Goto(s, q, Start(op)), q, op, s');
  }

  lemma StaysIdle(s: State, q: nat)
    requires IdleLive(s, q)
    ensures Goto(s, q, Idle) == s
  {
    assert s.procs[q := Idle] == s.procs;
  }

  /** The ticket one round before enq keeps enq's slot: it is unfinished, and nobody
      dead holds it. */
  ghost predicate SlotHeld(s: State) {
    s.cap <= s.enq && var t := s.enq - s.cap; !Finished(s.h, t) && !Abandoned(s, t) && !Dropped(s, t)
  }

  /** The ticket one round before enq is in the hands of a dead process. */
  ghost predicate SlotDead(s: State) {
    s.cap <= s.enq && (Abandoned(s, s.enq - s.cap) || Dropped(s, s.enq - s.cap))
  }

  /** An enqueue of `job` that ends in s': refused without a trace while the slot is
      held, else sent, after the repair of a slot whose holder is dead. */
  ghost predicate Enqueued(s: State, s': State, q: nat, job: M.Job) {
    Wf(s) &&
    if SlotHeld(s) then s' == s
    else if SlotDead(s) then Mended(s, s.enq).h.lost == s.h.lost + {s.enq - s.cap} && s' == Sent(Mended(s, s.enq), q, job)
    else s' == Sent(s, q, job)
  }

  /** What the slot of ticket enq says of the round before. */
  lemma SlotBefore(s: State)
    requires Inv(s)
    ensures SeqAt(s, s.enq) <= s.enq
    ensures SeqAt(s, s.enq) == s.enq <==> !SlotHeld(s) && !SlotDead(s)
    ensures DeadOwner(s, s.enq) <==> SlotDead(s)
    ensures SlotDead(s) ==> s.tickets[SlotOf(s.enq, s.cap)] == s.enq - s.cap && !SlotHeld(s)
  {
    var v := V(s);
    assert ViewInv(v);
    assert SeqV(v, s.enq) <= s.enq;
    if SeqV(v, s.enq) == s.enq {
      EmptyIsUnowned(v, s.enq);
    }
    if s.enq < s.cap {
      FirstRound(v);
    } else {
      var t := s.enq - s.cap;
      assert SeqOk(v, t);
      if !Finished(s.h, t) {
        assert SlotOk(v, t);
      }
    }
  }

  /** A slot that is EMPTY for a ticket still to be claimed has no owner. */
  lemma EmptyIsUnowned(v: View, p: nat)
    requires ViewInv(v) && v.enq <= p && SeqV(v, p) == p
    ensures v.owners[SlotOf(p, v.cap)] == 0
  {
    var i := SlotOf(p, v.cap);
    assert OwnedOk(v, i);
    if v.owners[i] != 0 {
      EmptySlotIsFree(v, v.tickets[i], p);
    }
  }

  /** In the first round every slot still to be claimed is EMPTY. */
  lemma FirstRound(v: View)
    requires Sized(v) && SeqInv(v) && v.enq < v.cap
    ensures SeqV(v, v.enq) == v.enq
  {
    var w := SeqV(v, v.enq);
    assert PhaseOf(v.seqs[v.enq], v.enq, v.cap) && w <= v.enq;
    assert SlotOf(w, v.cap) == w && (0 < w ==> SlotOf(w - 1, v.cap) == w - 1);
  }

  lemma EnqueueInState(s: State, q: nat, job: M.Job) returns (s': State)
    requires Inv(s) && IdleLive(s, q)
    ensures Completes(s, q, Enqueue(job), s') && Enqueued(s, s', q, job)
  {
    SlotBefore(s);
    if SeqAt(s, s.enq) == s.enq {
      s' := Sent(s, q, job);
      SendsAlone(s, q, job);
      StaysIdle(s', q);
    } else if DeadOwner(s, s.enq) {
      s' := Sent(Mended(s, s.enq), q, job);
      SendsAlone(Mended(s, s.enq), q, job);
      StaysIdle(s', q);
      RepairsAlone(s, q, job, s');
    } else {
      s' := s;
      RefusedAlone(s, q, job);
      StaysIdle(s, q);
    }
    StartsAlone(s, q, Enqueue(job), s');
  }

  /** From any reachable state, with crashes, repairs and compaction behind it: an
      enqueue run alone is refused exactly when the ticket one round before is
      unfinished and not in the hands of a dead process; if a dead process holds the
      slot, it is repaired (that ticket is lost) and the message is sent all the same. */
  lemma EnqueueAlone(r: seq<State>, n: nat, q: nat, job: M.Job) returns (s': State)
    requires Run(r) && n < |r| && IdleLive(r[n], q)
    ensures EndsIn(r[n], q, Enqueue(job), s') && Enqueued(r[n], s', q, job)
  {
    RunInv(r, n);
    s' := EnqueueInState(r[n], q, job);
    OnlyEnd(r[n], q, Enqueue(job), s');
  }

  // ---- Dequeue: one look at the ticket in front ----

  /** Where the word of the slot in front sends a scan. */
  function Look(s: State): PC
    requires Wf(s)
  {
    var p := s.deq;
    if SeqAt(s, p) < p + 1 then CSuspect(p) else if SeqAt(s, p) > p + 1 then CSkip(p) else CTake(p)
  }

  lemma LookAlone(s: State, q: nat, s': State)
    requires Known(s, q) && Completes(Goto(s, q, Look(s)), q, Dequeue, s')
    ensures Completes(Goto(s, q, CLoadPos), q, Dequeue, s')
  {
    var p := s.deq;
    ConsumerHop(s, q, CLoadSeq(p), Dequeue);
    Again(s, q, CLoadSeq(p), Look(s));
    Continues(Goto(s, q, CLoadSeq(p)), Goto(s, q, Look(s)), q, Dequeue, s');
    ConsumerHop(s, q, CLoadPos, Dequeue);
    Again(s, q, CLoadPos, CLoadSeq(p));
    Continues(Goto(s, q, CLoadPos), Goto(s, q, CLoadSeq(p)), q, Dequeue, s');
  }

  lemma SkipOne(s: State, q: nat, s': State)
    requires Known(s, q) && SeqAt(s, s.deq) > s.deq + 1
    requires Completes(Goto(s.(deq := s.deq + 1), q, CLoadPos), q, Dequeue, s')
    ensures Completes(Goto(s, q, CLoadPos), q, Dequeue, s')
  {
    var p, s1 := s.deq, s.(deq := s.deq + 1);
    ConsumerHop(s, q, CSkip(p), Dequeue);
    Again(s1, q, CSkip(p), CLoadPos);
    Continues(Goto(s, q, CSkip(p)), Goto(s1, q, CLoadPos), q, Dequeue, s');
    LookAlone(s, q, s');
  }

  /** A slot of the dead in front is repaired, and the scan looks again. */
  lemma MendOne(s: State, q: nat, s': State)
    requires Known(s, q) && SeqAt(s, s.deq) <= s.deq && DeadOwner(s, s.deq)
    requires Completes(Goto(Mended(s, s.deq), q, CLoadPos), q, Dequeue, s')
    ensures Completes(Goto(s, q, CLoadPos), q, Dequeue, s')
  {
    var p := s.deq;
    var c := Repair(p, OwnerAt(s, p), BackToDequeue);
    RepairThen(s, q, Dequeue, p, BackToDequeue, s');
    ConsumerHop(s, q, CSuspect(p), Dequeue);
    Again(s, q, CSuspect(p), c);
    Continues(Goto(s, q, CSuspect(p)), Goto(s, q, c), q, Dequeue, s');
    LookAlone(s, q, s');
  }

  lemma StopOne(s: State, q: nat)
    requires Known(s, q) && SeqAt(s, s.deq) <= s.deq && !DeadOwner(s, s.deq)
    ensures Completes(Goto(s, q, CLoadPos), q, Dequeue, Goto(s, q, Idle))
  {
    var p := s.deq;
    ConsumerHop(s, q, CSuspect(p), Dequeue);
    Again(s, q, CSuspect(p), Idle);
    Ends(Goto(s, q, CSuspect(p)), q, Dequeue, Goto(s, q, Idle));
    LookAlone(s, q, Goto(s, q, Idle));
  }

  // ---- Dequeue: taking a message ----

  predicate Waits(h: History, w: nat) { w in h.published && w !in h.takers }

  /** What lets a consumer at the dequeue position take u: its word and message. */
  ghost predicate Takeable(s: State, u: nat) {
    Wf(s) && u < |s.h.jobs| && SeqAt(s, u) == u + 1 && s.msgs[SlotOf(u, s.cap)] == s.h.jobs[u]
  }

  /** The state once consumer q has delivered ticket u: everything else is as it was. */
  function Delivered(s: State, q: nat, u: nat): State
    requires Wf(s) && u < |s.h.jobs|
  {
    var i := SlotOf(u, s.cap);
    s.(deq := u + 1, seqs := s.seqs[i := u + s.cap], owners := s.owners[i := 0], tickets := s.tickets[i := 0],
       h := s.h.(takeLog := s.h.takeLog + [u], takers := s.h.takers[u := q], recycled := s.h.recycled + {u},
                 outs := s.h.outs + [Out(u, q, s.h.jobs[u])], returned := s.h.returned + {u}))
  }

  function Taken(s: State, q: nat, u: nat): State
    requires Wf(s)
  {
    SetOwner(s, u, q, u).(deq := u + 1, h := s.h.(takeLog := s.h.takeLog + [u], takers := s.h.takers[u := q]))
  }

  function Recycled(s: State, u: nat): State
    requires Wf(s)
  {
    SetOwner(SetSeq(s, u, u + s.cap), u, 0, 0).(h := s.h.(recycled := s.h.recycled + {u}))
  }

  function Returned(s: State, q: nat, u: nat, job: M.Job): State {
    s.(h := s.h.(outs := s.h.outs + [Out(u, q, job)], returned := s.h.returned + {u}))
  }

  lemma TakeOne(s: State, q: nat, u: nat)
    requires Known(s, q) && u == s.deq && Takeable(s, u)
    ensures Completes(Goto(s, q, CLoadPos), q, Dequeue, Goto(Delivered(s, q, u), q, Idle))
  {
    var s1 := Taken(s, q, u);
    FinishOne(s1, q, u, s.h.jobs[u]);
    TakenThenFinished(s, q, u);
    ConsumerHop(s, q, CTake(u), Dequeue);
    Again(s1, q, CTake(u), CRead(u));
    Continues(Goto(s, q, CTake(u)), Goto(s1, q, CRead(u)), q, Dequeue, Goto(Delivered(s, q, u), q, Idle));
    LookAlone(s, q, Goto(Delivered(s, q, u), q, Idle));
  }

  lemma TakenThenFinished(s: State, q: nat, u: nat)
    requires Wf(s) && u < |s.h.jobs|
    ensures Returned(Recycled(Taken(s, q, u), u), q, u, s.h.jobs[u]) == Delivered(s, q, u)
  {
    var i := SlotOf(u, s.cap);
    assert s.owners[i := q][i := 0] == s.owners[i := 0];
    assert s.tickets[i := u][i := 0] == s.tickets[i := 0];
  }

  lemma FinishOne(s: State, q: nat, u: nat, job: M.Job)
    requires Known(s, q) && s.msgs[SlotOf(u, s.cap)] == job
    ensures Completes(Goto(s, q, CRead(u)), q, Dequeue, Goto(Returned(Recycled(s, u), q, u, job), q, Idle))
  {
    RecycleAndReturn(s, q, u, job);
    ConsumerHop(s, q, CRead(u), Dequeue);
    Again(s, q, CRead(u), CRecycle(u, job));
    Continues(Goto(s, q, CRead(u)), Goto(s, q, CRecycle(u, job)), q, Dequeue,
              Goto(Returned(Recycled(s, u), q, u, job), q, Idle));
  }

  lemma RecycleAndReturn(s: State, q: nat, u: nat, job: M.Job)
    requires Known(s, q)
    ensures Completes(Goto(s, q, CRecycle(u, job)), q, Dequeue, Goto(Returned(Recycled(s, u), q, u, job), q, Idle))
  {
    var s1 := Recycled(s, u);
    ReturnEnds(s1, q, u, job);
    RecycleHop(s, s1, q, u, job);
    Continues(Goto(s, q, CRecycle(u, job)), Goto(s1, q, CReturn(u, job)), q, Dequeue,
              Goto(Returned(s1, q, u, job), q, Idle));
  }

  lemma RecycleHop(s: State, s1: State, q: nat, u: nat, job: M.Job)
    requires Known(s, q) && s1 == Recycled(s, u)
    ensures Hop(Goto(s, q, CRecycle(u, job)), q, Dequeue, Goto(s1, q, CReturn(u, job)))
  {
    ConsumerHop(s, q, CRecycle(u, job), Dequeue);
    Again(s1, q, CRecycle(u, job), CReturn(u, job));
  }

  lemma ReturnEnds(s: State, q: nat, u: nat, job: M.Job)
    requires Known(s, q)
    ensures Completes(Goto(s, q, CReturn(u, job)), q, Dequeue, Goto(Returned(s, q, u, job), q, Idle))
  {
    var s1 := Returned(s, q, u, job);
    ConsumerHop(s, q, CReturn(u, job), Dequeue);
    Again(s1, q, CReturn(u, job), Idle);
    Ends(Goto(s, q, CReturn(u, job)), q, Dequeue, Goto(s1, q, Idle));
  }

  // ---- Dequeue: the scan ----

  /** The row of ticket w's slot says what the log says of w. */
  ghost predicate Told(s: State, w: nat)
    requires Wf(s)
  {
    if Finished(s.h, w) then SeqAt(s, w) > w + 1
    else if Abandoned(s, w) then
      SeqAt(s, w) == w && OwnerAt(s, w) == s.h.claimers[w] != 0 && s.tickets[SlotOf(w, s.cap)] == w
    else if Waits(s.h, w) then Takeable(s, w)
    else
      && SeqAt(s, w) <= w && (DeadOwner(s, w) <==> w == s.enq && SlotDead(s))
      && (DeadOwner(s, w) ==> s.tickets[SlotOf(w, s.cap)] + s.cap == w)
  }

  /** Everything from the dequeue position up to ticket u is gone. */
  ghost predicate Line(s: State, u: nat)
    requires Wf(s)
  {
    s.deq <= u && (forall w: nat | s.deq <= w < u :: Gone(s, w)) && forall w: nat | s.deq <= w <= u :: Told(s, w)
  }

  /** The ticket in front passed, its slot repaired first if its producer is dead. */
  ghost function Turn(s: State): State
    requires Wf(s)
  {
    if Finished(s.h, s.deq) then s.(deq := s.deq + 1) else Mended(s, s.deq).(deq := s.deq + 1)
  }

  lemma TurnAlone(s: State, q: nat, s': State)
    requires Known(s, q) && Told(s, s.deq) && Gone(s, s.deq)
    requires Completes(Goto(Turn(s), q, CLoadPos), q, Dequeue, s')
    ensures Completes(Goto(s, q, CLoadPos), q, Dequeue, s')
  {
    if Finished(s.h, s.deq) {
      SkipOne(s, q, s');
    } else {
      SkipOne(Mended(s, s.deq), q, s');
      MendOne(s, q, s');
    }
  }

  lemma TurnKeepsTold(s: State, w: nat)
    requires Wf(s) && s.deq < w && Told(s, s.deq) && Gone(s, s.deq) && Told(s, w)
    ensures Told(Turn(s), w) && Gone(Turn(s), w) == Gone(s, w) && Waits(Turn(s).h, w) == Waits(s.h, w)
    ensures Abandoned(Turn(s), w) == Abandoned(s, w)
  {
    if !Finished(s.h, s.deq) && SlotOf(w, s.cap) == SlotOf(s.deq, s.cap) {
      SlotGap(s.deq, w, s.cap);
    }
  }

  lemma TurnKeepsLine(s: State, u: nat)
    requires Wf(s) && Line(s, u) && s.deq < u
    ensures Line(Turn(s), u)
  {
    forall w: nat | s.deq < w <= u ensures Told(Turn(s), w) && (w < u ==> Gone(Turn(s), w)) {
      TurnKeepsTold(s, w);
    }
  }

  /** The tickets whose slots a scan from s up to position u repaired. */
  ghost predicate Lost(s: State, lost: set<nat>, u: nat) {
    forall w: nat :: w in lost <==> w in s.h.lost || (s.deq <= w < u && Abandoned(s, w))
  }

  /** From s to n a scan went from position s.deq to n.deq and delivered nothing. */
  ghost predicate Scanned(s: State, n: State) {
    && Wf(s) && Wf(n) && s.deq <= n.deq
    && n == s.(deq := n.deq, seqs := n.seqs, owners := n.owners, tickets := n.tickets, h := s.h.(lost := n.h.lost))
    && Lost(s, n.h.lost, n.deq)
  }

  lemma TurnThenScan(s: State, n: State)
    requires Wf(s) && Line(s, n.deq) && s.deq < n.deq && Scanned(Turn(s), n)
    ensures Scanned(s, n)
  {
    assert Gone(s, s.deq) && Told(s, s.deq);
    forall w: nat ensures w in n.h.lost <==> w in s.h.lost || (s.deq <= w < n.deq && Abandoned(s, w)) {
      var a := Turn(s);
      assert w in n.h.lost <==> w in a.h.lost || (a.deq <= w < n.deq && Abandoned(a, w));
      if s.deq < w < n.deq {
        TurnKeepsTold(s, w);
      }
    }
  }

  /** The scan passes everything that is gone and stands at ticket u. */
  lemma {:induction false} ScanAlone(s: State, q: nat, u: nat) returns (n: State)
    requires Known(s, q) && Line(s, u) && !Gone(s, u)
    ensures Scanned(s, n) && n.deq == u && Told(n, u) && !Gone(n, u)
    ensures forall s' | Completes(Goto(n, q, CLoadPos), q, Dequeue, s') :: Completes(Goto(s, q, CLoadPos), q, Dequeue, s')
    decreases u - s.deq
  {
    if s.deq == u {
      n := s;
    } else {
      TurnKeepsLine(s, u);
      TurnKeepsTold(s, u);
      n := ScanAlone(Turn(s), q, u);
      TurnThenScan(s, n);
      forall s' | Completes(Goto(n, q, CLoadPos), q, Dequeue, s')
        ensures Completes(Goto(s, q, CLoadPos), q, Dequeue, s')
      {
        TurnAlone(s, q, s');
      }
    }
  }

  // ---- Dequeue, whole ----

  /** A dequeue by q that ends in s' passed everything up to ticket u, repairing the
      slots of dead producers on its way. If u waits it delivered u's message; if not,
      nothing (and at the frontier it repaired the slot of a dead consumer). */
  ghost predicate Dequeued(s: State, s': State, q: nat, u: nat) {
    var got := Waits(s.h, u);
    && (got ==> u < |s.h.jobs|)
    && s'.deq == (if got then u + 1 else u)
    && s'.cap == s.cap && s'.enq == s.enq && s'.dead == s.dead && s'.procs == s.procs && s'.msgs == s.msgs
    && s'.h == (if got then
                  s.h.(takeLog := s.h.takeLog + [u], takers := s.h.takers[u := q], recycled := s.h.recycled + {u},
                       outs := s.h.outs + [Out(u, q, s.h.jobs[u])], returned := s.h.returned + {u}, lost := s'.h.lost)
                else s.h.(lost := s'.h.lost))
    && (forall w: nat :: w in s'.h.lost <==>
          || w in s.h.lost || (s.deq <= w < u && Abandoned(s, w))
          || (!got && u == s.enq == w + s.cap && Dropped(s, w)))
  }

  lemma DequeueTakes(s: State, q: nat, n: State, u: nat)
    requires Wf(s) && IdleLive(s, q) && Scanned(s, n) && n.deq == u && Told(n, u) && !Gone(n, u) && Waits(s.h, u)
    ensures Takeable(n, u) && Completes(Goto(n, q, CLoadPos), q, Dequeue, Delivered(n, q, u))
    ensures Dequeued(s, Delivered(n, q, u), q, u)
  {
    TakeOne(n, q, u);
    StaysIdle(Delivered(n, q, u), q);
  }

  /** Nothing to take at u, and nobody dead owns its slot. */
  lemma DequeueStops(s: State, q: nat, n: State, u: nat)
    requires Wf(s) && IdleLive(s, q) && Scanned(s, n) && n.deq == u && Told(n, u) && !Gone(n, u) && !Waits(s.h, u)
    requires !DeadOwner(n, u) && !(u == s.enq >= s.cap && Dropped(s, u - s.cap))
    ensures Completes(Goto(n, q, CLoadPos), q, Dequeue, n) && Dequeued(s, n, q, u)
  {
    StopOne(n, q);
    StaysIdle(n, q);
  }

  /** Nothing to take at u, whose slot a dead process still holds for the round before. */
  lemma DequeueMends(s: State, q: nat, n: State, u: nat)
    requires Wf(s) && IdleLive(s, q) && Scanned(s, n) && n.deq == u && Told(n, u) && !Gone(n, u) && !Waits(s.h, u)
    requires DeadOwner(n, u) && u == s.enq >= s.cap && Dropped(s, u - s.cap)
    ensures Completes(Goto(n, q, CLoadPos), q, Dequeue, Mended(n, u)) && Dequeued(s, Mended(n, u), q, u)
  {
    var m := Mended(n, u);
    assert n.tickets[SlotOf(u, s.cap)] == u - s.cap;
    StopOne(m, q);
    StaysIdle(m, q);
    MendOne(n, q, m);
  }

  /** Below the dequeue position nobody is writing, and only published tickets are taken. */
  ghost predicate Behind(s: State) {
    s.h.takers.Keys <= s.h.published && forall w: nat | w < s.deq :: Settled(s.h, w)
  }

  /** At the frontier a scan leaves only the slot of a dead consumer to repair. */
  lemma FrontierDead(s: State, n: State, u: nat)
    requires Wf(s) && Line(s, u) && Scanned(s, n) && n.deq == u == s.enq && Behind(s)
    ensures SlotDead(n) <==> s.cap <= u && Dropped(s, u - s.cap)
  {
    if s.cap <= u {
      var w := u - s.cap;
      assert w < s.deq || Gone(s, w);
      assert w < s.deq ==> Settled(s.h, w);
      assert w in n.h.lost <==> w in s.h.lost || (s.deq <= w < u && Abandoned(s, w));
    }
  }

  lemma DequeueInLine(s: State, q: nat, u: nat) returns (s': State)
    requires Wf(s) && IdleLive(s, q) && Line(s, u) && !Gone(s, u) && Behind(s)
    ensures Completes(s, q, Dequeue, s') && Dequeued(s, s', q, u)
  {
    var n := ScanAlone(s, q, u);
    if u == s.enq {
      FrontierDead(s, n, u);
    }
    if Waits(s.h, u) {
      s' := Delivered(n, q, u);
      DequeueTakes(s, q, n, u);
    } else if DeadOwner(n, u) {
      s' := Mended(n, u);
      DequeueMends(s, q, n, u);
    } else {
      s' := n;
      DequeueStops(s, q, n, u);
    }
    StartsAlone(s, q, Dequeue, s');
  }

  // ---- In every reachable state ----

  /** The first ticket at or past `d` that is not gone. */
  lemma {:induction false} FirstLeft(s: State, d: nat) returns (u: nat)
    requires d <= s.enq && !Gone(s, s.enq)
    ensures d <= u <= s.enq && !Gone(s, u) && forall w: nat | d <= w < u :: Gone(s, w)
    decreases s.enq - d
  {
    if Gone(s, d) {
      u := FirstLeft(s, d + 1);
    } else {
      u := d;
    }
  }

  lemma OneFirstLeft(s: State, u: nat, w: nat)
    requires s.deq <= u && !Gone(s, u) && forall x: nat | s.deq <= x < u :: Gone(s, x)
    requires s.deq <= w && !Gone(s, w) && forall x: nat | s.deq <= x < w :: Gone(s, x)
    ensures u == w
  {
  }

  /** What the invariant says of a ticket at or past the dequeue position. */
  lemma InvTells(s: State, w: nat)
    requires Inv(s) && s.deq <= w <= s.enq
    ensures Told(s, w)
  {
    var v := V(s);
    assert ViewInv(v);
    if w < s.enq {
      assert SeqOk(v, w);
      if !Finished(s.h, w) {
        assert SlotOk(v, w);
      }
    } else {
      SlotBefore(s);
    }
  }

  lemma InvBehind(s: State)
    requires Inv(s)
    ensures Behind(s) && s.deq <= s.enq && !Gone(s, s.enq)
  {
    assert ViewInv(V(s));
  }

  lemma DequeueInState(s: State, q: nat) returns (u: nat, s': State)
    requires Inv(s) && IdleLive(s, q)
    ensures s.deq <= u <= s.enq && !Gone(s, u) && forall w: nat | s.deq <= w < u :: Gone(s, w)
    ensures Completes(s, q, Dequeue, s') && Dequeued(s, s', q, u)
  {
    InvBehind(s);
    u := FirstLeft(s, s.deq);
    forall w: nat | s.deq <= w <= u ensures Told(s, w) {
      InvTells(s, w);
    }
    s' := DequeueInLine(s, q, u);
  }

  /** From any reachable state, with crashes, repairs and compaction behind it: a
      dequeue run alone passes every ticket that is finished or whose producer died,
      repairing the slots of the dead (those tickets are lost), and stands at the first
      ticket u that is neither. If u waits it ends having delivered exactly the message
      sent under it; if not, it ends having delivered nothing. */
  lemma DequeueAlone(r: seq<State>, n: nat, q: nat) returns (u: nat, s': State)
    requires Run(r) && n < |r| && IdleLive(r[n], q)
    ensures r[n].deq <= u <= r[n].enq && !Gone(r[n], u) && forall w: nat | r[n].deq <= w < u :: Gone(r[n], w)
    ensures EndsIn(r[n], q, Dequeue, s') && Dequeued(r[n], s', q, u)
  {
    RunInv(r, n);
    u, s' := DequeueInState(r[n], q);
    OnlyEnd(r[n], q, Dequeue, s');
  }

  // ---- Draining ----

  /** The published, untaken tickets from lo up to hi, in ticket order. */
  function WaitingIn(h: History, lo: nat, hi: nat): seq<nat>
    decreases hi - lo
  {
    if lo >= hi then [] else (if Waits(h, lo) then [lo] else []) + WaitingIn(h, lo + 1, hi)
  }

  lemma {:induction false} WaitingInMeans(h: History, lo: nat, hi: nat)
    ensures var l := WaitingIn(h, lo, hi);
            && (forall w: nat :: w in l <==> lo <= w < hi && Waits(h, w))
            && (forall i, j | 0 <= i < j < |l| :: l[i] < l[j])
    decreases hi - lo
  {
    if lo < hi {
      WaitingInMeans(h, lo + 1, hi);
      var l' := WaitingIn(h, lo + 1, hi);
      forall j | 0 <= j < |l'| ensures lo < l'[j] {
        assert l'[j] in l';
      }
    }
  }

  /** The deliveries of `tickets` by consumer q, each with the message sent. */
  function Deliveries(tickets: seq<nat>, q: nat, jobs: seq<M.Job>): (r: seq<Out>)
    requires forall i | 0 <= i < |tickets| :: tickets[i] < |jobs|
  {
    seq(|tickets|, i requires 0 <= i < |tickets| => Out(tickets[i], q, jobs[tickets[i]]))
  }

  lemma {:induction false} SplitWaiting(h: History, lo: nat, hi: nat)
    requires WaitingIn(h, lo, hi) != []
    ensures var l := WaitingIn(h, lo, hi); l == [l[0]] + WaitingIn(h, l[0] + 1, hi)
    decreases hi - lo
  {
    if !Waits(h, lo) {
      SplitWaiting(h, lo + 1, hi);
    }
  }

  lemma {:induction false} SameWaiting(h: History, h': History, lo: nat, hi: nat)
    requires forall w: nat | lo <= w < hi :: Waits(h, w) == Waits(h', w)
    ensures WaitingIn(h, lo, hi) == WaitingIn(h', lo, hi)
    decreases hi - lo
  {
    if lo < hi {
      SameWaiting(h, h', lo + 1, hi);
    }
  }

  /** No ticket from the dequeue position up to hi is in the hands of a live producer,
      or of one that died before it recorded its ownership. */
  ghost predicate Clear(s: State, hi: nat) {
    s.deq <= hi <= s.enq && forall w: nat | s.deq <= w < hi :: Waits(s.h, w) || Gone(s, w)
  }

  /** The waiting messages below hi come out in ticket order, each as sent, and the
      tickets of dead producers that were passed on the way, and no others, are lost. */
  ghost predicate DrainsInOrder(s: State, q: nat, hi: nat, s': State) {
    var l := WaitingIn(s.h, s.deq, hi);
    && Repeats(s, q, Dequeue, |l|, s')
    && (forall i | 0 <= i < |l| :: l[i] < |s.h.jobs|)
    && s'.h.outs == s.h.outs + Deliveries(l, q, s.h.jobs)
    && s.deq <= s'.deq <= hi && Lost(s, s'.h.lost, s'.deq) && SameSends(s, s')
  }

  /** Nothing was sent, and nobody died. */
  ghost predicate SameSends(s: State, s': State) {
    && s'.cap == s.cap && s'.enq == s.enq && s'.dead == s.dead && s'.procs == s.procs
    && s'.h.jobs == s.h.jobs && s'.h.claimers == s.h.claimers && s'.h.recorded == s.h.recorded
    && s'.h.published == s.h.published && s'.h.tombs == s.h.tombs
  }

  /** Nothing below hi waits any more, and what is left there is gone. */
  ghost predicate Drained(s: State, q: nat, hi: nat) {
    Inv(s) && IdleLive(s, q) && Clear(s, hi) && WaitingIn(s.h, s.deq, hi) == []
  }

  /** k dequeues run alone, k being the number of messages waiting below hi, deliver
      exactly those messages. */
  lemma {:induction false} DrainsAll(s: State, q: nat, hi: nat) returns (s': State)
    requires Inv(s) && IdleLive(s, q) && Clear(s, hi)
    ensures DrainsInOrder(s, q, hi, s') && Drained(s', q, hi)
    decreases hi - s.deq
  {
    if WaitingIn(s.h, s.deq, hi) == [] {
      s' := s;
      DrainsNone(s, q, hi);
    } else {
      var u, m := DrainsFirst(s, q, hi);
      s' := DrainsAll(m, q, hi);
      DrainsOneMore(s, m, q, hi, u, s');
    }
  }

  lemma DrainsNone(s: State, q: nat, hi: nat)
    requires s.deq <= hi && WaitingIn(s.h, s.deq, hi) == []
    ensures DrainsInOrder(s, q, hi, s)
  {
    assert Deliveries([], q, s.h.jobs) == [];
  }

  /** What waits is neither finished nor abandoned. */
  lemma WaitsNotGone(s: State, w: nat)
    requires Inv(s) && Waits(s.h, w)
    ensures w < |s.h.jobs| && !Gone(s, w)
  {
    var v := V(s);
    assert ViewInv(v);
    assert w in s.h.lost ==> HolderDead(v, w);
  }

  /** The first of them: the others still wait. */
  lemma DrainsFirst(s: State, q: nat, hi: nat) returns (u: nat, m: State)
    requires Inv(s) && IdleLive(s, q) && Clear(s, hi) && WaitingIn(s.h, s.deq, hi) != []
    ensures s.deq <= u < hi && u < |s.h.jobs| && Waits(s.h, u) && !Gone(s, u)
    ensures Completes(s, q, Dequeue, m) && Dequeued(s, m, q, u)
    ensures Inv(m) && IdleLive(m, q) && Clear(m, hi)
    ensures WaitingIn(s.h, s.deq, hi) == [u] + WaitingIn(m.h, m.deq, hi)
  {
    var w := WaitingIn(s.h, s.deq, hi)[0];
    FirstWaiting(s, hi, w);
    WaitsNotGone(s, w);
    u, m := DequeueInState(s, q);
    OneFirstLeft(s, u, w);
    CompletesKeepsInv(s, q, Dequeue, m);
    StillClear(s, m, q, u, hi);
  }

  lemma FirstWaiting(s: State, hi: nat, u: nat)
    requires Clear(s, hi) && WaitingIn(s.h, s.deq, hi) != [] && u == WaitingIn(s.h, s.deq, hi)[0]
    ensures s.deq <= u < hi && Waits(s.h, u) && forall w: nat | s.deq <= w < u :: Gone(s, w)
    ensures WaitingIn(s.h, s.deq, hi) == [u] + WaitingIn(s.h, u + 1, hi)
  {
    WaitingInMeans(s.h, s.deq, hi);
    SplitWaiting(s.h, s.deq, hi);
    assert u in WaitingIn(s.h, s.deq, hi);
    forall w: nat | s.deq <= w < u ensures Gone(s, w) {
      assert w !in WaitingIn(s.h, s.deq, hi);
    }
  }

  lemma StillClear(s: State, m: State, q: nat, u: nat, hi: nat)
    requires IdleLive(s, q) && Clear(s, hi) && s.deq <= u < hi && Waits(s.h, u) && Dequeued(s, m, q, u)
    ensures IdleLive(m, q) && Clear(m, hi) && WaitingIn(m.h, m.deq, hi) == WaitingIn(s.h, u + 1, hi)
  {
    SameWaiting(s.h, m.h, u + 1, hi);
    forall w: nat | u + 1 <= w < hi ensures Waits(m.h, w) || Gone(m, w) {
      assert Waits(s.h, w) || Gone(s, w);
    }
  }

  lemma OneMore(s: State, m: State, q: nat, op: Op, k: nat, s': State)
    requires Completes(s, q, op, m) && Repeats(m, q, op, k, s')
    ensures Repeats(s, q, op, k + 1, s')
  {
    assert ThenRepeats(s, q, op, k, s');
  }

  lemma DrainsOneMore(s: State, m: State, q: nat, hi: nat, u: nat, s': State)
    requires s.deq <= u < hi && u < |s.h.jobs| && Waits(s.h, u)
    requires Completes(s, q, Dequeue, m) && Dequeued(s, m, q, u) && DrainsInOrder(m, q, hi, s')
    requires WaitingIn(s.h, s.deq, hi) == [u] + WaitingIn(m.h, m.deq, hi)
    ensures DrainsInOrder(s, q, hi, s')
  {
    var l, l' := WaitingIn(s.h, s.deq, hi), WaitingIn(m.h, m.deq, hi);
    DeliveriesCons(l, l', u, q, s.h.jobs);
    LostAdds(s, m, q, u, s'.h.lost, s'.deq);
    OneMore(s, m, q, Dequeue, |l'|, s');
  }

  lemma LostAdds(s: State, m: State, q: nat, u: nat, lost: set<nat>, d: nat)
    requires s.deq <= u && Waits(s.h, u) && Dequeued(s, m, q, u) && u < d && Lost(m, lost, d)
    ensures Lost(s, lost, d)
  {
    forall w: nat ensures w in lost <==> w in s.h.lost || (s.deq <= w < d && Abandoned(s, w)) {
      assert w in lost <==> w in m.h.lost || (m.deq <= w < d && Abandoned(m, w));
    }
  }

  lemma DeliveriesCons(l: seq<nat>, l': seq<nat>, u: nat, q: nat, jobs: seq<M.Job>)
    requires l == [u] + l' && u < |jobs| && forall i | 0 <= i < |l'| :: l'[i] < |jobs|
    ensures forall i | 0 <= i < |l| :: l[i] < |jobs|
    ensures Deliveries(l, q, jobs) == [Out(u, q, jobs[u])] + Deliveries(l', q, jobs)
  {
    forall i | 0 <= i < |l| ensures l[i] < |jobs| {
      assert i > 0 ==> l[i] == l'[i - 1];
    }
  }

  /** From any reachable state in which each ticket of [deq, hi) waits, is finished, or
      was recorded by a producer that has died: as many dequeues, run alone, as messages
      wait below hi deliver exactly those, in ticket order, as sent, and once one more
      has ended, every one of the dead producers' tickets is lost. */
  lemma DrainsPastTheDead(r: seq<State>, n: nat, q: nat, hi: nat) returns (s1: State, s2: State)
    requires Run(r) && n < |r| && IdleLive(r[n], q) && Clear(r[n], hi)
    ensures DrainsInOrder(r[n], q, hi, s1) && Completes(s1, q, Dequeue, s2)
    ensures forall w: nat | r[n].deq <= w < hi && Abandoned(r[n], w) :: w in s2.h.lost
    ensures hi <= s2.deq
  {
    RunInv(r, n);
    s1 := DrainsAll(r[n], q, hi);
    var u;
    u, s2 := DequeueInState(s1, q);
    NothingLeft(s1, q, hi, u);
    forall w: nat | r[n].deq <= w < hi && Abandoned(r[n], w) ensures w in s2.h.lost {
      AbandonedUntilLost(r[n], q, hi, s1, w);
      assert w < s1.deq || (w < u && Abandoned(s1, w));
    }
  }

  lemma AbandonedUntilLost(s: State, q: nat, hi: nat, s1: State, w: nat)
    requires DrainsInOrder(s, q, hi, s1) && Inv(s1) && s.deq <= w && Abandoned(s, w)
    ensures if w < s1.deq then w in s1.h.lost else Abandoned(s1, w)
  {
    assert ViewInv(V(s1));
    assert w in s1.h.lost <==> w in s.h.lost || (s.deq <= w < s1.deq && Abandoned(s, w));
  }

  lemma NothingLeft(s: State, q: nat, hi: nat, u: nat)
    requires Drained(s, q, hi) && s.deq <= u && !Gone(s, u)
    ensures hi <= u
  {
    WaitingInMeans(s.h, s.deq, hi);
    if u < hi {
      assert Waits(s.h, u);
      assert u in WaitingIn(s.h, s.deq, hi);
    }
  }
}
