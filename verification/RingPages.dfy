/** Overflow pages under any interleaving, crashes anywhere, and a death oracle
    that may answer anything: a page is never in two places, so it is never freed
    twice and message bytes never land in a page the slab considers free. */
module RingPages {
  import opened Prelude
  import opened RingMachine

  /** The page a process holds: allocated and not yet attached, or detached by a
      winning compare-and-swap and not yet freed; 0 when it holds none. */
  function Held(pc: PC): nat {
    match pc
    case EWrite(_, _, g, _) => g
    case XFree(o, _) => o
    case DPageFree(_, _, _, o, _) => o
    case RFree(_, _, _, o, _, _) => o
    case _ => 0
  }

  /** A step about to detach or free a page knows a real page. */
  predicate PageArgOk(pc: PC) {
    match pc
    case XLoadLen(_, o) => o != 0
    case XCas(_, o, _) => o != 0
    case DPage(_, _, _, o) => o != 0
    case DPageCas(_, _, _, o, _) => o != 0
    case RLoadLen(_, _, _, o, _) => o != 0
    case RCas(_, _, _, o, _, _) => o != 0
    case XFree(o, _) => o != 0
    case DPageFree(_, _, _, o, _) => o != 0
    case RFree(_, _, _, o, _, _) => o != 0
    case EWrite(_, _, _, k) => k <= 5
    case _ => true
  }

  ghost function HeldBy(s: State, p: nat): nat {
    if p in s.procs then Held(s.procs[p]) else 0
  }

  ghost predicate FreeApart(s: State) {
    && 0 !in s.free
    && (forall i | 0 <= i < |s.pays| :: s.pays[i].overflow !in s.free)
    && (forall p: nat :: HeldBy(s, p) !in s.free)
  }

  ghost predicate SlotsApart(s: State) {
    forall i, j | 0 <= i < j < |s.pays| && s.pays[i].overflow != 0 :: s.pays[i].overflow != s.pays[j].overflow
  }

  ghost predicate HoldersApart(s: State) {
    && (forall p: nat, i | 0 <= i < |s.pays| && HeldBy(s, p) != 0 :: s.pays[i].overflow != HeldBy(s, p))
    && (forall p: nat, q: nat | p != q && HeldBy(s, p) != 0 :: HeldBy(s, p) != HeldBy(s, q))
  }

  /** Every page is in at most one of: the free pool, one slot, one process. */
  ghost predicate PageInv(s: State) {
    && Wf(s)
    && FreeApart(s) && SlotsApart(s) && HoldersApart(s)
    && (forall p | p in s.procs :: PageArgOk(s.procs[p]))
  }

  // ---- What a step can do to pages ----

  ghost predicate SameWords(s: State, s': State) {
    |s'.pays| == |s.pays| && forall i | 0 <= i < |s.pays| :: s'.pays[i].overflow == s.pays[i].overflow
  }

  /** Only slot `i`'s overflow word changed, from `was` to `now`. */
  ghost predicate OneWord(s: State, s': State, i: nat, was: nat, now: nat) {
    && |s'.pays| == |s.pays| && i < |s.pays|
    && s.pays[i].overflow == was && s'.pays[i].overflow == now
    && forall j | 0 <= j < |s.pays| && j != i :: s'.pays[j].overflow == s.pays[j].overflow
  }

  /** Slot words and free pool untouched; the process keeps its page or leaks it. */
  ghost predicate Keeps(s: State, s': State, pid: nat) {
    s'.free == s.free && SameWords(s, s') && (HeldBy(s', pid) == 0 || HeldBy(s', pid) == HeldBy(s, pid))
  }

  /** A page leaves the free pool for the process that asked for it. */
  ghost predicate Allocates(s: State, s': State, pid: nat) {
    && HeldBy(s, pid) == 0 && HeldBy(s', pid) in s.free
    && s'.free == s.free - {HeldBy(s', pid)} && SameWords(s, s')
  }

  /** The held page (or no page) becomes the overflow word of slot `i`; whatever
      the word said before is leaked. */
  ghost predicate Attaches(s: State, s': State, pid: nat, i: nat) {
    && s'.free == s.free && HeldBy(s', pid) == 0
    && i < |s.pays| && OneWord(s, s', i, s.pays[i].overflow, HeldBy(s, pid))
  }

  /** A winning compare-and-swap of the overflow word of slot `i` to 0 hands its
      page to the winner. */
  ghost predicate Detaches(s: State, s': State, pid: nat, i: nat) {
    && s'.free == s.free && HeldBy(s, pid) == 0 && HeldBy(s', pid) != 0
    && OneWord(s, s', i, HeldBy(s', pid), 0)
  }

  /** The held page goes back to the slab. */
  ghost predicate Frees(s: State, s': State, pid: nat) {
    && HeldBy(s, pid) != 0 && HeldBy(s', pid) == 0
    && s'.free == s.free + {HeldBy(s, pid)} && SameWords(s, s')
  }

  /** Only process `pid` moved. */
  ghost predicate Moved(s: State, s': State, pid: nat) {
    && Wf(s') && pid in s'.procs && s'.procs == s.procs[pid := s'.procs[pid]]
    && PageArgOk(s'.procs[pid])
  }

  ghost predicate Effect(s: State, s': State, pid: nat, i: nat) {
    && Moved(s, s', pid)
    && (Keeps(s, s', pid) || Allocates(s, s', pid) || Attaches(s, s', pid, i) || Detaches(s, s', pid, i)
        || Frees(s, s', pid))
  }

  lemma EffectKeepsPageInv(s: State, s': State, pid: nat, i: nat)
    requires PageInv(s) && Effect(s, s', pid, i)
    ensures PageInv(s')
  {
    assert forall q: nat | q != pid :: HeldBy(s', q) == HeldBy(s, q);
    if Attaches(s, s', pid, i) || Detaches(s, s', pid, i) {
      assert s'.pays[i].overflow == 0 || s'.pays[i].overflow == HeldBy(s, pid);
    }
  }

  /** The slot a step works on. */
  function Target(pc: PC, cap: nat): nat
    requires 0 < cap
  {
    match pc
    case EWrite(_, t, _, _) => SlotOf(t, cap)
    case XCas(t, _, _) => SlotOf(t, cap)
    case DPageCas(t, _, _, _, _) => SlotOf(t, cap)
    case RCas(p, _, _, _, _, _) => SlotOf(p, cap)
    case _ => 0
  }

  /** Steps that touch neither a payload nor the free pool. */
  predicate TouchesNoPage(pc: PC) {
    !pc.EWrite? && !pc.EAlloc? && !pc.XCas? && !pc.XFree? && !pc.DPageCas? && !pc.DPageFree? && !pc.RCas? && !pc.RFree?
  }

  ghost predicate Plain(s: State, s': State, pid: nat) {
    Moved(s, s', pid) && s'.pays == s.pays && s'.free == s.free && Held(s'.procs[pid]) == 0
  }

  lemma EnqueueClaimEffect(s: State, pid: nat, pc: PC, c: Choice)
    requires Wf(s) && pid in s.procs && pc == s.procs[pid] && PageArgOk(pc) && IsEnqueueClaim(pc)
    ensures Effect(s, EnqueueClaimStep(s, pid, pc, c), pid, Target(pc, s.cap))
  {
    assert Plain(s, EnqueueClaimStep(s, pid, pc, c), pid);
  }

  lemma EnqueueFillPlain(s: State, pid: nat, pc: PC, c: Choice)
    requires Wf(s) && pid in s.procs && pc == s.procs[pid] && PageArgOk(pc) && IsEnqueueFill(pc) && TouchesNoPage(pc)
    ensures Plain(s, EnqueueFillStep(s, pid, pc, c), pid)
  {
  }

  lemma EnqueueFillEffect(s: State, pid: nat, pc: PC, c: Choice)
    requires Enabled(s, pid, c) && pc == s.procs[pid] && PageArgOk(pc) && IsEnqueueFill(pc)
    ensures Effect(s, EnqueueFillStep(s, pid, pc, c), pid, Target(pc, s.cap))
  {
    var s' := EnqueueFillStep(s, pid, pc, c);
    if TouchesNoPage(pc) {
      EnqueueFillPlain(s, pid, pc, c);
    } else if pc.EAlloc? {
      assert Keeps(s, s', pid) || Allocates(s, s', pid);
    } else if pc.k == 5 {
      assert Attaches(s, s', pid, Target(pc, s.cap));
    } else {
      assert Keeps(s, s', pid);
    }
  }

  lemma DequeueClaimEffect(s: State, pid: nat, pc: PC, c: Choice)
    requires Wf(s) && pid in s.procs && pc == s.procs[pid] && PageArgOk(pc) && IsDequeueClaim(pc)
    ensures Effect(s, DequeueClaimStep(s, pid, pc, c), pid, Target(pc, s.cap))
  {
    assert Plain(s, DequeueClaimStep(s, pid, pc, c), pid);
  }

  lemma DequeueExpiredPlain(s: State, pid: nat, pc: PC)
    requires Wf(s) && pid in s.procs && pc == s.procs[pid] && PageArgOk(pc) && IsDequeueExpired(pc) && TouchesNoPage(pc)
    ensures Plain(s, DequeueExpiredStep(s, pid, pc), pid)
  {
  }

  lemma DequeueExpiredEffect(s: State, pid: nat, pc: PC)
    requires Wf(s) && pid in s.procs && pc == s.procs[pid] && PageArgOk(pc) && IsDequeueExpired(pc)
    ensures Effect(s, DequeueExpiredStep(s, pid, pc), pid, Target(pc, s.cap))
  {
    var s' := DequeueExpiredStep(s, pid, pc);
    if TouchesNoPage(pc) {
      DequeueExpiredPlain(s, pid, pc);
    } else if pc.XCas? {
      assert Keeps(s, s', pid) || Detaches(s, s', pid, Target(pc, s.cap));
    } else {
      assert Keeps(s, s', pid) || Frees(s, s', pid);
    }
  }

  lemma DequeueReadPlain(s: State, pid: nat, pc: PC, c: Choice)
    requires Wf(s) && pid in s.procs && pc == s.procs[pid] && PageArgOk(pc) && IsDequeueRead(pc) && TouchesNoPage(pc)
    ensures Plain(s, DequeueReadStep(s, pid, pc, c), pid)
  {
  }

  lemma DequeueReadEffect(s: State, pid: nat, pc: PC, c: Choice)
    requires Wf(s) && pid in s.procs && pc == s.procs[pid] && PageArgOk(pc) && IsDequeueRead(pc)
    ensures Effect(s, DequeueReadStep(s, pid, pc, c), pid, Target(pc, s.cap))
  {
    var s' := DequeueReadStep(s, pid, pc, c);
    if TouchesNoPage(pc) {
      DequeueReadPlain(s, pid, pc, c);
    } else if pc.DPageCas? {
      assert Keeps(s, s', pid) || Detaches(s, s', pid, Target(pc, s.cap));
    } else {
      assert Keeps(s, s', pid) || Frees(s, s', pid);
    }
  }

  lemma RepairPlain(s: State, pid: nat, pc: PC)
    requires Wf(s) && pid in s.procs && pc == s.procs[pid] && PageArgOk(pc) && IsRepair(pc) && TouchesNoPage(pc)
    ensures Plain(s, RepairStep(s, pid, pc), pid)
  {
  }

  lemma RepairEffect(s: State, pid: nat, pc: PC)
    requires Wf(s) && pid in s.procs && pc == s.procs[pid] && PageArgOk(pc) && IsRepair(pc)
    ensures Effect(s, RepairStep(s, pid, pc), pid, Target(pc, s.cap))
  {
    var s' := RepairStep(s, pid, pc);
    if TouchesNoPage(pc) {
      RepairPlain(s, pid, pc);
    } else if pc.RCas? {
      assert Keeps(s, s', pid) || Detaches(s, s', pid, Target(pc, s.cap));
    } else {
      assert Keeps(s, s', pid) || Frees(s, s', pid);
    }
  }

  lemma CompactEffect(s: State, pid: nat, pc: PC)
    requires Wf(s) && pid in s.procs && pc == s.procs[pid] && PageArgOk(pc)
    requires IsCompact(pc)
    ensures Effect(s, CompactStep(s, pid, pc), pid, 0)
  {
    if pc.KLoadEnq? || pc.KLoadDeq? || pc.KSeq? || pc.KOwner? {
      CompactScanPlain(s, pid, pc);
    } else {
      CompactActPlain(s, pid, pc);
    }
  }

  lemma CompactScanPlain(s: State, pid: nat, pc: PC)
    requires Wf(s) && pid in s.procs && (pc.KLoadEnq? || pc.KLoadDeq? || pc.KSeq? || pc.KOwner?)
    ensures Plain(s, CompactStep(s, pid, pc), pid)
  {
  }

  lemma CompactActPlain(s: State, pid: nat, pc: PC)
    requires Wf(s) && pid in s.procs && IsCompact(pc) && !(pc.KLoadEnq? || pc.KLoadDeq? || pc.KSeq? || pc.KOwner?)
    ensures Plain(s, CompactStep(s, pid, pc), pid)
  {
  }

  lemma StepEffect(s: State, pid: nat, c: Choice) returns (i: nat)
    requires PageInv(s) && Enabled(s, pid, c)
    ensures Effect(s, Step(s, pid, c), pid, i)
  {
    var pc := s.procs[pid];
    i := Target(pc, s.cap);
    if c.crash || pc.Idle? {
      assert Keeps(s, Step(s, pid, c), pid);
    } else if IsEnqueueClaim(pc) {
      EnqueueClaimEffect(s, pid, pc, c);
    } else if IsEnqueueFill(pc) {
      EnqueueFillEffect(s, pid, pc, c);
    } else if IsDequeueClaim(pc) {
      DequeueClaimEffect(s, pid, pc, c);
    } else if IsDequeueExpired(pc) {
      DequeueExpiredEffect(s, pid, pc);
    } else if IsDequeueRead(pc) {
      DequeueReadEffect(s, pid, pc, c);
    } else if IsRepair(pc) {
      RepairEffect(s, pid, pc);
    } else {
      CompactEffect(s, pid, pc);
    }
  }

  lemma StepKeepsPageInv(s: State, pid: nat, c: Choice)
    requires PageInv(s) && Enabled(s, pid, c)
    ensures PageInv(Step(s, pid, c))
  {
    var i := StepEffect(s, pid, c);
    EffectKeepsPageInv(s, Step(s, pid, c), pid, i);
  }

  lemma NextEffect(s: State, s': State) returns (pid: nat, i: nat)
    requires PageInv(s) && Next(s, s')
    ensures PageInv(s') && Effect(s, s', pid, i)
  {
    var p: nat, c: Choice :| Enabled(s, p, c) && s' == Step(s, p, c);
    pid := p;
    i := StepEffect(s, p, c);
    EffectKeepsPageInv(s, s', pid, i);
  }

  lemma InitPageInv(s: State)
    requires Init(s)
    ensures PageInv(s)
  {
  }

  /** Page exclusivity in every state of every run. */
  lemma {:induction false} PagesNeverShared(r: seq<State>, n: nat)
    requires Run(r) && n < |r|
    ensures PageInv(r[n])
  {
    if n == 0 {
      InitPageInv(r[n]);
    } else {
      PagesNeverShared(r, n - 1);
      assert NextAt(r, n - 1);
      var pid, i := NextEffect(r[n - 1], r[n]);
    }
  }

  ghost predicate Unattached(s: State, o: nat) {
    forall i | 0 <= i < |s.pays| :: s.pays[i].overflow != o
  }

  ghost predicate HeldByNobody(s: State, o: nat) {
    forall q: nat :: HeldBy(s, q) != o
  }

  /** The only holder of page o is process p. */
  ghost predicate SoleHolder(s: State, p: nat, o: nat) {
    HeldBy(s, p) == o && forall q: nat | q != p :: HeldBy(s, q) != o
  }

  lemma RunEffect(r: seq<State>, n: nat) returns (pid: nat, i: nat)
    requires Run(r) && n + 1 < |r|
    ensures PageInv(r[n]) && PageInv(r[n + 1]) && Effect(r[n], r[n + 1], pid, i)
  {
    PagesNeverShared(r, n);
    assert NextAt(r, n);
    pid, i := NextEffect(r[n], r[n + 1]);
  }

  /** No double free and no free of a page in use: in every run, whenever a step
      puts a page into the free pool, that page was not free, was attached to no
      slot, and was held by exactly one process, which gives it up. */
  lemma FreedPageWasUnused(r: seq<State>, n: nat, o: nat)
    requires Run(r) && n + 1 < |r|
    requires o in r[n + 1].free && o !in r[n].free
    ensures Unattached(r[n], o) && Unattached(r[n + 1], o)
    ensures exists p: nat :: SoleHolder(r[n], p, o)
    ensures HeldByNobody(r[n + 1], o)
  {
    var pid, i := RunEffect(r, n);
    FreedBy(r[n], r[n + 1], pid, i, o);
  }

  lemma FreedBy(s: State, s': State, pid: nat, i: nat, o: nat)
    requires PageInv(s) && PageInv(s') && Effect(s, s', pid, i) && o in s'.free && o !in s.free
    ensures Unattached(s, o) && Unattached(s', o) && SoleHolder(s, pid, o) && HeldByNobody(s', o)
  {
    assert Frees(s, s', pid) && HeldBy(s, pid) == o;
    forall q: nat ensures HeldBy(s', q) != o {
      assert HeldBy(s', q) !in s'.free;
    }
  }

  /** A page leaves the free pool only into the hands of one process that had none. */
  lemma AllocatedPageHasOneHolder(r: seq<State>, n: nat, o: nat)
    requires Run(r) && n + 1 < |r|
    requires o in r[n].free && o !in r[n + 1].free
    ensures exists p: nat :: HeldBy(r[n], p) == 0 && SoleHolder(r[n + 1], p, o)
    ensures Unattached(r[n + 1], o)
  {
    var pid, i := RunEffect(r, n);
    AllocatedBy(r[n], r[n + 1], pid, i, o);
  }

  lemma AllocatedBy(s: State, s': State, pid: nat, i: nat, o: nat)
    requires PageInv(s) && PageInv(s') && Effect(s, s', pid, i) && o in s.free && o !in s'.free
    ensures HeldBy(s, pid) == 0 && SoleHolder(s', pid, o) && Unattached(s', o)
  {
    assert Allocates(s, s', pid) && HeldBy(s', pid) == o;
  }

  /** Message bytes are only ever written into a page the writer alone holds: in
      every run, a page whose contents change is not free, is attached to no slot,
      and has exactly one holder. */
  lemma WrittenPageIsPrivate(r: seq<State>, n: nat, o: nat)
    requires Run(r) && n + 1 < |r|
    requires PageBytes(r[n], o) != PageBytes(r[n + 1], o)
    ensures o != 0 && o !in r[n].free && Unattached(r[n], o)
    ensures exists p: nat :: SoleHolder(r[n], p, o)
  {
    PagesNeverShared(r, n);
    assert NextAt(r, n);
    var pid := NextWriter(r[n], r[n + 1], o);
    assert SoleHolder(r[n], pid, o);
  }

  lemma NextWriter(s: State, s': State, o: nat) returns (pid: nat)
    requires Next(s, s') && PageBytes(s, o) != PageBytes(s', o)
    ensures HeldBy(s, pid) == o != 0
  {
    var p: nat, c: Choice :| Enabled(s, p, c) && s' == Step(s, p, c);
    pid := p;
    WriterHolds(s, p, c, o);
  }

  lemma WriterHolds(s: State, pid: nat, c: Choice, o: nat)
    requires Enabled(s, pid, c) && PageBytes(s, o) != PageBytes(Step(s, pid, c), o)
    ensures s.procs[pid].EWrite? && HeldBy(s, pid) == o != 0
  {
    var pc := s.procs[pid];
    if !c.crash && !pc.Idle? && !IsEnqueueClaim(pc) && !IsEnqueueFill(pc) && !IsDequeueClaim(pc) {
      ExpiredWritesNoPage(s, pid, pc);
      ReadWritesNoPage(s, pid, pc, c);
      RepairWritesNoPage(s, pid, pc);
      CompactWritesNoPage(s, pid, pc);
    }
  }

  lemma ExpiredWritesNoPage(s: State, pid: nat, pc: PC)
    requires Wf(s)
    ensures IsDequeueExpired(pc) ==> DequeueExpiredStep(s, pid, pc).pages == s.pages
  {
  }

  lemma ReadWritesNoPage(s: State, pid: nat, pc: PC, c: Choice)
    requires Wf(s)
    ensures IsDequeueRead(pc) ==> DequeueReadStep(s, pid, pc, c).pages == s.pages
  {
  }

  lemma RepairWritesNoPage(s: State, pid: nat, pc: PC)
    requires Wf(s)
    ensures IsRepair(pc) ==> RepairStep(s, pid, pc).pages == s.pages
  {
  }

  lemma CompactWritesNoPage(s: State, pid: nat, pc: PC)
    requires Wf(s)
    ensures IsCompact(pc) ==> CompactStep(s, pid, pc).pages == s.pages
  {
  }
}
