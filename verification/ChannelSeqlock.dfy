/** Lock-free channel lookups racing a writer that holds the global lock, load by
    load and store by store. No process crashes and no flush runs here. */
module ChannelSeqlock {
  import opened Prelude
  import opened ChannelIndex

  datatype Field = FVersion | FHash | FLen | FName(k: nat) | FRing | FCapacity | FNonLocal | FCommit

  /** The lock holder, inside `channel_index_create`. Nobody else writes, so it
      may look at a whole slot in one step. */
  datatype Writer =
    | NoWriter
    | Scanning(name: Bytes, e: Entry, i: nat)
    | Finding(name: Bytes, e: Entry, i: nat)
    | Storing(name: Bytes, e: Entry, i: nat, f: Field)
    | Returning(name: Bytes)

  /** A lookup, one load at a time. `due` says that a create of the name had
      returned before the lookup began. */
  datatype Reader =
    | RHash(name: Bytes, due: bool, i: nat)
    | RLen(name: Bytes, due: bool, i: nat, h: nat)
    | RVersion(name: Bytes, due: bool, i: nat)
    | RName(name: Bytes, due: bool, i: nat, v: nat, read: Bytes)
    | RRing(name: Bytes, due: bool, i: nat)
    | RCapacity(name: Bytes, due: bool, i: nat, r: nat)
    | RNonLocal(name: Bytes, due: bool, i: nat, r: nat, c: nat)
    | RDone(name: Bytes, due: bool, hit: Option<(nat, Entry)>)

  /** `committed` and `returned` are the observer's: the slot and entry each create
      committed, and the names whose create has returned. */
  datatype State = State(
    hash: Bytes -> nat,
    slots: seq<Slot>,
    writer: Writer,
    readers: map<nat, Reader>,
    committed: map<Bytes, (nat, Entry)>,
    returned: set<Bytes>)

  datatype Choice = Create(name: Bytes, e: Entry) | Write | Lookup(pid: nat, name: Bytes) | Read(pid: nat)

  ghost predicate Enabled(s: State, c: Choice) {
    match c
    case Create(name, e) => s.writer.NoWriter? && |name| <= NAME_WIDTH
    case Write => !s.writer.NoWriter?
    case Lookup(pid, name) => pid !in s.readers || s.readers[pid].RDone?
    case Read(pid) => pid in s.readers && !s.readers[pid].RDone?
  }

  ghost function Step(s: State, c: Choice): State
    requires Enabled(s, c)
  {
    match c
    case Create(name, e) => s.(writer := Scanning(name, e, 0))
    case Write => WriterStep(s)
    case Lookup(pid, name) => s.(readers := s.readers[pid := RHash(name, name in s.returned, 0)])
    case Read(pid) => s.(readers := s.readers[pid := ReaderStep(s.slots, s.hash, s.readers[pid])])
  }

  function WriterStep(s: State): State
    requires !s.writer.NoWriter?
  {
    match s.writer
    case Scanning(name, e, i) =>
      if i >= |s.slots| then s.(writer := Finding(name, e, 0))
      else
        var x := s.slots[i];
        if x.nameLen != 0 && x.hash == s.hash(name) && x.nameLen == |name| && NameOf(x) == name
        then s.(writer := Returning(name))
        else s.(writer := Scanning(name, e, i + 1))
    case Finding(name, e, i) =>
      if i >= |s.slots| then s.(writer := NoWriter)
      else if s.slots[i].nameLen == 0 then s.(writer := Storing(name, e, i, FVersion))
      else s.(writer := Finding(name, e, i + 1))
    case Storing(name, e, i, f) =>
      if i >= |s.slots| then s
      else
        var s' := s.(slots := s.slots[i := Stored(s.slots[i], name, e, s.hash(name), f)]);
        if f == FCommit
        then s'.(writer := Returning(name), committed := if name == [] then s.committed else s.committed[name := (i, e)])
        else s'.(writer := Storing(name, e, i, NextField(name, f)))
    case Returning(name) =>
      s.(writer := NoWriter, returned := if name in s.committed then s.returned + {name} else s.returned)
  }

  function Stored(x: Slot, name: Bytes, e: Entry, h: nat, f: Field): Slot {
    match f
    case FVersion => x.(version := 1)
    case FHash => x.(hash := h)
    case FLen => x.(nameLen := |name|)
    case FName(k) => if k < |name| && k < |x.name| then x.(name := x.name[k := name[k]]) else x
    case FRing => x.(ring := e.ring)
    case FCapacity => x.(capacity := e.capacity)
    case FNonLocal => x.(nonLocal := e.nonLocal)
    case FCommit => x.(version := 2)
  }

  function NextField(name: Bytes, f: Field): Field {
    match f
    case FVersion => FHash
    case FHash => FLen
    case FLen => FName(0)
    case FName(k) => if k + 1 < |name| then FName(k + 1) else FRing
    case FRing => FCapacity
    case FCapacity => FNonLocal
    case _ => FCommit
  }

  function ReaderStep(slots: seq<Slot>, hash: Bytes -> nat, r: Reader): Reader {
    match r
    case RHash(name, due, i) =>
      if i >= |slots| then RDone(name, due, None) else RLen(name, due, i, slots[i].hash)
    case RLen(name, due, i, h) =>
      if i >= |slots| || slots[i].nameLen == 0 || h != hash(name) || slots[i].nameLen != |name|
      then RHash(name, due, i + 1) else RVersion(name, due, i)
    case RVersion(name, due, i) =>
      if i >= |slots| || slots[i].version % 2 != 0 then RHash(name, due, i + 1)
      else RName(name, due, i, slots[i].version, [])
    case RName(name, due, i, v, read) =>
      if i >= |slots| then RHash(name, due, i + 1)
      else if |read| < |name| && |read| < |slots[i].name| then RName(name, due, i, v, read + [slots[i].name[|read|]])
      else if slots[i].version == v && read == name then RRing(name, due, i)
      else RHash(name, due, i + 1)
    case RRing(name, due, i) =>
      if i >= |slots| then RHash(name, due, i + 1) else RCapacity(name, due, i, slots[i].ring)
    case RCapacity(name, due, i, g) =>
      if i >= |slots| then RHash(name, due, i + 1) else RNonLocal(name, due, i, g, slots[i].capacity)
    case RNonLocal(name, due, i, g, c) =>
      if i >= |slots| then RHash(name, due, i + 1) else RDone(name, due, Some((i, Entry(g, c, slots[i].nonLocal))))
    case RDone(name, due, hit) => r
  }

  ghost predicate Init(s: State) {
    && (forall i | 0 <= i < |s.slots| ::
          s.slots[i].version == 0 && s.slots[i].nameLen == 0 && |s.slots[i].name| == NAME_WIDTH)
    && s.writer == NoWriter && s.readers == map[] && s.committed == map[] && s.returned == {}
  }

  ghost predicate Next(s: State, s': State) {
    exists c: Choice :: Enabled(s, c) && s' == Step(s, c)
  }

  ghost predicate NextAt(r: seq<State>, i: nat)
    requires i + 1 < |r|
  {
    Next(r[i], r[i + 1])
  }

  ghost predicate Run(r: seq<State>) {
    0 < |r| && Init(r[0]) && forall i: nat | i + 1 < |r| :: NextAt(r, i)
  }

  // ---- Invariants ----

  predicate StoringAt(w: Writer, i: nat) { w.Storing? && w.i == i }

  /** Slot i holds the committed entry of its name. */
  predicate Settled(s: State, i: nat)
    requires i < |s.slots|
  {
    var x := s.slots[i];
    && x.version == 2 && 0 < x.nameLen <= |x.name| && x.hash == s.hash(NameOf(x))
    && NameOf(x) in s.committed && s.committed[NameOf(x)] == (i, EntryOf(x))
  }

  /** A slot is empty, settled, or in the writer's hands. */
  predicate SlotOk(s: State, i: nat)
    requires i < |s.slots|
  {
    && |s.slots[i].name| == NAME_WIDTH
    && (!StoringAt(s.writer, i) ==>
          if s.slots[i].nameLen == 0 then s.slots[i].version % 2 == 0 else Settled(s, i))
  }

  predicate CommittedOk(s: State, name: Bytes) {
    name in s.committed ==>
      && name != [] && s.committed[name].0 < |s.slots|
      && var i := s.committed[name].0;
         && !StoringAt(s.writer, i) && s.slots[i].nameLen == |name| <= |s.slots[i].name|
         && NameOf(s.slots[i]) == name
  }

  /** How far the writer's slot has got. */
  predicate Progress(x: Slot, name: Bytes, e: Entry, h: nat, f: Field)
    requires |name| <= NAME_WIDTH == |x.name|
  {
    && (f.FVersion? || x.version == 1)
    && (if f.FVersion? || f.FHash? || f.FLen? then x.nameLen == 0 else x.nameLen == |name|)
    && (!f.FVersion? && !f.FHash? ==> x.hash == h)
    && (f.FName? ==> (f.k < |name| || f.k == 0) && x.name[..Min(f.k, |name|)] == name[..Min(f.k, |name|)])
    && (f.FRing? || f.FCapacity? || f.FNonLocal? || f.FCommit? ==> x.name[..|name|] == name)
    && (f.FCapacity? || f.FNonLocal? || f.FCommit? ==> x.ring == e.ring)
    && (f.FNonLocal? || f.FCommit? ==> x.capacity == e.capacity)
    && (f.FCommit? ==> x.nonLocal == e.nonLocal)
  }

  predicate WriterOk(s: State) {
    match s.writer
    case NoWriter => true
    case Scanning(name, e, i) =>
      |name| <= NAME_WIDTH && (name in s.committed ==> i <= s.committed[name].0)
    case Finding(name, e, i) => |name| <= NAME_WIDTH && name !in s.committed
    case Storing(name, e, i, f) =>
      && |name| <= NAME_WIDTH && name !in s.committed && i < |s.slots|
      && |s.slots[i].name| == NAME_WIDTH && Progress(s.slots[i], name, e, s.hash(name), f)
    case Returning(name) => name != [] ==> name in s.committed
  }

  /** A lookup that is due has not gone past the slot of its name. */
  predicate DueOk(s: State, name: Bytes, due: bool, i: nat) {
    due ==> name in s.committed && i <= s.committed[name].0
  }

  /** The reader is inside a slot that is settled for good. */
  predicate InSettled(s: State, i: nat) {
    i < |s.slots| && !StoringAt(s.writer, i) && s.slots[i].nameLen != 0
  }

  predicate ReaderOk(s: State, r: Reader) {
    match r
    case RHash(name, due, i) => DueOk(s, name, due, i)
    case RLen(name, due, i, h) =>
      DueOk(s, name, due, i) && (due && i == s.committed[name].0 ==> h == s.hash(name))
    case RVersion(name, due, i) =>
      DueOk(s, name, due, i) && i < |s.slots| && s.slots[i].nameLen == |name| != 0
    case RName(name, due, i, v, read) =>
      && DueOk(s, name, due, i) && InSettled(s, i) && s.slots[i].nameLen == |name| && v == s.slots[i].version
      && |read| <= |name| <= |s.slots[i].name| && read == s.slots[i].name[..|read|]
    case RRing(name, due, i) => InSettled(s, i) && NameOf(s.slots[i]) == name
    case RCapacity(name, due, i, g) => InSettled(s, i) && NameOf(s.slots[i]) == name && g == s.slots[i].ring
    case RNonLocal(name, due, i, g, c) =>
      InSettled(s, i) && NameOf(s.slots[i]) == name && g == s.slots[i].ring && c == s.slots[i].capacity
    case RDone(name, due, hit) => Answered(s.committed, name, due, hit)
  }

  /** A hit is a committed entry, whole; a lookup that was due hits. */
  predicate Answered(committed: map<Bytes, (nat, Entry)>, name: Bytes, due: bool, hit: Option<(nat, Entry)>) {
    && (hit.Some? ==> name in committed && hit.value == committed[name])
    && (due ==> hit.Some?)
  }

  ghost predicate Inv(s: State) {
    && (forall i | 0 <= i < |s.slots| :: SlotOk(s, i))
    && (forall name :: CommittedOk(s, name))
    && WriterOk(s)
    && (forall q | q in s.readers :: ReaderOk(s, s.readers[q]))
    && s.returned <= s.committed.Keys
  }

  /** A settled slot is where the map says its name is. */
  lemma SettledSlot(s: State, i: nat)
    requires Inv(s) && InSettled(s, i)
    ensures Settled(s, i)
  {
    assert SlotOk(s, i);
  }

  lemma CommittedSettled(s: State, name: Bytes)
    requires Inv(s) && name in s.committed
    ensures var i := s.committed[name].0;
            InSettled(s, i) && Settled(s, i) && NameOf(s.slots[i]) == name && s.slots[i].nameLen == |name|
  {
    assert CommittedOk(s, name);
    SettledSlot(s, s.committed[name].0);
  }

  // ---- Readers ----

  lemma ReaderKeepsOk(s: State, r: Reader)
    requires Inv(s) && ReaderOk(s, r)
    ensures ReaderOk(s, ReaderStep(s.slots, s.hash, r))
  {
    if !r.RDone? {
      if r.due {
        if r.name in s.committed {
          CommittedSettled(s, r.name);
        }
      }
      if r.i < |s.slots| && !r.RHash? && !r.RLen? {
        assert SlotOk(s, r.i);
      }
    }
  }

  // ---- The writer ----

  /** A step that only moves the writer, not onto a slot that holds an entry. */
  lemma WriterMoves(s: State, w: Writer)
    requires Inv(s) && !s.writer.Storing? && WriterOk(s.(writer := w))
    requires w.Storing? ==> w.i < |s.slots| && s.slots[w.i].nameLen == 0
    ensures Inv(s.(writer := w))
  {
    var s' := s.(writer := w);
    forall i | 0 <= i < |s.slots| ensures SlotOk(s', i) {
      assert SlotOk(s, i);
    }
    forall name ensures CommittedOk(s', name) {
      assert CommittedOk(s, name);
    }
    forall q | q in s.readers ensures ReaderOk(s', s.readers[q]) {
      assert ReaderOk(s, s.readers[q]);
    }
  }

  /** While a name is looked for, a slot that shows it holds it. */
  lemma ScanningKeepsInv(s: State)
    requires Inv(s) && s.writer.Scanning?
    ensures Inv(WriterStep(s))
  {
    var name, i := s.writer.name, s.writer.i;
    if name in s.committed {
      CommittedSettled(s, name);
    }
    if i < |s.slots| {
      assert SlotOk(s, i);
    }
    WriterMoves(s, WriterStep(s).writer);
  }

  lemma FindingKeepsInv(s: State)
    requires Inv(s) && s.writer.Finding?
    ensures Inv(WriterStep(s))
  {
    if s.writer.i < |s.slots| {
      assert SlotOk(s, s.writer.i);
    }
    WriterMoves(s, WriterStep(s).writer);
  }

  lemma ReturningKeepsInv(s: State)
    requires Inv(s) && s.writer.Returning?
    ensures Inv(WriterStep(s))
  {
    var s' := s.(writer := NoWriter);
    WriterMoves(s, NoWriter);
    var s2 := WriterStep(s);
    forall i | 0 <= i < |s2.slots| ensures SlotOk(s2, i) {
      assert SlotOk(s', i);
    }
    forall n ensures CommittedOk(s2, n) {
      assert CommittedOk(s', n);
    }
    forall q | q in s2.readers ensures ReaderOk(s2, s2.readers[q]) {
      assert ReaderOk(s', s.readers[q]);
    }
  }

  /** Each store brings the slot one field further. */
  lemma StoreProgress(x: Slot, name: Bytes, e: Entry, h: nat, f: Field)
    requires |name| <= NAME_WIDTH == |x.name| && Progress(x, name, e, h, f)
    ensures var x' := Stored(x, name, e, h, f);
            && |x'.name| == NAME_WIDTH
            && (f != FCommit ==> Progress(x', name, e, h, NextField(name, f)))
            && (f == FCommit ==>
                  x'.version == 2 && x'.nameLen == |name| && NameOf(x') == name && EntryOf(x') == e && x'.hash == h)
            && (x.nameLen != 0 ==> x'.nameLen == x.nameLen)
  {
    if f.FName? && f.k < |name| {
      var x' := Stored(x, name, e, h, f);
      assert x'.name[..f.k + 1] == x.name[..f.k] + [name[f.k]];
      assert name[..f.k + 1] == name[..f.k] + [name[f.k]];
    }
    assert f.FName? && f.k >= |name| ==> name == [];
  }

  lemma StoringKeepsInv(s: State)
    requires Inv(s) && s.writer.Storing?
    ensures Inv(WriterStep(s))
  {
    var name, e, i, f := s.writer.name, s.writer.e, s.writer.i, s.writer.f;
    StoreProgress(s.slots[i], name, e, s.hash(name), f);
    var s' := WriterStep(s);
    forall j | 0 <= j < |s'.slots| ensures SlotOk(s', j) {
      assert SlotOk(s, j);
    }
    forall n ensures CommittedOk(s', n) {
      assert CommittedOk(s, n);
    }
    forall q | q in s'.readers ensures ReaderOk(s', s'.readers[q]) {
      StoreKeepsReader(s, s.readers[q]);
    }
  }

  lemma StoreKeepsReader(s: State, r: Reader)
    requires Inv(s) && s.writer.Storing? && ReaderOk(s, r)
    ensures ReaderOk(WriterStep(s), r)
  {
    var w := s.writer;
    StoreProgress(s.slots[w.i], w.name, w.e, s.hash(w.name), w.f);
  }

  lemma StepKeepsInv(s: State, c: Choice)
    requires Inv(s) && Enabled(s, c)
    ensures Inv(Step(s, c))
  {
    match c {
      case Create(name, e) =>
        WriterMoves(s, Scanning(name, e, 0));
      case Write =>
        match s.writer {
          case Scanning(_, _, _) => ScanningKeepsInv(s);
          case Finding(_, _, _) => FindingKeepsInv(s);
          case Storing(_, _, _, _) => StoringKeepsInv(s);
          case Returning(_) => ReturningKeepsInv(s);
        }
      case Lookup(pid, name) =>
        ReaderMoves(s, pid, RHash(name, name in s.returned, 0));
      case Read(pid) =>
        ReaderKeepsOk(s, s.readers[pid]);
        ReaderMoves(s, pid, ReaderStep(s.slots, s.hash, s.readers[pid]));
    }
  }

  lemma ReaderMoves(s: State, pid: nat, r: Reader)
    requires Inv(s) && ReaderOk(s, r)
    ensures Inv(s.(readers := s.readers[pid := r]))
  {
    var s' := s.(readers := s.readers[pid := r]);
    forall i | 0 <= i < |s.slots| ensures SlotOk(s', i) {
      assert SlotOk(s, i);
    }
    forall name ensures CommittedOk(s', name) {
      assert CommittedOk(s, name);
    }
    forall q | q in s'.readers ensures ReaderOk(s', s'.readers[q]) {
      assert q != pid ==> ReaderOk(s, s.readers[q]);
    }
  }

  // ---- Runs ----

  lemma RunInv(r: seq<State>, n: nat)
    requires Run(r) && n < |r|
    ensures Inv(r[n])
  {
    var k := 0;
    InitInv(r[0]);
    while k < n
      invariant k <= n && Inv(r[k])
    {
      assert NextAt(r, k);
      NextKeepsInv(r[k], r[k + 1]);
      k := k + 1;
    }
  }

  lemma InitInv(s: State)
    requires Init(s)
    ensures Inv(s)
  {
  }

  lemma NextKeepsInv(s: State, s': State)
    requires Inv(s) && Next(s, s')
    ensures Inv(s')
  {
    var c: Choice :| Enabled(s, c) && s' == Step(s, c);
    StepKeepsInv(s, c);
  }

  /** What is committed stays committed, unchanged. */
  lemma CommittedForever(r: seq<State>, m: nat, n: nat, name: Bytes)
    requires Run(r) && m <= n < |r| && name in r[m].committed
    ensures name in r[n].committed && r[n].committed[name] == r[m].committed[name]
  {
    var k := m;
    while k < n
      invariant m <= k <= n && name in r[k].committed && r[k].committed[name] == r[m].committed[name]
    {
      assert NextAt(r, k);
      RunInv(r, k);
      CommittedStep(r[k], r[k + 1], name);
      k := k + 1;
    }
  }

  lemma CommittedStep(s: State, s': State, name: Bytes)
    requires Inv(s) && Next(s, s') && name in s.committed
    ensures name in s'.committed && s'.committed[name] == s.committed[name]
  {
  }

  /** A lookup that hits, at any point of any run, returns the slot and the whole
      entry some create committed for that name. */
  lemma HitIsCommitted(r: seq<State>, n: nat, q: nat)
    requires Run(r) && n < |r| && q in r[n].readers && r[n].readers[q].RDone? && r[n].readers[q].hit.Some?
    ensures var x := r[n].readers[q];
            x.name in r[n].committed && x.hit.value == r[n].committed[x.name]
  {
    RunInv(r, n);
    assert ReaderOk(r[n], r[n].readers[q]);
  }

  lemma InFlightKeeps(s: State, s': State, q: nat)
    requires Next(s, s') && q in s.readers && !s.readers[q].RDone?
    ensures q in s'.readers && s'.readers[q].name == s.readers[q].name && s'.readers[q].due == s.readers[q].due
  {
  }

  /** Once a create of `name` has returned, a lookup of it that begins at state m
      and ends at state n hits, with the tuple that was committed at m. */
  lemma LookupAfterCreateHits(r: seq<State>, m: nat, n: nat, q: nat, name: Bytes)
    requires Run(r) && m < n < |r| && name in r[m].returned
    requires Enabled(r[m], Lookup(q, name)) && r[m + 1] == Step(r[m], Lookup(q, name))
    requires forall k: nat | m < k < n :: q in r[k].readers && !r[k].readers[q].RDone?
    requires q in r[n].readers && r[n].readers[q].RDone?
    ensures name in r[m].committed && r[n].readers[q].hit == Some(r[m].committed[name])
  {
    var k := m + 1;
    while k < n
      invariant m < k <= n && q in r[k].readers && r[k].readers[q].name == name && r[k].readers[q].due
    {
      assert NextAt(r, k);
      InFlightKeeps(r[k], r[k + 1], q);
      k := k + 1;
    }
    RunInv(r, m);
    RunInv(r, n);
    assert ReaderOk(r[n], r[n].readers[q]);
    CommittedForever(r, m, n, name);
  }
}
