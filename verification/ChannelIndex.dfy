/** The channel index: a fixed table of slots, scanned linearly, whose writers
    hold the global lock and may die after any store. It refines a finite map of
    bounded size, for every hash function. */
module ChannelIndex {
  import opened Prelude

  datatype Entry = Entry(ring: nat, capacity: nat, nonLocal: bool)

  datatype Slot = Slot(hash: nat, nameLen: nat, name: Bytes, ring: nat, capacity: nat, nonLocal: bool, version: nat)

  /** A slot holds an entry when its version is even and its name is not empty. */
  predicate Committed(s: Slot) { s.version % 2 == 0 && s.nameLen != 0 }

  function NameOf(s: Slot): Bytes { ReadBytes(s.name, s.nameLen) }

  function EntryOf(s: Slot): Entry { Entry(s.ring, s.capacity, s.nonLocal) }

  // ---- What the loops compute ----

  predicate Matches(s: Slot, h: nat, name: Bytes) {
    s.nameLen != 0 && s.hash == h && s.nameLen == |name| && NameOf(s) == name
  }

  /** `channel_index_lookup`: the first committed slot that matches. */
  function Find(chans: seq<Slot>, h: nat, name: Bytes, i: nat): Option<nat>
    decreases |chans| - i
  {
    if i >= |chans| then None
    else if chans[i].version % 2 == 0 && Matches(chans[i], h, name) then Some(i)
    else Find(chans, h, name, i + 1)
  }

  function Erased(s: Slot): Slot {
    s.(hash := 0, nameLen := 0, ring := 0, capacity := 0, nonLocal := false, version := 0)
  }

  /** First pass of `channel_index_create`. */
  function Repaired(chans: seq<Slot>, h: nat, name: Bytes, i: nat): (seq<Slot>, Option<nat>)
    decreases |chans| - i
  {
    if i >= |chans| then (chans, None)
    else if chans[i].version % 2 != 0 then Repaired(chans[i := Erased(chans[i])], h, name, i + 1)
    else if Matches(chans[i], h, name) then (chans, Some(i))
    else Repaired(chans, h, name, i + 1)
  }

  function FirstEmpty(chans: seq<Slot>, i: nat): (r: Option<nat>)
    ensures r.Some? ==> r.value < |chans|
    decreases |chans| - i
  {
    if i >= |chans| then None else if chans[i].nameLen == 0 then Some(i) else FirstEmpty(chans, i + 1)
  }

  function FilledWith(s: Slot, h: nat, name: Bytes, e: Entry): Slot {
    s.(hash := h, nameLen := |name|, name := Overlay(s.name, name), ring := e.ring, capacity := e.capacity,
       nonLocal := e.nonLocal, version := 2)
  }

  function CreatedIn(hash: Bytes -> nat, chans: seq<Slot>, name: Bytes, e: Entry): (seq<Slot>, Option<nat>) {
    var h := hash(name);
    var (repaired, found) := Repaired(chans, h, name, 0);
    if found.Some? then (repaired, found)
    else
      var i := FirstEmpty(repaired, 0);
      if i.None? then (repaired, None)
      else (repaired[i.value := FilledWith(repaired[i.value], h, name, e)], i)
  }

  // ---- Stores ----

  /** One store into a slot; a writer may die between any two. */
  datatype Store =
    | SetVersion(v: nat)
    | SetHash(h: nat)
    | SetLen(n: nat)
    | SetByte(k: nat, byte: Byte)     // one byte of the name field
    | SetRing(r: nat)
    | SetCapacity(c: nat)
    | SetNonLocal(b: bool)

  function PutByte(buf: Bytes, k: nat, b: Byte): Bytes {
    if k < |buf| then buf[k := b] else buf + [b]
  }

  function Apply(s: Slot, st: Store): Slot {
    match st
    case SetVersion(v) => s.(version := v)
    case SetHash(h) => s.(hash := h)
    case SetLen(n) => s.(nameLen := n)
    case SetByte(k, b) => s.(name := PutByte(s.name, k, b))
    case SetRing(r) => s.(ring := r)
    case SetCapacity(c) => s.(capacity := c)
    case SetNonLocal(b) => s.(nonLocal := b)
  }

  function ApplyFirst(s: Slot, stores: seq<Store>, n: nat): Slot
    requires n <= |stores|
  {
    if n == 0 then s else Apply(ApplyFirst(s, stores, n - 1), stores[n - 1])
  }

  /** The name is copied byte by byte. */
  function NameStores(name: Bytes): (r: seq<Store>)
    ensures |r| == |name|
  {
    seq(|name|, k requires 0 <= k < |name| => SetByte(k, name[k]))
  }

  /** Filling an empty slot. */
  function Writing(hash: nat, name: Bytes, e: Entry): (r: seq<Store>)
    ensures |r| == |name| + 7
  {
    [SetVersion(1), SetHash(hash), SetLen(|name|)] + NameStores(name)
    + [SetRing(e.ring), SetCapacity(e.capacity), SetNonLocal(e.nonLocal), SetVersion(2)]
  }

  /** Erasing a slot whose writer died. */
  function Repairing(): seq<Store> {
    [SetVersion(1), SetHash(0), SetLen(0), SetRing(0), SetCapacity(0), SetNonLocal(false), SetVersion(0)]
  }

  /** Stores that open with an odd version, close with an even one and leave the
      version alone in between. */
  predicate Bracketed(stores: seq<Store>) {
    && |stores| >= 2
    && stores[0] == SetVersion(1)
    && stores[|stores| - 1].SetVersion? && stores[|stores| - 1].v % 2 == 0
    && forall k | 0 < k < |stores| - 1 :: !stores[k].SetVersion?
  }

  /** A writer that dies inside a bracket leaves the slot odd, hence invisible. */
  lemma {:induction false} HalfWrittenIsOdd(s: Slot, stores: seq<Store>, n: nat)
    requires Bracketed(stores) && 0 < n < |stores|
    ensures ApplyFirst(s, stores, n).version == 1
  {
    if n > 1 {
      HalfWrittenIsOdd(s, stores, n - 1);
    } else {
      assert ApplyFirst(s, stores, 0) == s;
    }
  }

  /** After the first k bytes of the name. */
  lemma {:induction false} NameSoFar(s: Slot, hash: nat, name: Bytes, e: Entry, k: nat)
    requires k <= |name|
    ensures ApplyFirst(s, Writing(hash, name, e), 3 + k)
            == s.(version := 1, hash := hash, nameLen := |name|, name := Overlay(s.name, name[..k]))
  {
    var st := Writing(hash, name, e);
    if k == 0 {
      assert ApplyFirst(s, st, 1) == s.(version := 1) by { assert ApplyFirst(s, st, 0) == s; }
      assert ApplyFirst(s, st, 2) == s.(version := 1, hash := hash);
    } else {
      NameSoFar(s, hash, name, e, k - 1);
      assert st[3 + (k - 1)] == SetByte(k - 1, name[k - 1]);
      assert PutByte(Overlay(s.name, name[..k - 1]), k - 1, name[k - 1]) == Overlay(s.name, name[..k]);
    }
  }

  lemma WritingBracketed(hash: nat, name: Bytes, e: Entry)
    ensures Bracketed(Writing(hash, name, e))
  {
  }

  /** All the stores together commit exactly the name and entry. */
  lemma WritingCommits(s: Slot, hash: nat, name: Bytes, e: Entry)
    ensures Bracketed(Writing(hash, name, e))
    ensures var s' := ApplyFirst(s, Writing(hash, name, e), |name| + 7);
            s' == FilledWith(s, hash, name, e) && NameOf(s') == name && EntryOf(s') == e
  {
    var st, n := Writing(hash, name, e), 3 + |name|;
    WritingBracketed(hash, name, e);
    NameSoFar(s, hash, name, e, |name|);
    assert name[..|name|] == name;
    var s4 := s.(version := 1, hash := hash, nameLen := |name|, name := Overlay(s.name, name));
    assert ApplyFirst(s, st, n) == s4;
    assert ApplyFirst(s, st, n + 1) == s4.(ring := e.ring);
    assert ApplyFirst(s, st, n + 2) == s4.(ring := e.ring, capacity := e.capacity);
    assert ApplyFirst(s, st, n + 3) == s4.(ring := e.ring, capacity := e.capacity, nonLocal := e.nonLocal);
  }

  lemma RepairingErases(s: Slot)
    ensures Bracketed(Repairing())
    ensures ApplyFirst(s, Repairing(), 7) == Erased(s)
  {
    var st := Repairing();
    assert ApplyFirst(s, st, 1) == s.(version := 1) by { assert ApplyFirst(s, st, 0) == s; }
    assert ApplyFirst(s, st, 2) == s.(version := 1, hash := 0);
    assert ApplyFirst(s, st, 3) == s.(version := 1, hash := 0, nameLen := 0);
    assert ApplyFirst(s, st, 4) == s.(version := 1, hash := 0, nameLen := 0, ring := 0);
    assert ApplyFirst(s, st, 5) == s.(version := 1, hash := 0, nameLen := 0, ring := 0, capacity := 0);
  }

  // ---- The map a table stands for ----

  function TableOf(slots: seq<Slot>): map<Bytes, Entry> {
    if slots == [] then map[]
    else
      var t, s := TableOf(slots[..|slots| - 1]), slots[|slots| - 1];
      if Committed(s) then t[NameOf(s) := EntryOf(s)] else t
  }

  /** Every committed slot is whole, and no two have the same name. */
  ghost predicate Sound(slots: seq<Slot>, hash: Bytes -> nat) {
    && (forall i | 0 <= i < |slots| && Committed(slots[i]) :: Whole(slots[i], hash))
    && (forall i, j | 0 <= i < j < |slots| && Committed(slots[i]) && Committed(slots[j]) ::
          NameOf(slots[i]) != NameOf(slots[j]))
  }

  predicate Whole(s: Slot, hash: Bytes -> nat) {
    s.nameLen <= |s.name| && s.nameLen <= NAME_WIDTH && s.hash == hash(NameOf(s))
  }

  lemma {:induction false} TableHas(slots: seq<Slot>, hash: Bytes -> nat, i: nat)
    requires Sound(slots, hash) && i < |slots| && Committed(slots[i])
    ensures NameOf(slots[i]) in TableOf(slots) && TableOf(slots)[NameOf(slots[i])] == EntryOf(slots[i])
  {
    var n := |slots| - 1;
    if i < n {
      var front := slots[..n];
      assert forall k | 0 <= k < n :: front[k] == slots[k];
      TableHas(front, hash, i);
    }
  }

  lemma {:induction false} TableOnly(slots: seq<Slot>, name: Bytes) returns (i: nat)
    requires name in TableOf(slots)
    ensures i < |slots| && Committed(slots[i]) && NameOf(slots[i]) == name
  {
    var n := |slots| - 1;
    if Committed(slots[n]) && NameOf(slots[n]) == name {
      i := n;
    } else {
      i := TableOnly(slots[..n], name);
    }
  }

  /** Two tables with the same committed slots stand for the same map. */
  lemma SameTable(slots: seq<Slot>, slots': seq<Slot>, hash: Bytes -> nat)
    requires |slots'| == |slots| && Sound(slots, hash)
    requires forall i | 0 <= i < |slots| :: Committed(slots'[i]) == Committed(slots[i])
    requires forall i | 0 <= i < |slots| && Committed(slots[i]) :: slots'[i] == slots[i]
    ensures Sound(slots', hash) && TableOf(slots') == TableOf(slots)
  {
    forall name | name in TableOf(slots) ensures name in TableOf(slots') && TableOf(slots')[name] == TableOf(slots)[name] {
      var i := TableOnly(slots, name);
      TableHas(slots, hash, i);
      TableHas(slots', hash, i);
    }
    forall name | name in TableOf(slots') ensures name in TableOf(slots) {
      var i := TableOnly(slots', name);
      TableHas(slots, hash, i);
    }
  }

  /** Committing a fresh name in a slot that held nothing adds it to the map. */
  lemma AddedTable(slots: seq<Slot>, slots': seq<Slot>, hash: Bytes -> nat, i: nat, name: Bytes, e: Entry)
    requires Sound(slots, hash) && i < |slots| == |slots'| && !Committed(slots[i]) && name !in TableOf(slots)
    requires slots' == slots[i := slots'[i]] && Committed(slots'[i]) && Whole(slots'[i], hash)
    requires NameOf(slots'[i]) == name && EntryOf(slots'[i]) == e
    ensures Sound(slots', hash) && TableOf(slots') == TableOf(slots)[name := e]
  {
    forall j | 0 <= j < |slots| && Committed(slots[j]) ensures NameOf(slots[j]) != name {
      TableHas(slots, hash, j);
    }
    var t', t := TableOf(slots'), TableOf(slots)[name := e];
    TableHas(slots', hash, i);
    forall n | n in t' ensures n in t && t[n] == t'[n] {
      var j := TableOnly(slots', n);
      TableHas(slots', hash, j);
      if j != i {
        TableHas(slots, hash, j);
      }
    }
    forall n | n in t ensures n in t' {
      if n != name {
        var j := TableOnly(slots, n);
        TableHas(slots', hash, j);
      }
    }
  }

  /** A table whose every slot is committed stands for a map of its own size. */
  lemma {:induction false} TableSize(slots: seq<Slot>, hash: Bytes -> nat)
    requires Sound(slots, hash)
    ensures |TableOf(slots)| <= |slots|
    ensures (forall i | 0 <= i < |slots| :: Committed(slots[i])) ==> |TableOf(slots)| == |slots|
  {
    if slots != [] {
      var n := |slots| - 1;
      var front := slots[..n];
      TableSize(front, hash);
      if NameOf(slots[n]) in TableOf(front) && Committed(slots[n]) {
        var i := TableOnly(front, NameOf(slots[n]));
        assert false;
      }
    }
  }

  /** Committed slots are as before and no other became committed. */
  ghost predicate Kept(slots: seq<Slot>, slots': seq<Slot>) {
    && |slots'| == |slots|
    && (forall i | 0 <= i < |slots| :: Committed(slots'[i]) == Committed(slots[i]))
    && (forall i | 0 <= i < |slots| && Committed(slots[i]) :: slots'[i] == slots[i])
  }

  // ---- What the functions mean for the map ----

  lemma {:induction false} FindFrom(slots: seq<Slot>, hash: Bytes -> nat, name: Bytes, i: nat)
    requires Sound(slots, hash)
    ensures var f := Find(slots, hash(name), name, i);
            && (f.Some? ==> f.value < |slots| && Committed(slots[f.value]) && NameOf(slots[f.value]) == name)
            && (f.None? ==> forall k | i <= k < |slots| && Committed(slots[k]) :: NameOf(slots[k]) != name)
    decreases |slots| - i
  {
    if i < |slots| {
      FindFrom(slots, hash, name, i + 1);
    }
  }

  /** A lookup is the map's answer. */
  lemma FindMeans(slots: seq<Slot>, hash: Bytes -> nat, name: Bytes)
    requires Sound(slots, hash)
    ensures var f := Find(slots, hash(name), name, 0);
            && (f.Some? <==> name in TableOf(slots))
            && (f.Some? ==> f.value < |slots| && Committed(slots[f.value]) && NameOf(slots[f.value]) == name
                            && EntryOf(slots[f.value]) == TableOf(slots)[name])
  {
    FindFrom(slots, hash, name, 0);
    var f := Find(slots, hash(name), name, 0);
    if f.Some? {
      TableHas(slots, hash, f.value);
    } else if name in TableOf(slots) {
      var j := TableOnly(slots, name);
    }
  }

  /** The first pass of a create changes no entry, and leaves even versions behind it. */
  lemma {:induction false} RepairedMeans(slots: seq<Slot>, hash: Bytes -> nat, name: Bytes, i: nat)
    requires Sound(slots, hash)
    ensures var (s', f) := Repaired(slots, hash(name), name, i);
            && Kept(slots, s')
            && (f.Some? ==> f.value < |slots| && Committed(slots[f.value]) && NameOf(slots[f.value]) == name)
            && (f.None? ==> forall k | i <= k < |slots| ::
                  s'[k].version % 2 == 0 && (Committed(slots[k]) ==> NameOf(slots[k]) != name))
    decreases |slots| - i
  {
    if i < |slots| {
      if slots[i].version % 2 != 0 {
        var slots1 := slots[i := Erased(slots[i])];
        SameTable(slots, slots1, hash);
        RepairedMeans(slots1, hash, name, i + 1);
        ErasedStays(slots1, hash(name), name, i + 1, i);
      } else if Matches(slots[i], hash(name), name) {
      } else {
        RepairedMeans(slots, hash, name, i + 1);
        ErasedStays(slots, hash(name), name, i + 1, i);
      }
    }
  }

  /** The pass does not touch slots behind it. */
  lemma {:induction false} ErasedStays(slots: seq<Slot>, h: nat, name: Bytes, i: nat, k: nat)
    requires k < i && k < |slots|
    ensures var s' := Repaired(slots, h, name, i).0; |s'| == |slots| && s'[k] == slots[k]
    decreases |slots| - i
  {
    if i < |slots| {
      if slots[i].version % 2 != 0 {
        ErasedStays(slots[i := Erased(slots[i])], h, name, i + 1, k);
      } else {
        ErasedStays(slots, h, name, i + 1, k);
      }
    }
  }

  lemma {:induction false} FirstEmptyMeans(slots: seq<Slot>, i: nat)
    ensures var f := FirstEmpty(slots, i);
            && (f.Some? ==> slots[f.value].nameLen == 0)
            && (f.None? ==> forall k | i <= k < |slots| :: slots[k].nameLen != 0)
    decreases |slots| - i
  {
    if i < |slots| {
      FirstEmptyMeans(slots, i + 1);
    }
  }

  /** Every slot holds an entry. */
  predicate AllCommitted(slots: seq<Slot>) { forall i | 0 <= i < |slots| :: Committed(slots[i]) }

  /** A create on the map: an existing entry stays as it is, a fresh name is added,
      and the table is full exactly when every slot holds an entry. */
  lemma CreatedMeans(hash: Bytes -> nat, slots: seq<Slot>, name: Bytes, e: Entry)
    requires Sound(slots, hash) && 0 < |name| <= NAME_WIDTH
    ensures var (s', r) := CreatedIn(hash, slots, name, e);
            && |s'| == |slots| && Sound(s', hash)
            && (r.None? <==> name !in TableOf(slots) && AllCommitted(slots))
            && TableOf(s') == if r.None? || name in TableOf(slots) then TableOf(slots) else TableOf(slots)[name := e]
  {
    var (s1, found) := Repaired(slots, hash(name), name, 0);
    RepairedMeans(slots, hash, name, 0);
    SameTable(slots, s1, hash);
    if found.Some? {
      TableHas(slots, hash, found.value);
    } else {
      if name in TableOf(slots) {
        var j := TableOnly(slots, name);
      }
      FirstEmptyMeans(s1, 0);
      var i := FirstEmpty(s1, 0);
      if i.Some? {
        var s2 := s1[i.value := FilledWith(s1[i.value], hash(name), name, e)];
        assert NameOf(s2[i.value]) == name;
        AddedTable(s1, s2, hash, i.value, name, e);
        assert !Committed(slots[i.value]);
      } else {
        assert forall k | 0 <= k < |slots| :: Committed(s1[k]);
      }
    }
  }

  /** Stores leave the other slots alone; from an uncommitted slot, a bracket cut
      short leaves an uncommitted slot. */
  lemma CutShort(s: Slot, stores: seq<Store>, n: nat)
    requires Bracketed(stores) && n < |stores| && !Committed(s)
    ensures !Committed(ApplyFirst(s, stores, n))
  {
    if n > 0 {
      HalfWrittenIsOdd(s, stores, n);
    }
  }

  // ---- The table in memory ----

  datatype Created = Existing(slot: nat) | Added(slot: nat) | IndexFull | Died

  /** Stores enough for a create of this name to finish: seven to erase each slot,
      then seven and one per byte of the name. */
  function Enough(n: nat, name: Bytes): nat { 7 * n + |name| + 7 }

  class Index {
    const hash: Bytes -> nat
    const slots: array<Slot>

    ghost predicate Valid()
      reads slots
    {
      Sound(slots[..], hash)
    }

    ghost function Table(): map<Bytes, Entry>
      reads slots
    {
      TableOf(slots[..])
    }

    /** What `shm_init` makes of a region that may hold anything. */
    constructor (hash: Bytes -> nat, region: array<Slot>)
      modifies region
      ensures this.hash == hash && slots == region && Valid() && Table() == map[]
    {
      this.hash := hash;
      slots := region;
      new;
      var i := 0;
      while i < slots.Length
        invariant 0 <= i <= slots.Length
        invariant forall k | 0 <= k < i :: slots[k].nameLen == 0
      {
        slots[i] := slots[i].(nameLen := 0, ring := 0, capacity := 0, nonLocal := false, version := 0);
        i := i + 1;
      }
      EmptyTable(slots[..]);
    }

    /** `channel_index_lookup`, with no writer running: exactly the map's answer,
        whatever the hash function. */
    method Lookup(name: Bytes) returns (r: Option<(nat, Entry)>)
      requires Valid()
      ensures r.Some? <==> name in Table()
      ensures r.Some? ==>
                && r.value.0 < slots.Length && Committed(slots[r.value.0]) && NameOf(slots[r.value.0]) == name
                && r.value.1 == Table()[name]
      ensures Find(slots[..], hash(name), name, 0) == if r.Some? then Some(r.value.0) else None
    {
      FindMeans(slots[..], hash, name);
      var h := hash(name);
      var i := 0;
      while i < slots.Length
        invariant 0 <= i <= slots.Length
        invariant Find(slots[..], h, name, i) == Find(slots[..], h, name, 0)
      {
        var s := slots[i];
        if s.nameLen != 0 && s.hash == h && s.nameLen == |name| && s.version % 2 == 0 && NameOf(s) == name {
          return Some((i, EntryOf(s)));
        }
        i := i + 1;
      }
      return None;
    }

    /** Issue the stores one by one to slot i while the writer lives. */
    method RunStores(i: nat, stores: seq<Store>, budget: nat) returns (left: nat, died: bool)
      requires i < slots.Length
      modifies slots
      ensures died <==> budget < |stores|
      ensures left == if died then 0 else budget - |stores|
      ensures slots[..] == old(slots[..])[i := ApplyFirst(old(slots[i]), stores, if died then budget else |stores|)]
    {
      var n := 0;
      left, died := budget, false;
      while n < |stores|
        invariant n <= |stores| && n + left == budget && !died
        invariant slots[..] == old(slots[..])[i := ApplyFirst(old(slots[i]), stores, n)]
      {
        if left == 0 {
          return 0, true;
        }
        slots[i] := Apply(slots[i], stores[n]);
        left := left - 1;
        n := n + 1;
      }
    }

    /** `channel_index_create` by a lock holder that dies after `budget` stores. An
        existing entry is returned unchanged; a fresh name is added to the map; a
        full table is left as it was; a writer that dies before its last store has
        changed nothing in the map. Only slots with an odd version are erased. */
    method Create(name: Bytes, e: Entry, budget: nat) returns (r: Created)
      requires Valid() && |name| <= NAME_WIDTH
      modifies slots
      ensures Valid()
      ensures forall i | 0 <= i < slots.Length && old(Committed(slots[i])) :: slots[i] == old(slots[i])
      ensures r.Existing? ==> name in Table() && Table() == old(Table())
      ensures r.Existing? ==> r.slot < slots.Length && Committed(slots[r.slot]) && NameOf(slots[r.slot]) == name
      ensures r.Added? ==> (name == [] || name !in old(Table()))
                           && Table() == if name == [] then old(Table()) else old(Table())[name := e]
      ensures r.IndexFull? ==> (name == [] || name !in old(Table())) && Table() == old(Table()) && |Table()| == slots.Length
      ensures r.Died? ==> Table() == old(Table())
      ensures budget >= Enough(slots.Length, name) ==> !r.Died?
      ensures !r.Died? ==>
                (slots[..], if r.IndexFull? then None else Some(r.slot)) == CreatedIn(hash, old(slots[..]), name, e)
    {
      var left;
      r, left := Scan(name, budget);
      if r.Existing? || r.Died? {
        return;
      }
      r := Fill(name, e, left);
    }

    /** Erase slot i, whose writer died. */
    method EraseSlot(i: nat, budget: nat) returns (left: nat, died: bool)
      requires i < slots.Length && slots[i].version % 2 != 0
      modifies slots
      ensures died <==> budget < 7
      ensures left == if died then 0 else budget - 7
      ensures slots[..] == old(slots[..])[i := slots[i]] && !Committed(slots[i])
      ensures !died ==> slots[i] == Erased(old(slots[i]))
    {
      ghost var s := slots[i];
      RepairingErases(s);
      left, died := RunStores(i, Repairing(), budget);
      if died {
        CutShort(s, Repairing(), budget);
      }
    }

    /** First pass: look for the name, erasing the slots of dead writers on the way. */
    method Scan(name: Bytes, budget: nat) returns (r: Created, left: nat)
      requires Valid()
      modifies slots
      ensures Valid() && Table() == old(Table())
      ensures forall i | 0 <= i < slots.Length && old(Committed(slots[i])) :: slots[i] == old(slots[i])
      ensures r.Existing? || r.Died? || r.IndexFull?
      ensures r.Existing? ==>
                name in Table() && r.slot < slots.Length && Committed(slots[r.slot]) && NameOf(slots[r.slot]) == name
      ensures r.IndexFull? ==>
                (name == [] || name !in Table()) && forall i | 0 <= i < slots.Length :: slots[i].version % 2 == 0
      ensures budget >= Enough(slots.Length, name) ==> !r.Died? && left >= |name| + 7
      ensures !r.Died? ==>
                (slots[..], if r.Existing? then Some(r.slot) else None) == Repaired(old(slots[..]), hash(name), name, 0)
    {
      ghost var before := slots[..];
      var h := hash(name);
      left := budget;
      var i := 0;
      while i < slots.Length
        invariant 0 <= i <= slots.Length
        invariant Scanned(before, slots[..], i, h, name)
        invariant budget >= Enough(slots.Length, name) ==> left >= 7 * (slots.Length - i) + |name| + 7
      {
        var s := slots[i];
        ghost var now := slots[..];
        if s.version % 2 != 0 {
          var died;
          left, died := EraseSlot(i, left);
          if died {
            SameTable(before, slots[..], hash);
            return Died, 0;
          }
        } else if s.nameLen != 0 && s.hash == h && s.nameLen == |name| && NameOf(s) == name {
          TableHas(before, hash, i);
          SameTable(before, slots[..], hash);
          return Existing(i), left;
        }
        ScannedOneMore(before, now, slots[..], i, h, name, hash);
        i := i + 1;
      }
      SameTable(before, slots[..], hash);
      if name in Table() {
        var j := TableOnly(slots[..], name);
      }
      return IndexFull, left;
    }

    /** Write name and entry into the empty slot i. */
    method WriteSlot(i: nat, name: Bytes, e: Entry, budget: nat) returns (died: bool)
      requires i < slots.Length && slots[i].nameLen == 0 && |name| <= NAME_WIDTH
      modifies slots
      ensures died <==> budget < |name| + 7
      ensures slots[..] == old(slots[..])[i := slots[i]]
      ensures if died then !Committed(slots[i])
              else slots[i] == FilledWith(old(slots[i]), hash(name), name, e) && Whole(slots[i], hash)
                   && NameOf(slots[i]) == name && EntryOf(slots[i]) == e
    {
      ghost var s := slots[i];
      var stores := Writing(hash(name), name, e);
      WritingCommits(s, hash(name), name, e);
      var left;
      left, died := RunStores(i, stores, budget);
      if died {
        CutShort(s, stores, budget);
      }
    }

    /** Second pass: fill the first slot whose name is empty. */
    method Fill(name: Bytes, e: Entry, budget: nat) returns (r: Created)
      requires Valid() && |name| <= NAME_WIDTH && (name == [] || name !in Table())
      requires forall i | 0 <= i < slots.Length :: slots[i].version % 2 == 0
      modifies slots
      ensures Valid() && !r.Existing?
      ensures forall i | 0 <= i < slots.Length && old(Committed(slots[i])) :: slots[i] == old(slots[i])
      ensures r.Added? ==> Table() == if name == [] then old(Table()) else old(Table())[name := e]
      ensures r.IndexFull? ==> Table() == old(Table()) && |Table()| == slots.Length
      ensures r.Died? ==> Table() == old(Table())
      ensures budget >= |name| + 7 ==> !r.Died?
      ensures !r.Died? ==>
                && (if r.IndexFull? then None else Some(r.slot)) == FirstEmpty(old(slots[..]), 0)
                && slots[..] ==
                   if r.Added? then old(slots[..])[r.slot := FilledWith(old(slots[..])[r.slot], hash(name), name, e)]
                   else old(slots[..])
    {
      ghost var before := slots[..];
      var i := 0;
      while i < slots.Length
        invariant 0 <= i <= slots.Length && slots[..] == before
        invariant forall k | 0 <= k < i :: slots[k].nameLen != 0
        invariant FirstEmpty(before, i) == FirstEmpty(before, 0)
      {
        if slots[i].nameLen == 0 {
          var died := WriteSlot(i, name, e, budget);
          if died || name == [] {
            SameTable(before, slots[..], hash);
          } else {
            AddedTable(before, slots[..], hash, i, name, e);
          }
          return if died then Died else Added(i);
        }
        i := i + 1;
      }
      TableSize(slots[..], hash);
      return IndexFull;
    }
  }

  /** The first pass has got to slot i without meeting the name. */
  ghost predicate Scanned(slots: seq<Slot>, slots': seq<Slot>, i: nat, h: nat, name: Bytes) {
    && Kept(slots, slots') && i <= |slots|
    && (forall k | 0 <= k < i :: slots'[k].version % 2 == 0 && (Committed(slots'[k]) ==> NameOf(slots'[k]) != name))
    && (forall k | i <= k < |slots| :: slots'[k] == slots[k])
    && Repaired(slots', h, name, i) == Repaired(slots, h, name, 0)
  }

  lemma ScannedOneMore(slots: seq<Slot>, now: seq<Slot>, now': seq<Slot>, i: nat, h: nat, name: Bytes, hash: Bytes -> nat)
    requires Sound(slots, hash) && h == hash(name) && i < |slots| && Scanned(slots, now, i, h, name)
    requires now' == if now[i].version % 2 != 0 then now[i := Erased(now[i])] else now
    requires now[i].version % 2 != 0 || !Matches(now[i], h, name)
    ensures Scanned(slots, now', i + 1, h, name)
  {
    assert Committed(slots[i]) ==> Whole(slots[i], hash);
  }

  lemma {:induction false} EmptyTable(slots: seq<Slot>)
    requires forall k | 0 <= k < |slots| :: slots[k].nameLen == 0
    ensures TableOf(slots) == map[]
  {
    if slots != [] {
      EmptyTable(slots[..|slots| - 1]);
    }
  }
}
