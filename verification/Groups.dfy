/** The group index with its member arrays. A lookup by name ignores the active
    flag and stale inactive copies of a name stay in the table, yet lookups agree
    with a map of live groups: the active copy of a name is unique and always the
    lowest slot that bears it. */
module Groups {
  import opened Prelude
  import opened Members

  datatype Slot = Slot(hash: nat, nameLen: nat, name: Bytes, members: nat, count: nat, version: nat, active: bool)

  function NameOf(s: Slot): Bytes { ReadBytes(s.name, s.nameLen) }

  /** Lookups consider slots with an even version and a name. */
  predicate Named(s: Slot) { s.version % 2 == 0 && s.nameLen != 0 }

  predicate Live(s: Slot) { Named(s) && s.active }

  predicate Whole(s: Slot, hash: Bytes -> nat) {
    s.nameLen <= |s.name| && s.nameLen <= NAME_WIDTH && s.hash == hash(NameOf(s))
  }

  /** What never changes: the hash function, the size of member arrays, the lease time. */
  datatype Config = Config(hash: Bytes -> nat, maxMembers: nat, expiry: nat)

  /** The member count of a live group and the names that have an entry in its array,
      their leases expired or not. */
  datatype Book = Book(entries: set<Bytes>, count: nat)

  /** The members' memory by offset, and what the table stands for: the leases of
      every live group and its book, the slot it lives in, and the time of the last
      join. */
  datatype World = World(arrays: map<nat, seq<Member>>, groups: map<Bytes, map<Bytes, nat>>, books: map<Bytes, Book>,
                         home: map<Bytes, nat>, clock: nat)

  ghost predicate SlotOk(slots: seq<Slot>, w: World, cf: Config, i: nat)
    requires i < |slots|
  {
    var s := slots[i];
    && (s.version % 2 == 0 && s.active ==> s.nameLen != 0)
    && (Named(s) ==> Whole(s, cf.hash) && s.members in w.arrays && |w.arrays[s.members]| == cf.maxMembers)
    && (Live(s) ==>
          && NameOf(s) in w.groups && NameOf(s) in w.home && w.home[NameOf(s)] == i
          && Refines(w.arrays[s.members], w.groups[NameOf(s)], cf.expiry, w.clock)
          && NameOf(s) in w.books && w.books[NameOf(s)] == Book(ActiveNames(w.arrays[s.members]), s.count)
          && ActiveCount(w.arrays[s.members]) <= s.count)
    && (Named(s) && !s.active ==> ActiveCount(w.arrays[s.members]) == 0)
  }

  /** No slot before a live one bears its name; no two named slots share an array. */
  predicate PairOk(slots: seq<Slot>, i: nat, j: nat)
    requires i < |slots| && j < |slots|
  {
    && (i < j && Named(slots[i]) && Live(slots[j]) ==> NameOf(slots[i]) != NameOf(slots[j]))
    && (i != j && Named(slots[i]) && Named(slots[j]) ==> slots[i].members != slots[j].members)
  }

  /** The names of a group's leases fit the name field. */
  ghost predicate NamesFit(leases: map<Bytes, nat>) { forall n | n in leases :: |n| <= NAME_WIDTH }

  ghost predicate GroupOk(slots: seq<Slot>, w: World, g: Bytes) {
    && (g in w.groups <==> g in w.home) && (g in w.books <==> g in w.home)
    && (g in w.groups ==> NamesFit(w.groups[g]))
    && (g in w.home ==> w.home[g] < |slots| && Live(slots[w.home[g]]) && NameOf(slots[w.home[g]]) == g)
  }

  ghost predicate TableOk(slots: seq<Slot>, w: World, cf: Config) {
    && (forall i | 0 <= i < |slots| :: SlotOk(slots, w, cf, i))
    && (forall i, j | 0 <= i < |slots| && 0 <= j < |slots| :: PairOk(slots, i, j))
    && (forall g :: GroupOk(slots, w, g))
  }

  // ---- What the loops compute ----

  function Erased(s: Slot): Slot {
    s.(hash := 0, nameLen := 0, members := 0, count := 0, active := false, version := 0)
  }

  predicate Matches(s: Slot, h: nat, name: Bytes) {
    s.nameLen != 0 && s.hash == h && s.nameLen == |name| && NameOf(s) == name
  }

  /** `group_index_lookup`, which does not look at the active flag. */
  function Find(gs: seq<Slot>, h: nat, name: Bytes, i: nat): (r: Option<nat>)
    ensures r.Some? ==> r.value < |gs|
    decreases |gs| - i
  {
    if i >= |gs| then None
    else if gs[i].version % 2 == 0 && Matches(gs[i], h, name) then Some(i)
    else Find(gs, h, name, i + 1)
  }

  /** First pass of `group_index_create_or_find`. */
  function Repaired(gs: seq<Slot>, h: nat, name: Bytes, i: nat): (r: (seq<Slot>, Option<nat>))
    ensures |r.0| == |gs| && (r.1.Some? ==> r.1.value < |gs|)
    decreases |gs| - i
  {
    if i >= |gs| then (gs, None)
    else if gs[i].version % 2 != 0 then Repaired(gs[i := Erased(gs[i])], h, name, i + 1)
    else if gs[i].active && Matches(gs[i], h, name) then (gs, Some(i))
    else Repaired(gs, h, name, i + 1)
  }

  /** A new member array in a block that holds `raw`: no entry is active. */
  function Cleared(raw: seq<Member>): (ms: seq<Member>)
    ensures |ms| == |raw|
  {
    seq(|raw|, i requires 0 <= i < |raw| => raw[i].(active := false, join := 0))
  }

  function FirstInactive(gs: seq<Slot>, i: nat): (r: Option<nat>)
    ensures r.Some? ==> r.value < |gs|
    decreases |gs| - i
  {
    if i >= |gs| then None else if !gs[i].active then Some(i) else FirstInactive(gs, i + 1)
  }

  /** `group_index_create_or_find` asks the slab for a member array. */
  predicate Asks(hash: Bytes -> nat, gs: seq<Slot>, name: Bytes) {
    var (gs', found) := Repaired(gs, hash(name), name, 0);
    found.None? && FirstInactive(gs', 0).Some?
  }

  /** `group_index_create_or_find`, `off` being the slab's answer if it is asked and
      `raw` what that block holds. */
  function OpenedIn(hash: Bytes -> nat, gs: seq<Slot>, arrays: map<nat, seq<Member>>, name: Bytes, off: nat,
                    raw: seq<Member>): (r: (seq<Slot>, map<nat, seq<Member>>, Option<nat>))
    ensures |r.0| == |gs| && (r.2.Some? ==> r.2.value < |gs|)
  {
    var (gs', found) := Repaired(gs, hash(name), name, 0);
    var i := FirstInactive(gs', 0);
    if found.Some? then (gs', arrays, found)
    else if i.None? || off == 0 then (gs', arrays, None)
    else (gs'[i.value := Filled(gs'[i.value], name, hash(name), off)], arrays[off := Cleared(raw)], i)
  }

  function Counted(s: Slot, added: Added): Slot {
    if added.Inserted? then s.(count := s.count + 1, version := s.version + 2) else s
  }

  /** `group_member_add` on the array and slot of group i. */
  function AddedIn(gs: seq<Slot>, arrays: map<nat, seq<Member>>, i: nat, channel: Bytes, now: nat, expiry: nat)
    : (r: (seq<Slot>, map<nat, seq<Member>>, Joining))
    requires i < |gs| && gs[i].members in arrays
    ensures |r.0| == |gs|
  {
    var s := gs[i];
    var (ms, added) := AddFrom(arrays[s.members], channel, now, expiry, 0, None);
    if added.NoRoom? then (gs, arrays, GroupFull) else (gs[i := Counted(s, added)], arrays[s.members := ms], Joined)
  }

  /** `GroupManager.add`. */
  function JoinedIn(cf: Config, gs: seq<Slot>, arrays: map<nat, seq<Member>>, group: Bytes, channel: Bytes, now: nat,
                    off: nat, raw: seq<Member>): (r: (seq<Slot>, map<nat, seq<Member>>, Joining))
    ensures |r.0| == |gs|
  {
    var (gs', arrays', i) := OpenedIn(cf.hash, gs, arrays, group, off, raw);
    if i.None? || gs'[i.value].members !in arrays' then (gs', arrays', NoSlot)
    else AddedIn(gs', arrays', i.value, channel, now, cf.expiry)
  }

  function AfterRemoval(s: Slot): Slot {
    s.(count := if s.count > 0 then s.count - 1 else 0, active := s.active && s.count > 1, version := s.version + 2)
  }

  /** `GroupManager.discard`. */
  function LeftIn(hash: Bytes -> nat, gs: seq<Slot>, arrays: map<nat, seq<Member>>, group: Bytes, channel: Bytes)
    : (r: (seq<Slot>, map<nat, seq<Member>>))
    ensures |r.0| == |gs|
  {
    var i := Find(gs, hash(group), group, 0);
    if i.None? || gs[i.value].members !in arrays then (gs, arrays)
    else
      var s := gs[i.value];
      var (ms, removed) := RemoveFrom(arrays[s.members], channel, 0);
      if removed then (gs[i.value := AfterRemoval(s)], arrays[s.members := ms]) else (gs, arrays)
  }

  /** `GroupManager.get_members`. */
  function ListedIn(cf: Config, gs: seq<Slot>, arrays: map<nat, seq<Member>>, group: Bytes, now: nat): seq<Bytes> {
    var i := Find(gs, cf.hash(group), group, 0);
    if i.None? then []
    else
      var s := gs[i.value];
      if !s.active || s.count == 0 || s.members !in arrays then [] else ReadFrom(arrays[s.members], now, cf.expiry, 0)
  }

  // ---- Steps on the table ----

  /** Erasing the slot of a dead writer disturbs no group. */
  lemma EraseKeepsTable(slots: seq<Slot>, w: World, cf: Config, i: nat)
    requires TableOk(slots, w, cf) && i < |slots| && slots[i].version % 2 != 0
    ensures TableOk(slots[i := Erased(slots[i])], w, cf)
  {
    var slots' := slots[i := Erased(slots[i])];
    forall k | 0 <= k < |slots| ensures SlotOk(slots', w, cf, k) {
      assert SlotOk(slots, w, cf, k);
    }
    forall j, k | 0 <= j < |slots| && 0 <= k < |slots| ensures PairOk(slots', j, k) {
      assert PairOk(slots, j, k);
    }
    forall g ensures GroupOk(slots', w, g) {
      assert GroupOk(slots, w, g);
    }
  }

  function Filled(s: Slot, name: Bytes, hash: nat, off: nat): Slot {
    s.(hash := hash, nameLen := |name|, name := Overlay(s.name, name), members := off, count := 0, active := true,
       version := 2)
  }

  function Opened(w: World, name: Bytes, i: nat, off: nat, ms: seq<Member>): World {
    w.(arrays := w.arrays[off := ms], groups := w.groups[name := map[]], books := w.books[name := Book({}, 0)],
       home := w.home[name := i])
  }

  /** A group opened in the first inactive slot: stale copies of its name can only
      come later in the table. */
  lemma OpenKeepsTable(slots: seq<Slot>, w: World, cf: Config, name: Bytes, i: nat, off: nat, ms: seq<Member>)
    requires TableOk(slots, w, cf) && i < |slots| && name !in w.groups && 0 < |name| <= NAME_WIDTH
    requires forall k | 0 <= k < i :: slots[k].active && slots[k].version % 2 == 0
    requires !slots[i].active && slots[i].version % 2 == 0
    requires off !in w.arrays && |ms| == cf.maxMembers && ActiveCount(ms) == 0
    ensures TableOk(slots[i := Filled(slots[i], name, cf.hash(name), off)], Opened(w, name, i, off, ms), cf)
  {
    var slots', w' := slots[i := Filled(slots[i], name, cf.hash(name), off)], Opened(w, name, i, off, ms);
    assert NameOf(slots'[i]) == name;
    CountZero(ms);
    assert ActiveNames(ms) == {};
    forall k | 0 <= k < |slots| && k != i ensures Live(slots[k]) ==> NameOf(slots[k]) != name {
      assert SlotOk(slots, w, cf, k);
    }
    forall k | 0 <= k < |slots| ensures SlotOk(slots', w', cf, k) {
      assert SlotOk(slots, w, cf, k);
    }
    forall j, k | 0 <= j < |slots| && 0 <= k < |slots| ensures PairOk(slots', j, k) {
      assert PairOk(slots, j, k) && SlotOk(slots, w, cf, j) && SlotOk(slots, w, cf, k);
    }
    forall g ensures GroupOk(slots', w', g) {
      assert GroupOk(slots, w, g);
    }
  }

  function Updated(w: World, name: Bytes, off: nat, ms: seq<Member>, leases: map<Bytes, nat>, count: nat, now: nat): World {
    w.(arrays := w.arrays[off := ms], groups := w.groups[name := leases],
       books := w.books[name := Book(ActiveNames(ms), count)], clock := now)
  }

  /** Changing the members of one live group at a later time leaves the others alone. */
  lemma UpdateKeepsTable(slots: seq<Slot>, w: World, cf: Config, name: Bytes, s: Slot, ms: seq<Member>,
                         leases: map<Bytes, nat>, now: nat)
    requires TableOk(slots, w, cf) && name in w.home && w.home[name] < |slots| && w.clock <= now
    requires var i := w.home[name];
             s == slots[i].(count := s.count, version := s.version) && s.version % 2 == 0
             && |ms| == cf.maxMembers && Refines(ms, leases, cf.expiry, now) && ActiveCount(ms) <= s.count
             && NamesFit(leases)
    ensures TableOk(slots[w.home[name] := s], Updated(w, name, slots[w.home[name]].members, ms, leases, s.count, now), cf)
  {
    var i := w.home[name];
    var slots', w' := slots[i := s], Updated(w, name, slots[i].members, ms, leases, s.count, now);
    assert GroupOk(slots, w, name);
    forall k | 0 <= k < |slots| ensures SlotOk(slots', w', cf, k) {
      assert SlotOk(slots, w, cf, k) && SlotOk(slots, w, cf, i) && PairOk(slots, i, k);
      if k != i && Live(slots[k]) {
        RefinesLater(w.arrays[slots[k].members], w.groups[NameOf(slots[k])], cf.expiry, w.clock, now);
      }
    }
    forall j, k | 0 <= j < |slots| && 0 <= k < |slots| ensures PairOk(slots', j, k) {
      assert PairOk(slots, j, k);
    }
    forall g ensures GroupOk(slots', w', g) {
      assert GroupOk(slots, w, g);
    }
  }

  lemma RefinesLater(ms: seq<Member>, leases: map<Bytes, nat>, expiry: nat, clock: nat, now: nat)
    requires Refines(ms, leases, expiry, clock) && clock <= now
    ensures Refines(ms, leases, expiry, now)
  {
  }

  function Closed(w: World, name: Bytes, off: nat, ms: seq<Member>): World {
    w.(arrays := w.arrays[off := ms], groups := w.groups - {name}, books := w.books - {name}, home := w.home - {name})
  }

  /** A group whose last active entry left becomes a stale copy. */
  lemma CloseKeepsTable(slots: seq<Slot>, w: World, cf: Config, name: Bytes, s: Slot, ms: seq<Member>)
    requires TableOk(slots, w, cf) && name in w.home && w.home[name] < |slots|
    requires var i := w.home[name];
             s == slots[i].(count := s.count, version := s.version, active := false) && s.version % 2 == 0
             && |ms| == cf.maxMembers && ActiveCount(ms) == 0
    ensures TableOk(slots[w.home[name] := s], Closed(w, name, slots[w.home[name]].members, ms), cf)
  {
    var i := w.home[name];
    var slots', w' := slots[i := s], Closed(w, name, slots[i].members, ms);
    assert GroupOk(slots, w, name);
    forall k | 0 <= k < |slots| ensures SlotOk(slots', w', cf, k) {
      assert SlotOk(slots, w, cf, k) && SlotOk(slots, w, cf, i) && PairOk(slots, i, k);
    }
    forall j, k | 0 <= j < |slots| && 0 <= k < |slots| ensures PairOk(slots', j, k) {
      assert PairOk(slots, j, k);
    }
    forall g ensures GroupOk(slots', w', g) {
      assert GroupOk(slots, w, g);
    }
  }

  /** The first slot that bears a name is the live one exactly when the group is live. */
  lemma FirstIsLive(slots: seq<Slot>, w: World, cf: Config, name: Bytes, i: nat)
    requires TableOk(slots, w, cf) && i < |slots| && Named(slots[i]) && NameOf(slots[i]) == name
    requires forall k | 0 <= k < i && Named(slots[k]) :: NameOf(slots[k]) != name
    ensures slots[i].active <==> name in w.groups
    ensures name in w.groups ==> name in w.home && w.home[name] == i
  {
    assert SlotOk(slots, w, cf, i) && GroupOk(slots, w, name);
    if name in w.groups {
      assert PairOk(slots, i, w.home[name]);
    }
  }

  lemma EmptyTable(slots: seq<Slot>, cf: Config, clock: nat)
    requires forall i | 0 <= i < |slots| :: slots[i].version == 0 && slots[i].nameLen == 0 && !slots[i].active
    ensures TableOk(slots, World(map[], map[], map[], map[], clock), cf)
  {
  }

  // ---- What the functions mean for the groups ----

  /** A lookup finds the live slot of a live group, and otherwise a stale one or none. */
  lemma {:induction false} FindMeans(slots: seq<Slot>, w: World, cf: Config, name: Bytes, i: nat)
    requires TableOk(slots, w, cf) && name != []
    requires forall k | 0 <= k < i && k < |slots| && Named(slots[k]) :: NameOf(slots[k]) != name
    ensures var f := Find(slots, cf.hash(name), name, i);
            && (f.None? ==> name !in w.groups)
            && (f.Some? ==> && Named(slots[f.value]) && NameOf(slots[f.value]) == name
                            && (slots[f.value].active <==> name in w.groups)
                            && (name in w.groups ==> name in w.home && w.home[name] == f.value))
    decreases |slots| - i
  {
    assert GroupOk(slots, w, name);
    if i < |slots| {
      assert SlotOk(slots, w, cf, i);
      if slots[i].version % 2 == 0 && Matches(slots[i], cf.hash(name), name) {
        FirstIsLive(slots, w, cf, name, i);
      } else {
        FindMeans(slots, w, cf, name, i + 1);
      }
    }
  }

  /** The first pass of a create erases slots of dead writers only, and finds the
      group if and only if it is live. */
  lemma {:induction false} RepairedMeans(slots: seq<Slot>, w: World, cf: Config, name: Bytes, i: nat)
    requires TableOk(slots, w, cf)
    requires forall k | 0 <= k < i && k < |slots| ::
               slots[k].version % 2 == 0 && (Live(slots[k]) ==> NameOf(slots[k]) != name)
    ensures var (gs, f) := Repaired(slots, cf.hash(name), name, i);
            && TableOk(gs, w, cf)
            && (f.Some? ==> name in w.home && w.home[name] == f.value && name in w.groups)
            && (f.None? ==> (name != [] ==> name !in w.groups) && AllRepaired(slots, gs))
    decreases |slots| - i
  {
    assert GroupOk(slots, w, name);
    if i < |slots| {
      assert SlotOk(slots, w, cf, i);
      if slots[i].version % 2 != 0 {
        EraseKeepsTable(slots, w, cf, i);
        RepairedMeans(slots[i := Erased(slots[i])], w, cf, name, i + 1);
      } else if slots[i].active && Matches(slots[i], cf.hash(name), name) {
      } else {
        RepairedMeans(slots, w, cf, name, i + 1);
      }
    }
  }

  /** Every slot with an odd version has been erased, and no other. */
  predicate AllRepaired(slots: seq<Slot>, gs: seq<Slot>) {
    |gs| == |slots|
    && forall k | 0 <= k < |slots| :: gs[k] == if slots[k].version % 2 != 0 then Erased(slots[k]) else slots[k]
  }

  lemma {:induction false} FirstInactiveMeans(gs: seq<Slot>, i: nat)
    ensures var f := FirstInactive(gs, i);
            && (f.Some? ==> i <= f.value && !gs[f.value].active && forall k | i <= k < f.value :: gs[k].active)
            && (f.None? ==> forall k | i <= k < |gs| :: gs[k].active)
    decreases |gs| - i
  {
    if i < |gs| && gs[i].active {
      FirstInactiveMeans(gs, i + 1);
    }
  }

  /** Every slot has an active group, and no writer died in one (its slot would be
      erased and taken). */
  predicate NoRoomForGroup(slots: seq<Slot>) {
    forall i | 0 <= i < |slots| :: slots[i].active && slots[i].version % 2 == 0
  }

  /** The slab is asked for an array exactly when the group is to be opened and a slot
      is there for it. */
  lemma AsksMeans(slots: seq<Slot>, w: World, cf: Config, name: Bytes)
    requires TableOk(slots, w, cf) && GroupName(name)
    ensures Asks(cf.hash, slots, name) <==> name !in w.groups && !NoRoomForGroup(slots)
  {
    RepairedMeans(slots, w, cf, name, 0);
    FirstInactiveMeans(Repaired(slots, cf.hash(name), name, 0).0, 0);
  }

  /** A group is found or opened: what that makes of the world. */
  ghost predicate OpenedOk(slots: seq<Slot>, w: World, name: Bytes, off: nat, w': World, i: Option<nat>) {
    && w'.clock == w.clock
    && (i.Some? ==> name in w'.home && w'.home[name] == i.value)
    && (name in w.groups ==> i.Some? && w'.groups == w.groups && w'.books == w.books)
    && (name !in w.groups && i.Some? ==>
          w'.groups == w.groups[name := map[]] && w'.books == w.books[name := Book({}, 0)])
    && (i.None? ==> w'.groups == w.groups && w'.books == w.books)
    && (i.None? <==> name !in w.groups && (off == 0 || NoRoomForGroup(slots)))
  }

  lemma OpenedMeans(slots: seq<Slot>, w: World, cf: Config, name: Bytes, off: nat, raw: seq<Member>) returns (w': World)
    requires TableOk(slots, w, cf) && GroupName(name) && off !in w.arrays && |raw| == cf.maxMembers
    ensures var (gs, arrays, i) := OpenedIn(cf.hash, slots, w.arrays, name, off, raw);
            && TableOk(gs, w', cf) && w'.arrays == arrays && OpenedOk(slots, w, name, off, w', i)
            && (name in w.groups ==> arrays == w.arrays)
  {
    var (gs, found) := Repaired(slots, cf.hash(name), name, 0);
    RepairedMeans(slots, w, cf, name, 0);
    FirstInactiveMeans(gs, 0);
    var i := FirstInactive(gs, 0);
    if found.Some? || i.None? || off == 0 {
      w' := w;
    } else {
      CountZero(Cleared(raw));
      OpenKeepsTable(gs, w, cf, name, i.value, off, Cleared(raw));
      w' := Opened(w, name, i.value, off, Cleared(raw));
    }
  }

  /** An add counts if and only if the name had no entry. It gives the name an entry and
      may take those of expired names. */
  predicate Entered(was: Book, name: Bytes, now: Book) {
    && now.count == (if name in was.entries then was.count else was.count + 1)
    && name in now.entries && now.entries <= was.entries + {name}
  }

  /** An add to a live group: the lease starts or is renewed, unless the array is full. */
  ghost predicate AddedOk(w: World, cf: Config, group: Bytes, channel: Bytes, now: nat, w': World, r: Joining)
    requires group in w.groups && group in w.books
  {
    && !r.NoSlot?
    && (r.Joined? ==> w'.groups == w.groups[group := Renewed(w.groups[group], channel, now)] && w'.clock == now)
    && (r.Joined? ==> group in w'.books && w'.books == w.books[group := w'.books[group]]
                      && Entered(w.books[group], Clip(channel), w'.books[group]))
    && (r.GroupFull? ==> w' == w)
    && (r.GroupFull? <==> FullFor(w.groups[group], channel, cf.maxMembers, cf.expiry, now))
  }

  lemma AddedMeans(slots: seq<Slot>, w: World, cf: Config, group: Bytes, channel: Bytes, now: nat) returns (w': World)
    requires TableOk(slots, w, cf) && group in w.home && 0 !in channel && w.clock <= now
    ensures group in w.groups && group in w.books
    ensures w.home[group] < |slots| && slots[w.home[group]].members in w.arrays
    ensures var (gs, arrays, r) := AddedIn(slots, w.arrays, w.home[group], channel, now, cf.expiry);
            TableOk(gs, w', cf) && w'.arrays == arrays && w'.home == w.home && AddedOk(w, cf, group, channel, now, w', r)
  {
    assert GroupOk(slots, w, group);
    var i := w.home[group];
    assert SlotOk(slots, w, cf, i);
    var m := slots[i].members;
    AddMeans(w.arrays[m], w.arrays[m], 0, None, channel, now, cf.expiry, w.groups[group], w.clock);
    var (ms, added) := AddFrom(w.arrays[m], channel, now, cf.expiry, 0, None);
    NoRoomMeansFull(w.arrays[m], w.groups[group], channel, cf.expiry, w.clock, now, ms, added);
    if added.NoRoom? {
      w' := w;
    } else {
      var leases := Renewed(w.groups[group], channel, now);
      UpdateKeepsTable(slots, w, cf, group, Counted(slots[i], added), ms, leases, now);
      ListedIsActive(w.arrays[m], Clip(channel));
      assert Refines(ms, leases, cf.expiry, now) && Fresh(leases[Clip(channel)], cf.expiry, now);
      ListedIsActive(ms, Clip(channel));
      w' := Updated(w, group, m, ms, leases, Counted(slots[i], added).count, now);
    }
  }

  /** What an add comes to: the channel's lease starts or is renewed now, unless there
      is no slot or no array for a new group, or as many unexpired leases as entries
      and none of them this channel's. */
  ghost predicate JoinedOk(slots: seq<Slot>, w: World, cf: Config, group: Bytes, channel: Bytes, now: nat, off: nat, w': World,
                           r: Joining)
  {
    var was: map<Bytes, nat> := if group in w.groups then w.groups[group] else map[];
    var book := if group in w.books then w.books[group] else Book({}, 0);
    && (r.Joined? ==> w'.groups == w.groups[group := Renewed(was, channel, now)] && w'.clock == now)
    && (r.Joined? ==> group in w'.books && w'.books == w.books[group := w'.books[group]]
                      && Entered(book, Clip(channel), w'.books[group]))
    && (!r.Joined? ==> w'.clock == w.clock)
    && (r.GroupFull? ==> w'.groups == w.groups[group := was] && w'.books == w.books[group := book])
    && (r.NoSlot? ==> w'.groups == w.groups && w'.books == w.books && group !in w.groups)
    && (r.NoSlot? <==> group !in w.groups && (off == 0 || NoRoomForGroup(slots)))
    && (!r.NoSlot? ==> (r.GroupFull? <==> FullFor(was, channel, cf.maxMembers, cf.expiry, now)))
  }

  /** Opening the group, if need be, and then adding to it. */
  lemma OpenThenAdd(slots: seq<Slot>, w: World, cf: Config, group: Bytes, channel: Bytes, now: nat, off: nat, w1: World,
                    i: nat, w': World, r: Joining)
    requires (group in w.books <==> group in w.groups) && OpenedOk(slots, w, group, off, w1, Some(i))
    requires group in w1.groups && group in w1.books && AddedOk(w1, cf, group, channel, now, w', r)
    ensures JoinedOk(slots, w, cf, group, channel, now, off, w', r)
  {
    if group in w.groups {
      assert w.groups[group := w.groups[group]] == w.groups && w.books[group := w.books[group]] == w.books;
    } else {
      assert w1.groups[group := Renewed(map[], channel, now)] == w.groups[group := Renewed(map[], channel, now)];
      assert r.Joined? ==> w1.books[group := w'.books[group]] == w.books[group := w'.books[group]];
    }
  }

  lemma NotOpened(slots: seq<Slot>, w: World, cf: Config, group: Bytes, channel: Bytes, now: nat, off: nat, w': World)
    requires OpenedOk(slots, w, group, off, w', None)
    ensures JoinedOk(slots, w, cf, group, channel, now, off, w', NoSlot)
  {
  }

  lemma JoinedMeans(slots: seq<Slot>, w: World, cf: Config, group: Bytes, channel: Bytes, now: nat, off: nat,
                    raw: seq<Member>) returns (w': World)
    requires TableOk(slots, w, cf) && GroupName(group) && 0 !in channel && w.clock <= now
    requires off !in w.arrays && |raw| == cf.maxMembers
    ensures var (gs, arrays, r) := JoinedIn(cf, slots, w.arrays, group, channel, now, off, raw);
            TableOk(gs, w', cf) && w'.arrays == arrays && JoinedOk(slots, w, cf, group, channel, now, off, w', r)
  {
    var (gs, arrays, i) := OpenedIn(cf.hash, slots, w.arrays, group, off, raw);
    var w1 := OpenedMeans(slots, w, cf, group, off, raw);
    assert GroupOk(slots, w, group);
    if i.None? {
      w' := w1;
      NotOpened(slots, w, cf, group, channel, now, off, w');
    } else {
      w' := AddedMeans(gs, w1, cf, group, channel, now);
      OpenThenAdd(slots, w, cf, group, channel, now, off, w1, i.value, w',
                  AddedIn(gs, w1.arrays, i.value, channel, now, cf.expiry).2);
    }
  }

  /** The channel's lease ends, and with it the group: exactly when the channel had an
      entry and the group counted at most one member. Otherwise an entry it had is
      no longer counted. */
  ghost predicate LeftOk(w: World, cf: Config, group: Bytes, channel: Bytes, w': World) {
    && w'.clock == w.clock
    && (group !in w.groups ==> w'.groups == w.groups && w'.books == w.books)
    && (group in w.groups ==>
          && Discarded(w.groups, w'.groups, group, channel, cf.expiry, w.clock)
          && group in w.books && LeftBook(w, group, Clip(channel), w'))
  }

  ghost predicate LeftBook(w: World, group: Bytes, key: Bytes, w': World)
    requires group in w.groups && group in w.books
  {
    var book := w.books[group];
    if key in book.entries && book.count <= 1 then
      w'.groups == w.groups - {group} && w'.books == w.books - {group}
    else
      && w'.groups == w.groups[group := w.groups[group] - {key}]
      && w'.books == w.books[group := if key in book.entries then Book(book.entries - {key}, book.count - 1) else book]
  }

  lemma LeftMeans(slots: seq<Slot>, w: World, cf: Config, group: Bytes, channel: Bytes) returns (w': World)
    requires TableOk(slots, w, cf) && group != []
    ensures var (gs, arrays) := LeftIn(cf.hash, slots, w.arrays, group, channel);
            TableOk(gs, w', cf) && w'.arrays == arrays && LeftOk(w, cf, group, channel, w')
  {
    FindMeans(slots, w, cf, group, 0);
    var f := Find(slots, cf.hash(group), group, 0);
    if f.Some? {
      w' := RemovedMeans(slots, w, cf, group, f.value, channel);
    } else {
      w' := w;
    }
  }

  /** The removal, once a lookup has found slot i. */
  lemma RemovedMeans(slots: seq<Slot>, w: World, cf: Config, group: Bytes, i: nat, channel: Bytes) returns (w': World)
    requires TableOk(slots, w, cf) && i < |slots| && Named(slots[i])
    requires slots[i].active <==> group in w.groups
    requires slots[i].active ==> group in w.home && i == w.home[group]
    requires Find(slots, cf.hash(group), group, 0) == Some(i)
    ensures var (gs, arrays) := LeftIn(cf.hash, slots, w.arrays, group, channel);
            TableOk(gs, w', cf) && w'.arrays == arrays && LeftOk(w, cf, group, channel, w')
  {
    assert SlotOk(slots, w, cf, i) && GroupOk(slots, w, group);
    var s := slots[i];
    var leases: map<Bytes, nat> := if s.active then w.groups[group] else map[];
    var left := leases - {Clip(channel)};
    NothingListed(w.arrays[s.members], cf.expiry, w.clock);
    RemoveMeans(w.arrays[s.members], channel, 0, cf.expiry, leases, w.clock);
    var (ms, removed) := RemoveFrom(w.arrays[s.members], channel, 0);
    if !s.active {
      w' := w;
    } else {
      w' := RemovedFrom(slots, w, cf, group, i, ms, removed, left, Clip(channel));
    }
  }

  /** The removal from the array of a live group. */
  lemma RemovedFrom(slots: seq<Slot>, w: World, cf: Config, group: Bytes, i: nat, ms: seq<Member>, removed: bool,
                    left: map<Bytes, nat>, key: Bytes) returns (w': World)
    requires TableOk(slots, w, cf) && group in w.groups && group in w.home && i == w.home[group] < |slots|
    requires slots[i].members in w.arrays && |w.arrays[slots[i].members]| == cf.maxMembers
    requires ActiveCount(w.arrays[slots[i].members]) <= slots[i].count && slots[i].version % 2 == 0
    requires left == w.groups[group] - {key}
    requires group in w.books && w.books[group] == Book(ActiveNames(w.arrays[slots[i].members]), slots[i].count)
    requires RemoveOk(w.arrays[slots[i].members], key, cf.expiry, w.groups[group], w.clock, ms, removed)
    ensures var s := slots[i];
            && TableOk(if removed then slots[i := AfterRemoval(s)] else slots, w', cf)
            && w'.arrays == if removed then w.arrays[s.members := ms] else w.arrays
    ensures w'.clock == w.clock && LeftBook(w, group, key, w')
    ensures w'.groups == w.groups - {group} ==> forall n | n in left :: !Fresh(left[n], cf.expiry, w.clock)
  {
    var s := slots[i];
    var t := AfterRemoval(s);
    assert GroupOk(slots, w, group);
    FewerFit(w.groups[group], key);
    ListedIsActive(w.arrays[s.members], key);
    if !removed {
      UpdateKeepsTable(slots, w, cf, group, s, ms, left, w.clock);
      assert w.arrays[s.members := ms] == w.arrays && slots[i := s] == slots;
      w' := Updated(w, group, s.members, ms, left, s.count, w.clock);
    } else if s.count <= 1 {
      CloseKeepsTable(slots, w, cf, group, t, ms);
      NoneFresh(ms, left, cf.expiry, w.clock);
      w' := Closed(w, group, s.members, ms);
    } else {
      UpdateKeepsTable(slots, w, cf, group, t, ms, left, w.clock);
      w' := Updated(w, group, s.members, ms, left, t.count, w.clock);
    }
    assert group in w.groups[group := left];
  }

  /** A listing gives exactly the members of a live group whose lease has not run out. */
  ghost predicate ListedOk(w: World, cf: Config, group: Bytes, now: nat, out: seq<Bytes>) {
    && Distinct(out)
    && (group !in w.groups ==> out == [])
    && (group in w.groups ==>
          forall n :: n in out <==> n in w.groups[group] && Fresh(w.groups[group][n], cf.expiry, now))
    && forall n | n in out :: |n| <= NAME_WIDTH
  }

  lemma ListedMeans(slots: seq<Slot>, w: World, cf: Config, group: Bytes, now: nat)
    requires TableOk(slots, w, cf) && group != [] && w.clock <= now
    ensures ListedOk(w, cf, group, now, ListedIn(cf, slots, w.arrays, group, now))
  {
    FindMeans(slots, w, cf, group, 0);
    var f := Find(slots, cf.hash(group), group, 0);
    if f.Some? && slots[f.value].active {
      var s := slots[f.value];
      assert SlotOk(slots, w, cf, f.value) && GroupOk(slots, w, group);
      NoneFresh(w.arrays[s.members], w.groups[group], cf.expiry, w.clock);
      ReadOnce(w.arrays[s.members], now, cf.expiry, 0);
      forall n
        ensures n in ReadFrom(w.arrays[s.members], now, cf.expiry, 0) <==>
                  n in w.groups[group] && Fresh(w.groups[group][n], cf.expiry, now)
      {
        ReadMeans(w.arrays[s.members], now, cf.expiry, w.groups[group], w.clock, n);
      }
    }
  }

  // ---- The table ----

  /** The initial entries of a new member array: whatever the block held, no entry
      is active. */
  method ClearMembers(raw: seq<Member>) returns (ms: seq<Member>)
    ensures ms == Cleared(raw) && ActiveCount(ms) == 0
  {
    ms := raw;
    var j := 0;
    while j < |raw|
      invariant 0 <= j <= |raw| == |ms|
      invariant forall k | 0 <= k < j :: ms[k] == raw[k].(active := false, join := 0)
      invariant forall k | j <= k < |raw| :: ms[k] == raw[k]
    {
      ms := ms[j := ms[j].(active := false, join := 0)];
      j := j + 1;
    }
    CountZero(ms);
  }

  function Renewed(leases: map<Bytes, nat>, channel: Bytes, now: nat): map<Bytes, nat> { leases[Clip(channel) := now] }

  datatype Joining = Joined | GroupFull | NoSlot

  /** Names the Python layer lets through: not empty, not longer than the field. */
  predicate GroupName(name: Bytes) { 0 < |name| <= NAME_WIDTH }

  class GroupTable {
    const cf: Config
    const slots: array<Slot>
    var arrays: map<nat, seq<Member>>
    ghost var groups: map<Bytes, map<Bytes, nat>>
    ghost var books: map<Bytes, Book>
    ghost var home: map<Bytes, nat>
    ghost var clock: nat

    ghost function Now(): World
      reads this
    {
      World(arrays, groups, books, home, clock)
    }

    ghost predicate Valid()
      reads this, slots
    {
      TableOk(slots[..], Now(), cf)
    }

    /** The group part of `shm_init`, on a region that may hold anything. */
    constructor (cf: Config, region: array<Slot>)
      modifies region
      ensures Valid() && this.cf == cf && slots == region && groups == map[]
    {
      this.cf := cf;
      slots := region;
      arrays, groups, books, home, clock := map[], map[], map[], map[], 0;
      new;
      var i := 0;
      while i < slots.Length
        invariant 0 <= i <= slots.Length && slots == region
        invariant arrays == map[] && groups == map[] && books == map[] && home == map[] && clock == 0
        invariant forall k | 0 <= k < i :: slots[k].version == 0 && slots[k].nameLen == 0 && !slots[k].active
      {
        slots[i] := slots[i].(nameLen := 0, members := 0, count := 0, version := 0, active := false);
        i := i + 1;
      }
      EmptyTable(slots[..], cf, 0);
    }

    /** `group_index_lookup`, with no writer running. A group that is live is found
        and active; one that is not live is not found, or found inactive. */
    method Lookup(name: Bytes) returns (found: bool, slot: nat, off: nat, count: nat, active: bool)
      requires Valid()
      ensures name != [] ==> (found && active <==> name in groups)
      ensures found ==> slot < slots.Length && Named(slots[slot]) && NameOf(slots[slot]) == name && name != []
      ensures found ==> off == slots[slot].members && count == slots[slot].count && active == slots[slot].active
      ensures found && active ==> name in home && slot == home[name]
      ensures Find(slots[..], cf.hash(name), name, 0) == if found then Some(slot) else None
    {
      if name != [] {
        FindMeans(slots[..], Now(), cf, name, 0);
      }
      var h := cf.hash(name);
      var i := 0;
      while i < slots.Length
        invariant 0 <= i <= slots.Length
        invariant Find(slots[..], h, name, i) == Find(slots[..], h, name, 0)
      {
        var s := slots[i];
        if s.nameLen != 0 && s.hash == h && s.nameLen == |name| && s.version % 2 == 0 && NameOf(s) == name {
          return true, i, s.members, s.count, s.active;
        }
        i := i + 1;
      }
      return false, 0, 0, 0, false;
    }

    /** First pass of `group_index_create_or_find`: find the live slot of the name,
        erasing the slots of dead writers on the way. */
    method FindLive(name: Bytes) returns (r: Option<nat>)
      requires Valid()
      modifies slots
      ensures Valid()
      ensures r.Some? ==> name in home && r.value == home[name]
      ensures r.None? ==> (name != [] ==> name !in groups) && AllRepaired(old(slots[..]), slots[..])
      ensures (slots[..], r) == Repaired(old(slots[..]), cf.hash(name), name, 0)
    {
      RepairedMeans(slots[..], Now(), cf, name, 0);
      var h := cf.hash(name);
      var i := 0;
      while i < slots.Length
        invariant 0 <= i <= slots.Length
        invariant Repaired(slots[..], h, name, i) == Repaired(old(slots[..]), h, name, 0)
      {
        var s := slots[i];
        if s.version % 2 != 0 {
          ghost var before := slots[..];
          slots[i] := Erased(s);
          assert slots[..] == before[i := Erased(s)];
        } else if s.nameLen != 0 && s.active && s.hash == h && s.nameLen == |name| && NameOf(s) == name {
          return Some(i);
        }
        i := i + 1;
      }
      return None;
    }

    /** `group_index_create_or_find`. `off` is the slab's answer if it is asked, 0 or
        a block not handed out before; `raw` is what that block holds. */
    method CreateOrFind(name: Bytes, off: nat, raw: seq<Member>) returns (r: Option<(nat, nat)>)
      requires Valid() && GroupName(name) && off !in arrays && |raw| == cf.maxMembers
      modifies this, slots
      ensures Valid() && clock == old(clock)
      ensures r.Some? ==> name in home && home[name] < slots.Length && r.value == (home[name], slots[home[name]].members)
      ensures OpenedOk(old(slots[..]), old(Now()), name, off, Now(), if r.Some? then Some(r.value.0) else None)
      ensures name in old(groups) ==> arrays == old(arrays)
      ensures (slots[..], arrays, if r.Some? then Some(r.value.0) else None)
              == OpenedIn(cf.hash, old(slots[..]), old(arrays), name, off, raw)
    {
      ghost var w' := OpenedMeans(slots[..], Now(), cf, name, off, raw);
      var live := FindLive(name);
      ghost var repaired := slots[..];
      groups, books, home := w'.groups, w'.books, w'.home;
      if live.Some? {
        return Some((live.value, slots[live.value].members));
      }
      var i := 0;
      while i < slots.Length
        invariant 0 <= i <= slots.Length && slots[..] == repaired
        invariant FirstInactive(repaired, i) == FirstInactive(repaired, 0)
      {
        if !slots[i].active {
          if off == 0 {
            return None;
          }
          var ms := ClearMembers(raw);
          arrays := arrays[off := ms];
          slots[i] := Filled(slots[i], name, cf.hash(name), off);
          assert slots[..] == repaired[i := Filled(repaired[i], name, cf.hash(name), off)];
          return Some((i, off));
        }
        i := i + 1;
      }
      return None;
    }

    /** `GroupManager.add`: the channel's lease starts or is renewed now, unless there
        is no slot or no array for a new group, or as many unexpired leases as entries
        and none of them this channel's. */
    method AddMember(group: Bytes, channel: Bytes, now: nat, off: nat, raw: seq<Member>) returns (r: Joining)
      requires Valid() && GroupName(group) && 0 !in channel && off !in arrays && |raw| == cf.maxMembers && clock <= now
      modifies this, slots
      ensures Valid()
      ensures JoinedOk(old(slots[..]), old(Now()), cf, group, channel, now, off, Now(), r)
      ensures (slots[..], arrays, r) == JoinedIn(cf, old(slots[..]), old(arrays), group, channel, now, off, raw)
    {
      ghost var before, w := slots[..], Now();
      assert GroupOk(before, w, group);
      var slot := CreateOrFind(group, off, raw);
      ghost var w1 := Now();
      if slot.None? {
        NotOpened(before, w, cf, group, channel, now, off, w1);
        return NoSlot;
      }
      assert SlotOk(slots[..], Now(), cf, slot.value.0) by {
        assert GroupOk(slots[..], Now(), group);
      }
      r := JoinLive(group, slot.value.0, slot.value.1, channel, now);
      OpenThenAdd(before, w, cf, group, channel, now, off, w1, slot.value.0, Now(), r);
    }

    /** `group_member_add` on the array and the slot of a live group. */
    method JoinLive(group: Bytes, i: nat, members: nat, channel: Bytes, now: nat) returns (r: Joining)
      requires Valid() && group in home && i == home[group] && 0 !in channel && clock <= now
      requires i < slots.Length && members == slots[i].members
      modifies this, slots
      ensures Valid() && group in old(groups) && group in old(books)
      ensures AddedOk(old(Now()), cf, group, channel, now, Now(), r)
      ensures members in old(arrays)
      ensures (slots[..], arrays, r) == AddedIn(old(slots[..]), old(arrays), i, channel, now, cf.expiry)
    {
      ghost var before := slots[..];
      ghost var w' := AddedMeans(before, Now(), cf, group, channel, now);
      assert SlotOk(before, Now(), cf, i) && GroupOk(before, Now(), group);
      var ms, added := Add(arrays[members], channel, now, cf.expiry, groups[group], clock);
      if added.NoRoom? {
        return GroupFull;
      }
      arrays := arrays[members := ms];
      groups, books, clock := w'.groups, w'.books, w'.clock;
      slots[i] := Counted(slots[i], added);
      assert slots[..] == before[i := Counted(before[i], added)];
      return Joined;
    }

    /** `GroupManager.discard`: the channel's lease ends. A group goes away only when
        no lease is left that has not run out. */
    method DiscardMember(group: Bytes, channel: Bytes)
      requires Valid() && GroupName(group) && 0 !in channel
      modifies this, slots
      ensures Valid() && LeftOk(old(Now()), cf, group, channel, Now())
      ensures (slots[..], arrays) == LeftIn(cf.hash, old(slots[..]), old(arrays), group, channel)
    {
      var found, i, off, count, active := Lookup(group);
      if found {
        RemoveMember(group, i, channel);
      }
    }

    /** `group_member_remove` on the array and slot that a lookup of the group found. */
    method RemoveMember(group: Bytes, i: nat, channel: Bytes)
      requires Valid() && 0 !in channel && i < slots.Length && Named(slots[i]) && NameOf(slots[i]) == group
      requires slots[i].active <==> group in groups
      requires slots[i].active ==> group in home && i == home[group]
      requires Find(slots[..], cf.hash(group), group, 0) == Some(i)
      modifies this, slots
      ensures Valid() && LeftOk(old(Now()), cf, group, channel, Now())
      ensures (slots[..], arrays) == LeftIn(cf.hash, old(slots[..]), old(arrays), group, channel)
    {
      ghost var before := slots[..];
      assert SlotOk(before, Now(), cf, i) && GroupOk(before, Now(), group);
      ghost var w' := RemovedMeans(before, Now(), cf, group, i, channel);
      var s := slots[i];
      ghost var leases: map<Bytes, nat> := if s.active then groups[group] else map[];
      NothingListed(arrays[s.members], cf.expiry, clock);
      var ms, removed := Remove(arrays[s.members], channel, cf.expiry, leases, clock);
      groups, books, home := w'.groups, w'.books, w'.home;
      if removed {
        arrays := arrays[s.members := ms];
        slots[i] := AfterRemoval(s);
        assert slots[..] == before[i := AfterRemoval(s)];
      }
    }

    /** `GroupManager.get_members`: the members of a live group whose lease has not
        run out, each once; nothing for any other name. */
    method GetMembers(group: Bytes, now: nat) returns (out: seq<Bytes>)
      requires Valid() && group != [] && clock <= now
      ensures ListedOk(Now(), cf, group, now, out)
      ensures out == ListedIn(cf, slots[..], arrays, group, now)
    {
      ListedMeans(slots[..], Now(), cf, group, now);
      var found, i, off, count, active := Lookup(group);
      if !found || !active || count == 0 {
        return [];
      }
      assert SlotOk(slots[..], Now(), cf, i);
      out := ReadAll(arrays[off], now, cf.expiry, groups[group], clock);
    }
  }

  /** The channel's lease is gone; with it the group, but only if no unexpired lease is left. */
  ghost predicate Discarded(was: map<Bytes, map<Bytes, nat>>, now: map<Bytes, map<Bytes, nat>>, group: Bytes,
                            channel: Bytes, expiry: nat, clock: nat)
    requires group in was
  {
    var left := was[group] - {Clip(channel)};
    || now == was[group := left]
    || (now == was - {group} && forall n | n in left :: !Fresh(left[n], expiry, clock))
  }

  lemma FewerFit(leases: map<Bytes, nat>, name: Bytes)
    ensures NamesFit(leases) ==> NamesFit(leases - {name})
  {
  }

  /** An array without active entries refines the empty map. */
  lemma NothingListed(ms: seq<Member>, expiry: nat, clock: nat)
    ensures ActiveCount(ms) == 0 ==> Refines(ms, map[], expiry, clock) && forall n :: !Listed(ms, n)
  {
    CountZero(ms);
  }

  lemma NoneFresh(ms: seq<Member>, leases: map<Bytes, nat>, expiry: nat, clock: nat)
    requires Refines(ms, leases, expiry, clock)
    ensures ActiveCount(ms) == 0 ==> forall n | n in leases :: !Fresh(leases[n], expiry, clock)
  {
    CountZero(ms);
    forall n | n in leases && Fresh(leases[n], expiry, clock) ensures Listed(ms, n) {
    }
  }
}
