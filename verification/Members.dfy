/** One group's member array: a fixed number of entries that are flagged, swept
    when their lease has run out, and reused. It refines a map from names to the
    time of their last join. */
module Members {
  import opened Prelude

  datatype Member = Member(name: Bytes, join: nat, active: bool)

  // ---- Names in a fixed field ----

  function Zeros(n: nat): (z: Bytes)
    ensures |z| == n && forall k | 0 <= k < n :: z[k] == 0
  {
    seq(n, _ => 0)
  }

  /** A name as the zero-padded field keeps it. */
  function Pad(name: Bytes): (r: Bytes)
    ensures |r| == NAME_WIDTH
  {
    Clip(name) + Zeros(NAME_WIDTH - |Clip(name)|)
  }

  /** A field read back: everything before its first zero byte. */
  function Unpad(field: Bytes): Bytes {
    if field == [] || field[0] == 0 then [] else [field[0]] + Unpad(field[1..])
  }

  lemma {:induction false} UnpadStops(name: Bytes, n: nat)
    requires 0 !in name
    ensures Unpad(name + Zeros(n)) == name
  {
    if name == [] {
      assert name + Zeros(n) == Zeros(n);
    } else {
      UnpadStops(name[1..], n);
      assert (name + Zeros(n))[1..] == name[1..] + Zeros(n);
    }
  }

  /** A name without zero bytes survives the field, up to its width. */
  lemma NameRoundTrip(name: Bytes)
    requires 0 !in name
    ensures Unpad(Pad(name)) == Clip(name)
  {
    UnpadStops(Clip(name), NAME_WIDTH - |Clip(name)|);
  }

  // ---- The lease map ----

  function Key(m: Member): Bytes { Unpad(m.name) }

  predicate Fresh(join: nat, expiry: nat, now: nat) { join + expiry >= now }

  predicate Holds(ms: seq<Member>, i: nat, name: Bytes) { i < |ms| && ms[i].active && Key(ms[i]) == name }

  ghost predicate Listed(ms: seq<Member>, name: Bytes) { exists i: nat :: Holds(ms, i, name) }

  predicate EntryOk(m: Member, leases: map<Bytes, nat>) {
    m.active ==> Key(m) in leases && leases[Key(m)] == m.join
  }

  /** Active entries are current leases, each once; a lease that has not run out at
      `now` has its entry. */
  ghost predicate Refines(ms: seq<Member>, leases: map<Bytes, nat>, expiry: nat, now: nat) {
    && (forall i | 0 <= i < |ms| :: EntryOk(ms[i], leases))
    && (forall i, j | 0 <= i < j < |ms| && ms[i].active && ms[j].active :: Key(ms[i]) != Key(ms[j]))
    && (forall n | n in leases && Fresh(leases[n], expiry, now) :: Listed(ms, n))
  }

  /** The names that have an active entry, expired or not. */
  function ActiveNames(ms: seq<Member>): set<Bytes> { set i | 0 <= i < |ms| && ms[i].active :: Key(ms[i]) }

  lemma ListedIsActive(ms: seq<Member>, name: Bytes)
    ensures Listed(ms, name) <==> name in ActiveNames(ms)
  {
    if Listed(ms, name) {
      var i: nat :| Holds(ms, i, name);
      assert ms[i].active && Key(ms[i]) == name;
    }
    if name in ActiveNames(ms) {
      var i :| 0 <= i < |ms| && ms[i].active && Key(ms[i]) == name;
      assert Holds(ms, i, name);
    }
  }

  /** How many entries are flagged active, expired or not. */
  function ActiveCount(ms: seq<Member>): nat {
    if ms == [] then 0 else ActiveCount(ms[..|ms| - 1]) + if ms[|ms| - 1].active then 1 else 0
  }

  lemma {:induction false} CountUpdate(ms: seq<Member>, i: nat, m: Member)
    requires i < |ms|
    ensures ActiveCount(ms[i := m]) + (if ms[i].active then 1 else 0) == ActiveCount(ms) + (if m.active then 1 else 0)
  {
    var n := |ms| - 1;
    if i < n {
      CountUpdate(ms[..n], i, m);
      assert ms[i := m][..n] == ms[..n][i := m];
    } else {
      assert ms[i := m][..n] == ms[..n];
    }
  }

  lemma {:induction false} CountZero(ms: seq<Member>)
    ensures ActiveCount(ms) == 0 <==> forall i | 0 <= i < |ms| :: !ms[i].active
  {
    if ms != [] {
      CountZero(ms[..|ms| - 1]);
    }
  }

  // ---- Operations ----

  datatype Added = Refreshed | Inserted | NoRoom

  /** An entry as an add that visited it leaves it: flagged inactive if expired. */
  function Swept(m: Member, expiry: nat, now: nat): Member {
    if m.active && !Fresh(m.join, expiry, now) then m.(active := false) else m
  }

  /** `group_member_add` from entry i on, `empty` being the first reusable entry seen. */
  function AddFrom(ms: seq<Member>, name: Bytes, now: nat, expiry: nat, i: nat, empty: Option<nat>): (seq<Member>, Added)
    decreases |ms| - i
  {
    if i >= |ms| then
      if empty.Some? && empty.value < |ms| then (ms[empty.value := Member(Pad(name), now, true)], Inserted) else (ms, NoRoom)
    else if ms[i].active then
      if Key(ms[i]) == Clip(name) then (ms[i := ms[i].(join := now)], Refreshed)
      else if !Fresh(ms[i].join, expiry, now) then
        AddFrom(ms[i := ms[i].(active := false)], name, now, expiry, i + 1, if empty.None? then Some(i) else empty)
      else AddFrom(ms, name, now, expiry, i + 1, empty)
    else AddFrom(ms, name, now, expiry, i + 1, if empty.None? then Some(i) else empty)
  }

  function RemoveFrom(ms: seq<Member>, name: Bytes, i: nat): (seq<Member>, bool)
    decreases |ms| - i
  {
    if i >= |ms| then (ms, false)
    else if ms[i].active && Key(ms[i]) == Clip(name) then (ms[i := ms[i].(active := false)], true)
    else RemoveFrom(ms, name, i + 1)
  }

  function ReadFrom(ms: seq<Member>, now: nat, expiry: nat, i: nat): seq<Bytes>
    decreases |ms| - i
  {
    if i >= |ms| then []
    else (if ms[i].active && Fresh(ms[i].join, expiry, now) then [Key(ms[i])] else []) + ReadFrom(ms, now, expiry, i + 1)
  }

  /** Entries before i visited by an add of `key`: swept, none of them its own. */
  ghost predicate Visited(entries: seq<Member>, ms: seq<Member>, i: nat, empty: Option<nat>, key: Bytes, expiry: nat,
                          now: nat)
  {
    && i <= |entries| == |ms|
    && (forall k | 0 <= k < i :: ms[k] == Swept(entries[k], expiry, now) && !Holds(entries, k, key))
    && (forall k | i <= k < |entries| :: ms[k] == entries[k])
    && (empty.None? ==> forall k | 0 <= k < i :: ms[k].active)
    && (empty.Some? ==> empty.value < i && !ms[empty.value].active)
  }

  /** An add fails exactly when the name has no entry and every entry is taken and
      unexpired; otherwise the lease starts or is renewed now. At most one more
      entry is active, and only if one was filled. */
  ghost predicate AddOk(entries: seq<Member>, name: Bytes, now: nat, expiry: nat, leases: map<Bytes, nat>, ms: seq<Member>,
                        r: Added)
  {
    && |ms| == |entries|
    && (r.NoRoom? <==> && !Listed(entries, Clip(name))
                       && forall i | 0 <= i < |entries| :: entries[i].active && Fresh(entries[i].join, expiry, now))
    && (r.NoRoom? ==> ms == entries)
    && (!r.NoRoom? ==> Refines(ms, leases[Clip(name) := now], expiry, now))
    && ActiveCount(ms) <= ActiveCount(entries) + (if r.Inserted? then 1 else 0)
    && (r.Refreshed? <==> Listed(entries, Clip(name)))
    && ActiveNames(ms) <= ActiveNames(entries) + {Clip(name)}
  }

  lemma {:induction false} AddMeans(entries: seq<Member>, ms: seq<Member>, i: nat, empty: Option<nat>, name: Bytes, now: nat,
                                    expiry: nat, leases: map<Bytes, nat>, clock: nat)
    requires 0 !in name && clock <= now && Refines(entries, leases, expiry, clock)
    requires Visited(entries, ms, i, empty, Clip(name), expiry, now) && ActiveCount(ms) <= ActiveCount(entries)
    ensures var x := AddFrom(ms, name, now, expiry, i, empty); AddOk(entries, name, now, expiry, leases, x.0, x.1)
    decreases |ms| - i
  {
    var key := Clip(name);
    if i == |ms| {
      AddEnds(entries, ms, empty, name, now, expiry, leases, clock);
    } else if ms[i].active && Key(ms[i]) == key {
      AddRefreshes(entries, ms, i, empty, name, now, expiry, leases, clock);
      assert AddFrom(ms, name, now, expiry, i, empty) == (ms[i := ms[i].(join := now)], Refreshed);
    } else {
      var ms', e := VisitOne(entries, ms, i, empty, key, expiry, now);
      AddMeans(entries, ms', i + 1, e, name, now, expiry, leases, clock);
      assert AddFrom(ms, name, now, expiry, i, empty) == AddFrom(ms', name, now, expiry, i + 1, e);
    }
  }

  /** An entry of another name, or a free one, is swept and remembered. */
  lemma VisitOne(entries: seq<Member>, ms: seq<Member>, i: nat, empty: Option<nat>, key: Bytes, expiry: nat, now: nat)
    returns (ms': seq<Member>, e: Option<nat>)
    requires i < |entries| && Visited(entries, ms, i, empty, key, expiry, now) && !(ms[i].active && Key(ms[i]) == key)
    ensures Visited(entries, ms', i + 1, e, key, expiry, now) && ActiveCount(ms') <= ActiveCount(ms)
    ensures var m := ms[i];
            (ms', e) == if m.active && Fresh(m.join, expiry, now) then (ms, empty)
                    else (if m.active then ms[i := m.(active := false)] else ms, if empty.None? then Some(i) else empty)
  {
    var m := ms[i];
    if m.active && Fresh(m.join, expiry, now) {
      ms', e := ms, empty;
    } else {
      CountUpdate(ms, i, m.(active := false));
      ms', e := if m.active then ms[i := m.(active := false)] else ms, if empty.None? then Some(i) else empty;
    }
  }

  /** Sweeping frees names, and writing an entry adds that entry's name only. */
  lemma NoNewNames(entries: seq<Member>, ms: seq<Member>, i: nat, m: Member, expiry: nat, now: nat)
    requires i < |entries| == |ms|
    requires forall k | 0 <= k < |entries| :: ms[k] == entries[k] || ms[k] == Swept(entries[k], expiry, now)
    ensures ActiveNames(ms[i := m]) <= ActiveNames(entries) + {Key(m)}
  {
    forall n | n in ActiveNames(ms[i := m]) && n != Key(m) ensures n in ActiveNames(entries) {
      var k :| 0 <= k < |ms| && ms[i := m][k].active && Key(ms[i := m][k]) == n;
      assert k != i && entries[k].active && Key(entries[k]) == n;
    }
  }

  lemma AddRefreshes(entries: seq<Member>, ms: seq<Member>, i: nat, empty: Option<nat>, name: Bytes, now: nat, expiry: nat,
                     leases: map<Bytes, nat>, clock: nat)
    requires clock <= now && Refines(entries, leases, expiry, clock) && i < |ms|
    requires Visited(entries, ms, i, empty, Clip(name), expiry, now) && ActiveCount(ms) <= ActiveCount(entries)
    requires ms[i].active && Key(ms[i]) == Clip(name)
    ensures AddOk(entries, name, now, expiry, leases, ms[i := ms[i].(join := now)], Refreshed)
  {
    var m := ms[i].(join := now);
    assert Holds(entries, i, Clip(name));
    CountUpdate(ms, i, m);
    NoNewNames(entries, ms, i, m, expiry, now);
    Joined(entries, ms, i, m, Clip(name), now, expiry, leases, clock);
  }

  lemma AddEnds(entries: seq<Member>, ms: seq<Member>, empty: Option<nat>, name: Bytes, now: nat, expiry: nat,
                leases: map<Bytes, nat>, clock: nat)
    requires 0 !in name && clock <= now && Refines(entries, leases, expiry, clock)
    requires Visited(entries, ms, |ms|, empty, Clip(name), expiry, now) && ActiveCount(ms) <= ActiveCount(entries)
    ensures var x := AddFrom(ms, name, now, expiry, |ms|, empty); AddOk(entries, name, now, expiry, leases, x.0, x.1)
  {
    if empty.Some? {
      var m := Member(Pad(name), now, true);
      NameRoundTrip(name);
      CountUpdate(ms, empty.value, m);
      NoNewNames(entries, ms, empty.value, m, expiry, now);
      forall k: nat ensures !Holds(entries, k, Clip(name)) {
      }
      Joined(entries, ms, empty.value, m, Clip(name), now, expiry, leases, clock);
      assert !(entries[empty.value].active && Fresh(entries[empty.value].join, expiry, now));
    }
  }

  /** `group_member_add` on the entries; the caller counts an insertion. */
  method Add(entries: seq<Member>, name: Bytes, now: nat, expiry: nat, ghost leases: map<Bytes, nat>, ghost clock: nat)
    returns (ms: seq<Member>, r: Added)
    requires 0 !in name && clock <= now && Refines(entries, leases, expiry, clock)
    ensures (ms, r) == AddFrom(entries, name, now, expiry, 0, None)
    ensures AddOk(entries, name, now, expiry, leases, ms, r)
  {
    AddMeans(entries, entries, 0, None, name, now, expiry, leases, clock);
    ms := entries;
    var empty: Option<nat> := None;
    var i := 0;
    while i < |entries|
      invariant 0 <= i <= |entries| == |ms|
      invariant empty.Some? ==> empty.value < |ms|
      invariant AddFrom(ms, name, now, expiry, i, empty) == AddFrom(entries, name, now, expiry, 0, None)
    {
      if ms[i].active {
        if Key(ms[i]) == Clip(name) {
          ms := ms[i := ms[i].(join := now)];
          return ms, Refreshed;
        }
        if !Fresh(ms[i].join, expiry, now) {
          ms := ms[i := ms[i].(active := false)];
          if empty.None? {
            empty := Some(i);
          }
        }
      } else if empty.None? {
        empty := Some(i);
      }
      i := i + 1;
    }
    if empty.Some? {
      ms := ms[empty.value := Member(Pad(name), now, true)];
      return ms, Inserted;
    }
    return ms, NoRoom;
  }

  /** Sweeping expired entries and then writing entry i for `key` records the join. */
  lemma Joined(entries: seq<Member>, ms: seq<Member>, i: nat, m: Member, key: Bytes, now: nat, expiry: nat,
               leases: map<Bytes, nat>, clock: nat)
    requires clock <= now && Refines(entries, leases, expiry, clock) && i < |entries| == |ms|
    requires forall k | 0 <= k < |entries| :: ms[k] == entries[k] || ms[k] == Swept(entries[k], expiry, now)
    requires forall k | 0 <= k < |entries| && k != i :: !(ms[k].active && Key(ms[k]) == key)
    requires m.active && Key(m) == key && m.join == now && (ms[i].active ==> Key(ms[i]) == key)
    ensures Refines(ms[i := m], leases[key := now], expiry, now)
  {
    var ms', leases' := ms[i := m], leases[key := now];
    forall k | 0 <= k < |ms'| ensures EntryOk(ms'[k], leases') {
      assert EntryOk(entries[k], leases);
    }
    forall n | n in leases' && Fresh(leases'[n], expiry, now) ensures Listed(ms', n) {
      if n == key {
        assert Holds(ms', i, n);
      } else {
        assert Listed(entries, n);
        var k: nat :| Holds(entries, k, n);
        assert EntryOk(entries[k], leases);
        assert Holds(ms', k, n);
      }
    }
  }

  predicate Distinct(names: seq<Bytes>) { forall i, j | 0 <= i < j < |names| :: names[i] != names[j] }

  /** `group_members_read_all`: the names of exactly the leases that have not run
      out, each once. */
  method ReadAll(ms: seq<Member>, now: nat, expiry: nat, ghost leases: map<Bytes, nat>, ghost clock: nat)
    returns (out: seq<Bytes>)
    requires clock <= now && Refines(ms, leases, expiry, clock)
    ensures forall n :: n in out <==> n in leases && Fresh(leases[n], expiry, now)
    ensures Distinct(out)
    ensures out == ReadFrom(ms, now, expiry, 0)
  {
    out := [];
    var i := 0;
    while i < |ms|
      invariant 0 <= i <= |ms|
      invariant out + ReadFrom(ms, now, expiry, i) == ReadFrom(ms, now, expiry, 0)
    {
      if ms[i].active && Fresh(ms[i].join, expiry, now) {
        out := out + [Key(ms[i])];
      }
      i := i + 1;
    }
    assert out == out + [];
    ReadOnce(ms, now, expiry, 0);
    forall n ensures n in out <==> n in leases && Fresh(leases[n], expiry, now) {
      ReadMeans(ms, now, expiry, leases, clock, n);
    }
  }

  /** Some entry from i on is an unexpired one of this name. */
  ghost predicate SourceFrom(ms: seq<Member>, i: nat, name: Bytes, expiry: nat, now: nat) {
    exists k: nat :: i <= k && Source(ms, k, name, expiry, now)
  }

  lemma {:induction false} ReadFromMember(ms: seq<Member>, now: nat, expiry: nat, i: nat, name: Bytes)
    ensures name in ReadFrom(ms, now, expiry, i) <==> SourceFrom(ms, i, name, expiry, now)
    decreases |ms| - i
  {
    if i < |ms| {
      ReadFromMember(ms, now, expiry, i + 1, name);
      assert Source(ms, i, name, expiry, now) ==> SourceFrom(ms, i, name, expiry, now);
    }
  }

  lemma {:induction false} ReadOnce(ms: seq<Member>, now: nat, expiry: nat, i: nat)
    requires forall j, k | 0 <= j < k < |ms| && ms[j].active && ms[k].active :: Key(ms[j]) != Key(ms[k])
    ensures Distinct(ReadFrom(ms, now, expiry, i))
    decreases |ms| - i
  {
    if i < |ms| {
      ReadOnce(ms, now, expiry, i + 1);
      ReadFromMember(ms, now, expiry, i + 1, Key(ms[i]));
    }
  }

  lemma ReadMeans(ms: seq<Member>, now: nat, expiry: nat, leases: map<Bytes, nat>, clock: nat, n: Bytes)
    requires clock <= now && Refines(ms, leases, expiry, clock)
    ensures n in ReadFrom(ms, now, expiry, 0) <==> n in leases && Fresh(leases[n], expiry, now)
  {
    ReadFromMember(ms, now, expiry, 0, n);
    if SourceFrom(ms, 0, n, expiry, now) {
      var k: nat :| Source(ms, k, n, expiry, now);
      assert EntryOk(ms[k], leases);
    }
    if n in leases && Fresh(leases[n], expiry, now) {
      assert Listed(ms, n);
      var k: nat :| Holds(ms, k, n);
      assert EntryOk(ms[k], leases) && Source(ms, k, n, expiry, now);
    }
  }

  predicate Source(ms: seq<Member>, i: nat, name: Bytes, expiry: nat, now: nat) {
    Holds(ms, i, name) && Fresh(ms[i].join, expiry, now)
  }

  /** What a removal does: the lease is gone, and the one active entry it had. */
  ghost predicate RemoveOk(entries: seq<Member>, key: Bytes, expiry: nat, leases: map<Bytes, nat>, clock: nat,
                           ms: seq<Member>, removed: bool)
  {
    && |ms| == |entries| && (removed <==> Listed(entries, key)) && (!removed ==> ms == entries)
    && Refines(ms, leases - {key}, expiry, clock)
    && ActiveCount(entries) == ActiveCount(ms) + (if removed then 1 else 0)
    && ActiveNames(ms) == ActiveNames(entries) - {key}
  }

  lemma OneNameLess(entries: seq<Member>, i: nat)
    requires i < |entries| && entries[i].active
    requires forall j, k | 0 <= j < k < |entries| && entries[j].active && entries[k].active :: Key(entries[j]) != Key(entries[k])
    ensures ActiveNames(entries[i := entries[i].(active := false)]) == ActiveNames(entries) - {Key(entries[i])}
  {
    var ms := entries[i := entries[i].(active := false)];
    forall n ensures n in ActiveNames(ms) <==> n in ActiveNames(entries) && n != Key(entries[i]) {
      if n in ActiveNames(entries) && n != Key(entries[i]) {
        var k :| 0 <= k < |entries| && entries[k].active && Key(entries[k]) == n;
        assert ms[k].active && Key(ms[k]) == n;
      }
    }
  }

  lemma {:induction false} RemoveMeans(entries: seq<Member>, name: Bytes, i: nat, expiry: nat, leases: map<Bytes, nat>,
                                       clock: nat)
    requires Refines(entries, leases, expiry, clock)
    requires forall k | 0 <= k < i :: !Holds(entries, k, Clip(name))
    ensures var x := RemoveFrom(entries, name, i); RemoveOk(entries, Clip(name), expiry, leases, clock, x.0, x.1)
    decreases |entries| - i
  {
    var key := Clip(name);
    if i >= |entries| {
      forall k | 0 <= k < |entries| ensures !(entries[k].active && Key(entries[k]) == key) {
        assert !Holds(entries, k, key);
      }
      Left(entries, entries, key, expiry, leases, clock);
      ListedIsActive(entries, key);
      assert ActiveNames(entries) - {key} == ActiveNames(entries);
    } else if entries[i].active && Key(entries[i]) == key {
      var m := entries[i].(active := false);
      assert Holds(entries, i, key);
      CountUpdate(entries, i, m);
      Left(entries, entries[i := m], key, expiry, leases, clock);
      OneNameLess(entries, i);
    } else {
      RemoveMeans(entries, name, i + 1, expiry, leases, clock);
    }
  }

  /** `group_member_remove` on the entries; the caller adjusts the count. */
  method Remove(entries: seq<Member>, name: Bytes, expiry: nat, ghost leases: map<Bytes, nat>, ghost clock: nat)
    returns (ms: seq<Member>, removed: bool)
    requires 0 !in name && Refines(entries, leases, expiry, clock)
    ensures |ms| == |entries|
    ensures removed <==> Listed(entries, Clip(name))
    ensures Refines(ms, leases - {Clip(name)}, expiry, clock)
    ensures ActiveCount(entries) == ActiveCount(ms) + if removed then 1 else 0
    ensures !removed ==> ms == entries
    ensures (ms, removed) == RemoveFrom(entries, name, 0)
  {
    RemoveMeans(entries, name, 0, expiry, leases, clock);
    ms := entries;
    var i := 0;
    while i < |entries|
      invariant 0 <= i <= |entries| && ms == entries
      invariant RemoveFrom(entries, name, i) == RemoveFrom(entries, name, 0)
    {
      if ms[i].active && Key(ms[i]) == Clip(name) {
        ms := ms[i := ms[i].(active := false)];
        return ms, true;
      }
      i := i + 1;
    }
    return ms, false;
  }

  lemma Left(entries: seq<Member>, ms: seq<Member>, key: Bytes, expiry: nat, leases: map<Bytes, nat>, clock: nat)
    requires Refines(entries, leases, expiry, clock) && |ms| == |entries|
    requires forall k | 0 <= k < |ms| :: ms[k] == if entries[k].active && Key(entries[k]) == key
                                                  then entries[k].(active := false) else entries[k]
    ensures Refines(ms, leases - {key}, expiry, clock)
  {
    var leases' := leases - {key};
    forall k | 0 <= k < |ms| ensures EntryOk(ms[k], leases') {
      assert EntryOk(entries[k], leases);
    }
    forall n | n in leases' && Fresh(leases'[n], expiry, clock) ensures Listed(ms, n) {
      assert Listed(entries, n);
      var k: nat :| Holds(entries, k, n);
      assert Holds(ms, k, n);
    }
  }

  // ---- When the array is full ----

  /** The names whose lease has not run out. */
  function FreshLeases(leases: map<Bytes, nat>, expiry: nat, now: nat): set<Bytes> {
    set n | n in leases && Fresh(leases[n], expiry, now)
  }

  predicate Taken(m: Member, expiry: nat, now: nat) { m.active && Fresh(m.join, expiry, now) }

  /** The names of the unexpired active entries before k. */
  function TakenNames(ms: seq<Member>, k: nat, expiry: nat, now: nat): set<Bytes>
    requires k <= |ms|
  {
    if k == 0 then {}
    else TakenNames(ms, k - 1, expiry, now) + if Taken(ms[k - 1], expiry, now) then {Key(ms[k - 1])} else {}
  }

  lemma {:induction false} TakenNamesMember(ms: seq<Member>, k: nat, expiry: nat, now: nat, n: Bytes)
    requires k <= |ms|
    ensures n in TakenNames(ms, k, expiry, now) <==>
              exists i :: 0 <= i < k && Taken(ms[i], expiry, now) && Key(ms[i]) == n
  {
    if k > 0 {
      TakenNamesMember(ms, k - 1, expiry, now, n);
    }
  }

  /** Distinct names fill at most as many entries as there are, and all of them
      exactly when every entry is active and unexpired. */
  lemma {:induction false} TakenNamesCount(ms: seq<Member>, k: nat, expiry: nat, now: nat)
    requires k <= |ms|
    requires forall i, j | 0 <= i < j < |ms| && ms[i].active && ms[j].active :: Key(ms[i]) != Key(ms[j])
    ensures |TakenNames(ms, k, expiry, now)| <= k
    ensures |TakenNames(ms, k, expiry, now)| == k <==> forall i | 0 <= i < k :: Taken(ms[i], expiry, now)
  {
    if k > 0 {
      TakenNamesCount(ms, k - 1, expiry, now);
      TakenNamesMember(ms, k - 1, expiry, now, Key(ms[k - 1]));
    }
  }

  /** The array is full for a name: as many unexpired leases as entries, none its own. */
  ghost predicate FullFor(leases: map<Bytes, nat>, name: Bytes, size: nat, expiry: nat, now: nat) {
    Clip(name) !in FreshLeases(leases, expiry, now) && |FreshLeases(leases, expiry, now)| == size
  }

  /** An array has no room for a name exactly when its leases say so. */
  lemma FullMeans(ms: seq<Member>, leases: map<Bytes, nat>, name: Bytes, expiry: nat, clock: nat, now: nat)
    requires clock <= now && Refines(ms, leases, expiry, clock)
    ensures FullFor(leases, name, |ms|, expiry, now) <==>
              !Listed(ms, Clip(name)) && forall i | 0 <= i < |ms| :: Taken(ms[i], expiry, now)
  {
    forall n ensures n in FreshLeases(leases, expiry, now) <==> n in TakenNames(ms, |ms|, expiry, now) {
      TakenNamesMember(ms, |ms|, expiry, now, n);
      FreshIsTaken(ms, leases, expiry, clock, now, n);
    }
    assert FreshLeases(leases, expiry, now) == TakenNames(ms, |ms|, expiry, now);
    TakenNamesCount(ms, |ms|, expiry, now);
    TakenNamesMember(ms, |ms|, expiry, now, Clip(name));
    if Listed(ms, Clip(name)) {
      var k: nat :| Holds(ms, k, Clip(name));
    }
  }

  /** So an add fails exactly when the leases say that the array is full. */
  lemma NoRoomMeansFull(entries: seq<Member>, leases: map<Bytes, nat>, name: Bytes, expiry: nat, clock: nat, now: nat,
                        ms: seq<Member>, r: Added)
    requires clock <= now && Refines(entries, leases, expiry, clock) && AddOk(entries, name, now, expiry, leases, ms, r)
    ensures r.NoRoom? <==> FullFor(leases, name, |entries|, expiry, now)
  {
    FullMeans(entries, leases, name, expiry, clock, now);
  }

  lemma FreshIsTaken(ms: seq<Member>, leases: map<Bytes, nat>, expiry: nat, clock: nat, now: nat, n: Bytes)
    requires clock <= now && Refines(ms, leases, expiry, clock)
    ensures n in leases && Fresh(leases[n], expiry, now) <==>
              exists i :: 0 <= i < |ms| && Taken(ms[i], expiry, now) && Key(ms[i]) == n
  {
    if n in leases && Fresh(leases[n], expiry, now) {
      assert Listed(ms, n);
      var k: nat :| Holds(ms, k, n);
      assert EntryOk(ms[k], leases) && Taken(ms[k], expiry, now);
    }
    if i :| 0 <= i < |ms| && Taken(ms[i], expiry, now) && Key(ms[i]) == n {
      assert EntryOk(ms[i], leases);
    }
  }
}
