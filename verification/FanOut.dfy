/** `group_send`: one message to every member of a group, each process woken once,
    and what a later drain finds in the members' buffers. */
module FanOut {
  import opened Prelude
  import opened Routing
  import opened Pump
  import G = Groups
  import Members
  import Q = RingQueue

  /** The entry of the woken set that stands for the sending process. */
  const SELF: Bytes := [95, 95, 115, 101, 108, 102, 95, 95]

  datatype Report = Report(attempts: seq<Bytes>, accepted: set<Bytes>, targeted: seq<Bytes>, local: bool, broadcast: bool)

  // ---- Copies in the rings ----

  /** The copies of channel n waiting in a ring, in order. */
  function Pending(q: seq<Q.Queued>, n: Bytes): seq<(Bytes, int)> {
    if q == [] then []
    else
      var x := q[|q| - 1];
      Pending(q[..|q| - 1], n) + if x.channel == n then [(x.body, x.expiry)] else []
  }

  /** Channel n's ring holds what it held, and one copy more if n accepted. */
  ghost predicate Copied(rings: map<Bytes, Ring>, rings': map<Bytes, Ring>, accepted: set<Bytes>, body: Bytes, expiry: int,
                         n: Bytes)
  {
    Pending(QueueAt(rings', NonLocal(n)), n) ==
    Pending(QueueAt(rings, NonLocal(n)), n) + if n in accepted then [(body, expiry)] else []
  }

  ghost predicate AllCopied(rings: map<Bytes, Ring>, rings': map<Bytes, Ring>, accepted: set<Bytes>, body: Bytes,
                            expiry: int)
  {
    forall n :: Copied(rings, rings', accepted, body, expiry, n)
  }

  predicate Payload(q': seq<Q.Queued>, q: seq<Q.Queued>, c: Bytes, body: Bytes, expiry: int) {
    |q'| == |q| + 1 && q'[..|q|] == q && q'[|q|].channel == c && q'[|q|].body == body && q'[|q|].expiry == expiry
  }

  /** One accepted send appends one copy for its channel and none for any other. */
  lemma SentOne(start: map<Bytes, Ring>, rings: map<Bytes, Ring>, rings': map<Bytes, Ring>, accepted: set<Bytes>, c: Bytes,
                body: Bytes, expiry: int, n: Bytes)
    requires Copied(start, rings, accepted, body, expiry, n) && c !in accepted
    requires forall k | k != NonLocal(c) :: QueueAt(rings', k) == QueueAt(rings, k)
    requires Payload(QueueAt(rings', NonLocal(c)), QueueAt(rings, NonLocal(c)), c, body, expiry)
    ensures Copied(start, rings', accepted + {c}, body, expiry, n)
  {
    if n == c {
      var base := Pending(QueueAt(start, NonLocal(n)), n);
      assert Pending(QueueAt(rings, NonLocal(n)), n) == base + [] == base;
    } else if NonLocal(n) == NonLocal(c) {
      var q := QueueAt(rings, NonLocal(n));
      assert Pending(QueueAt(rings', NonLocal(n)), n) == Pending(q, n) + [] == Pending(q, n);
    }
  }

  lemma AppendRouted(rings: map<Bytes, Ring>, rings': map<Bytes, Ring>, c: Bytes, body: Bytes, expiry: int)
    requires WellRouted(rings) && forall k | k != NonLocal(c) :: QueueAt(rings', k) == QueueAt(rings, k)
    requires Payload(QueueAt(rings', NonLocal(c)), QueueAt(rings, NonLocal(c)), c, body, expiry)
    ensures WellRouted(rings')
  {
    forall key, k: nat | key in rings' && k < |rings'[key].queue.q| ensures RoutedAt(rings', key, k) {
      if k < |QueueAt(rings, key)| {
        assert RoutedAt(rings, key, k);
        assert QueueAt(rings', key)[k] == QueueAt(rings, key)[k];
      }
    }
  }

  lemma SameRouted(rings: map<Bytes, Ring>, rings': map<Bytes, Ring>)
    requires WellRouted(rings) && forall k :: QueueAt(rings', k) == QueueAt(rings, k)
    ensures WellRouted(rings')
  {
    forall key, k: nat | key in rings' && k < |rings'[key].queue.q| ensures RoutedAt(rings', key, k) {
      assert QueueAt(rings', key) == QueueAt(rings, key);
      assert RoutedAt(rings, key, k);
    }
  }

  // ---- What a send does to the rings ----

  /** What of the sending process matters: its inline size, ring capacities and the
      slab's answers, one per attempt. */
  datatype Sender = Sender(inlineSize: nat, capacityOf: Bytes -> nat, pages: nat -> nat)

  /** `get_ring`, or `get_or_create_ring` when there is none. */
  function Opened(rings: map<Bytes, Ring>, channel: Bytes, capacity: nat): map<Bytes, Ring> {
    if NonLocal(channel) in rings then rings else rings[NonLocal(channel) := Ring(capacity, Q.Queue(0, 0, []))]
  }

  /** One member tried: its ring, opened if need be, after the enqueue, and whether
      it accepted. */
  function SentTo(rings: map<Bytes, Ring>, channel: Bytes, body: Bytes, expiry: int, capacity: nat, inlineSize: nat,
                  page: nat): (map<Bytes, Ring>, bool)
  {
    var ready := Opened(rings, channel, capacity);
    var ring := ready[NonLocal(channel)];
    var (queue, ok) := Q.Enqueued(ring.queue, ring.cap, inlineSize, Q.Sent(channel, body, expiry), page);
    (ready[NonLocal(channel) := ring.(queue := queue)], ok)
  }

  /** All members tried in order: the rings, and who accepted. */
  function SendAll(rings: map<Bytes, Ring>, members: seq<Bytes>, body: Bytes, expiry: int, sender: Sender)
    : (map<Bytes, Ring>, set<Bytes>)
  {
    if members == [] then (rings, {})
    else
      var n := |members| - 1;
      var (before, accepted) := SendAll(rings, members[..n], body, expiry, sender);
      var (after, ok) := SentTo(before, members[n], body, expiry, sender.capacityOf(members[n]), sender.inlineSize,
                                sender.pages(n));
      (after, if ok then accepted + {members[n]} else accepted)
  }

  lemma SendAllOneMore(rings: map<Bytes, Ring>, members: seq<Bytes>, i: nat, body: Bytes, expiry: int, sender: Sender)
    requires i < |members|
    ensures var (before, accepted) := SendAll(rings, members[..i], body, expiry, sender);
            var c := members[i];
            var (after, ok) := SentTo(before, c, body, expiry, sender.capacityOf(c), sender.inlineSize, sender.pages(i));
            SendAll(rings, members[..i + 1], body, expiry, sender) == (after, if ok then accepted + {c} else accepted)
  {
    assert members[..i + 1][..i] == members[..i];
  }

  lemma SentMeans(rings: map<Bytes, Ring>, c: Bytes, body: Bytes, expiry: int, capacity: nat, inlineSize: nat, page: nat)
    requires WellRouted(rings) && |c| <= NAME_WIDTH
    ensures var (rings', ok) := SentTo(rings, c, body, expiry, capacity, inlineSize, page);
            && WellRouted(rings') && (forall k | k != NonLocal(c) :: QueueAt(rings', k) == QueueAt(rings, k))
            && if ok then Payload(QueueAt(rings', NonLocal(c)), QueueAt(rings, NonLocal(c)), c, body, expiry)
               else QueueAt(rings', NonLocal(c)) == QueueAt(rings, NonLocal(c))
  {
    var (rings', ok) := SentTo(rings, c, body, expiry, capacity, inlineSize, page);
    if ok {
      AppendRouted(rings, rings', c, body, expiry);
    } else {
      SameRouted(rings, rings');
    }
  }

  /** What trying members comes to: each accepting one's ring has one copy more for
      it, and no channel has anything else. */
  ghost predicate SentOk(rings: map<Bytes, Ring>, members: seq<Bytes>, body: Bytes, expiry: int, rings': map<Bytes, Ring>,
                         accepted: set<Bytes>)
  {
    WellRouted(rings') && (forall c | c in accepted :: c in members) && AllCopied(rings, rings', accepted, body, expiry)
  }

  lemma NobodyTried(rings: map<Bytes, Ring>, body: Bytes, expiry: int)
    requires WellRouted(rings)
    ensures SentOk(rings, [], body, expiry, rings, {})
  {
    forall n ensures Copied(rings, rings, {}, body, expiry, n) {
    }
  }

  ghost predicate Sendable(members: seq<Bytes>) { Members.Distinct(members) && forall n | n in members :: |n| <= NAME_WIDTH }

  lemma SendableFront(members: seq<Bytes>, n: nat)
    requires Sendable(members) && n < |members|
    ensures Sendable(members[..n]) && members[n] !in members[..n] && |members[n]| <= NAME_WIDTH
  {
    assert members[n] in members;
  }

  /** The last member tried after all others. */
  lemma LastSent(rings: map<Bytes, Ring>, members: seq<Bytes>, n: nat, body: Bytes, expiry: int, before: map<Bytes, Ring>,
                 accepted: set<Bytes>, capacity: nat, inlineSize: nat, page: nat)
    requires n + 1 == |members| && Sendable(members) && SentOk(rings, members[..n], body, expiry, before, accepted)
    ensures var (after, ok) := SentTo(before, members[n], body, expiry, capacity, inlineSize, page);
            SentOk(rings, members, body, expiry, after, if ok then accepted + {members[n]} else accepted)
  {
    var c := members[n];
    SendableFront(members, n);
    SentMeans(before, c, body, expiry, capacity, inlineSize, page);
    var (after, ok) := SentTo(before, c, body, expiry, capacity, inlineSize, page);
    var accepted' := if ok then accepted + {c} else accepted;
    assert c in members && forall d | d in members[..n] :: d in members;
    forall n ensures Copied(rings, after, accepted', body, expiry, n) {
      assert Copied(rings, before, accepted, body, expiry, n);
      if ok {
        SentOne(rings, before, after, accepted, c, body, expiry, n);
      }
    }
  }

  lemma {:induction false} SendAllMeans(rings: map<Bytes, Ring>, members: seq<Bytes>, body: Bytes, expiry: int,
                                        sender: Sender)
    requires WellRouted(rings) && Sendable(members)
    ensures var (rings', accepted) := SendAll(rings, members, body, expiry, sender);
            SentOk(rings, members, body, expiry, rings', accepted)
  {
    if members == [] {
      NobodyTried(rings, body, expiry);
    } else {
      var n := |members| - 1;
      SendableFront(members, n);
      SendAllMeans(rings, members[..n], body, expiry, sender);
      var (before, accepted) := SendAll(rings, members[..n], body, expiry, sender);
      LastSent(rings, members, n, body, expiry, before, accepted, sender.capacityOf(members[n]), sender.inlineSize,
               sender.pages(n));
    }
  }

  // ---- Who is woken ----

  /** An accepted member that belongs to process o. */
  ghost predicate OwnedIn(accepted: set<Bytes>, o: Bytes) {
    exists c :: c in accepted && IsProcessSpecific(c) && OwnerOf(c) == o
  }

  ghost predicate SharedIn(accepted: set<Bytes>) { exists c :: c in accepted && !IsProcessSpecific(c) }

  /** The woken set of the loop, and the targeted wakes it stands for. */
  ghost predicate WokenOk(woken: set<Bytes>, targeted: seq<Bytes>, accepted: set<Bytes>, client: Bytes) {
    && (forall o | o in targeted :: o in woken && o != client)
    && (forall i, j | 0 <= i < j < |targeted| :: targeted[i] != targeted[j])
    && (forall o | o in woken && o != SELF :: o in targeted)
    && (forall o | o != SELF && o != client :: o in woken <==> OwnedIn(accepted, o))
    && (SELF in woken <==> OwnedIn(accepted, client) || OwnedIn(accepted, SELF))
    && (client != SELF ==> client !in woken)
    && (client != SELF && OwnedIn(accepted, SELF) && !OwnedIn(accepted, client) ==> SELF in targeted)
  }

  /** The i-th member accepted, and belongs to process o. */
  predicate OwnedAt(members: seq<Bytes>, accepted: set<Bytes>, i: nat, o: Bytes) {
    i < |members| && members[i] in accepted && IsProcessSpecific(members[i]) && OwnerOf(members[i]) == o
  }

  /** When a process that happens to be called SELF is woken by name: an accepting
      member belongs to it, and no accepting member before that one belongs to the
      sender, whose own entry SELF is. */
  ghost predicate SelfTargeted(members: seq<Bytes>, accepted: set<Bytes>, client: Bytes) {
    client != SELF && exists i: nat :: OwnedAt(members, accepted, i, SELF) && NoneBefore(members, accepted, i, client)
  }

  ghost predicate NoneBefore(members: seq<Bytes>, accepted: set<Bytes>, i: nat, o: Bytes) {
    forall j: nat | j < i :: !OwnedAt(members, accepted, j, o)
  }

  /** One more member: the question is only reopened if nobody answered it before. */
  lemma SelfOneMore(members: seq<Bytes>, c: Bytes, accepted: set<Bytes>, ok: bool, client: Bytes)
    requires c !in members && forall d | d in accepted :: d in members
    ensures var accepted' := if ok then accepted + {c} else accepted;
            SelfTargeted(members + [c], accepted', client) <==>
              SelfTargeted(members, accepted, client)
              || (ok && client != SELF && IsProcessSpecific(c) && OwnerOf(c) == SELF && !OwnedIn(accepted, client))
  {
    var members', accepted' := members + [c], if ok then accepted + {c} else accepted;
    forall i: nat, o ensures i < |members| ==> OwnedAt(members', accepted', i, o) == OwnedAt(members, accepted, i, o) {
      assert i < |members| ==> members'[i] == members[i] && members[i] in members;
    }
    OwnedSomewhere(members, accepted, client);
    if SelfTargeted(members, accepted, client) {
      var i: nat :| OwnedAt(members, accepted, i, SELF) && NoneBefore(members, accepted, i, client);
      assert OwnedAt(members', accepted', i, SELF) && NoneBefore(members', accepted', i, client);
    }
    if SelfTargeted(members', accepted', client) {
      var i: nat :| OwnedAt(members', accepted', i, SELF) && NoneBefore(members', accepted', i, client);
      if i < |members| {
        assert OwnedAt(members, accepted, i, SELF) && NoneBefore(members, accepted, i, client);
      }
    }
    if ok && client != SELF && IsProcessSpecific(c) && OwnerOf(c) == SELF && !OwnedIn(accepted, client) {
      assert OwnedAt(members', accepted', |members|, SELF) && NoneBefore(members', accepted', |members|, client);
    }
  }

  lemma OwnedSomewhere(members: seq<Bytes>, accepted: set<Bytes>, o: Bytes)
    requires forall d | d in accepted :: d in members
    ensures OwnedIn(accepted, o) <==> exists i: nat :: OwnedAt(members, accepted, i, o)
  {
    if OwnedIn(accepted, o) {
      var d :| d in accepted && IsProcessSpecific(d) && OwnerOf(d) == o;
      var i :| 0 <= i < |members| && members[i] == d;
      assert OwnedAt(members, accepted, i, o);
    }
    if i: nat :| OwnedAt(members, accepted, i, o) {
      assert members[i] in accepted;
    }
  }

  /** Such members exist: a channel called like `a.__self__!x`. If it is the only one
      to accept, the sender wakes a process by the reserved name, and itself too. */
  lemma SelfNamedMember(head: Bytes, tail: Bytes, client: Bytes)
    requires BANG !in head && client != SELF
    ensures var c := head + [DOT] + SELF + [BANG] + tail;
            && IsProcessSpecific(c) && OwnerOf(c) == SELF
            && SelfTargeted([c], {c}, client) && OwnedIn({c}, SELF) && !OwnedIn({c}, client)
  {
    var c, n := head + [DOT] + SELF + [BANG] + tail, |head| + 1 + |SELF|;
    assert c[n] == BANG;
    assert forall k | 0 <= k < n :: c[k] != BANG;
    IndexOfUnique(c, BANG, n);
    assert c[..n] == head + [DOT] + SELF;
    AfterLastOf(head, DOT, SELF);
    assert OwnedAt([c], {c}, 0, SELF) && NoneBefore([c], {c}, 0, client);
    assert c in {c};
  }

  lemma WakeOne(woken: set<Bytes>, targeted: seq<Bytes>, accepted: set<Bytes>, client: Bytes, c: Bytes)
    requires WokenOk(woken, targeted, accepted, client)
    ensures var o := OwnerOf(c);
            if !IsProcessSpecific(c) then WokenOk(woken, targeted, accepted + {c}, client)
            else if o == client then WokenOk(woken + {SELF}, targeted, accepted + {c}, client)
            else if o !in woken then WokenOk(woken + {o}, targeted + [o], accepted + {c}, client)
            else WokenOk(woken, targeted, accepted + {c}, client)
  {
    forall o ensures OwnedIn(accepted + {c}, o) <==> OwnedIn(accepted, o) || (IsProcessSpecific(c) && OwnerOf(c) == o) {
      assert c in accepted + {c};
      if OwnedIn(accepted, o) {
        var d :| d in accepted && IsProcessSpecific(d) && OwnerOf(d) == o;
        assert d in accepted + {c};
      }
    }
  }

  /** Whom to wake for the members tried so far. */
  ghost predicate WakesSoFar(tried: seq<Bytes>, accepted: set<Bytes>, woken: set<Bytes>, targeted: seq<Bytes>,
                             broadcast: bool, client: Bytes)
  {
    && (forall c | c in accepted :: c in tried)
    && WokenOk(woken, targeted, accepted, client) && (broadcast <==> SharedIn(accepted))
    && (SELF in targeted <==> SelfTargeted(tried, accepted, client))
  }

  /** Who is woken for the members that accepted: each remote owner once and by name,
      the sender and everybody else exactly when called for. */
  ghost predicate WakesOk(r: Report, client: Bytes) {
    && Members.Distinct(r.targeted)
    && (forall o | o != SELF :: o in r.targeted <==> o != client && OwnedIn(r.accepted, o))
    && (SELF in r.targeted <==> SelfTargeted(r.attempts, r.accepted, client))
    && (r.local <==> OwnedIn(r.accepted, client) || OwnedIn(r.accepted, SELF))
    && (r.broadcast <==> SharedIn(r.accepted))
  }

  lemma NobodyWoken(client: Bytes)
    ensures WakesSoFar([], {}, {}, [], false, client)
  {
  }

  lemma WakesDone(members: seq<Bytes>, accepted: set<Bytes>, woken: set<Bytes>, targeted: seq<Bytes>, broadcast: bool,
                  client: Bytes)
    requires WakesSoFar(members, accepted, woken, targeted, broadcast, client)
    ensures WakesOk(Report(members, accepted, targeted, SELF in woken, broadcast), client)
  {
  }

  /** Channel n has a lease in the group that has not run out. */
  ghost predicate MemberNow(groups: map<Bytes, map<Bytes, nat>>, group: Bytes, n: Bytes, expiry: nat, now: nat) {
    group in groups && n in groups[group] && Members.Fresh(groups[group][n], expiry, now)
  }

  // ---- The send ----

  class Layer {
    const fabric: Fabric
    const client: Bytes
    const inlineSize: nat
    const capacityOf: Bytes -> nat

    constructor (fabric: Fabric, client: Bytes, inlineSize: nat, capacityOf: Bytes -> nat)
      ensures this.fabric == fabric && this.client == client && this.inlineSize == inlineSize && this.capacityOf == capacityOf
    {
      this.fabric, this.client, this.inlineSize, this.capacityOf := fabric, client, inlineSize, capacityOf;
    }

    /** `get_ring`, or `get_or_create_ring` when there is none. */
    method OpenRing(channel: Bytes)
      modifies fabric
      ensures fabric.rings == Opened(old(fabric.rings), channel, capacityOf(channel))
    {
      if NonLocal(channel) !in fabric.rings {
        fabric.rings := fabric.rings[NonLocal(channel) := Ring(capacityOf(channel), Q.Queue(0, 0, []))];
      }
    }

    /** Try one member, opening its ring if need be: `try_enqueue` on the ring, as
        `RingQueue.Ring` performs it. */
    method SendOne(channel: Bytes, body: Bytes, expiry: int, page: nat) returns (ok: bool)
      modifies fabric
      ensures (fabric.rings, ok) ==
              SentTo(old(fabric.rings), channel, body, expiry, capacityOf(channel), inlineSize, page)
    {
      OpenRing(channel);
      var ring := fabric.rings[NonLocal(channel)];
      var (queue, accepted) := Q.Enqueued(ring.queue, ring.cap, inlineSize, Q.Sent(channel, body, expiry), page);
      fabric.rings := fabric.rings[NonLocal(channel) := ring.(queue := queue)];
      return accepted;
    }

    ghost function Sends(pages: nat -> nat): Sender { Sender(inlineSize, capacityOf, pages) }

    /** `group_send` once it has the member list. Every member is tried once, in
        order, the rings end as `SendAll` says, each accepting member's ring gains
        exactly one copy for it, each remote owner of an accepting member is woken
        once, this process if one of its own channels accepted (or one that claims to
        belong to a process of the reserved name), everybody if an accepting channel
        belongs to nobody. */
    method SendToMembers(members: seq<Bytes>, body: Bytes, expiry: int, pages: nat -> nat) returns (r: Report)
      requires WellRouted(fabric.rings)
      requires forall n | n in members :: |n| <= NAME_WIDTH
      requires Members.Distinct(members)
      modifies fabric
      ensures WellRouted(fabric.rings)
      ensures r.attempts == members && forall c | c in r.accepted :: c in members
      ensures (fabric.rings, r.accepted) == SendAll(old(fabric.rings), members, body, expiry, Sends(pages))
      ensures AllCopied(old(fabric.rings), fabric.rings, r.accepted, body, expiry)
      ensures WakesOk(r, client)
    {
      ghost var start := fabric.rings;
      var attempts, accepted, woken, targeted, needBroadcast := TryAll(members, body, expiry, pages);
      SendAllMeans(start, members, body, expiry, Sends(pages));
      r := Report(attempts, accepted, targeted, SELF in woken, needBroadcast);
      WakesDone(members, accepted, woken, targeted, needBroadcast, client);
    }

    /** The loop over the members. */
    method TryAll(members: seq<Bytes>, body: Bytes, expiry: int, pages: nat -> nat)
      returns (attempts: seq<Bytes>, accepted: set<Bytes>, woken: set<Bytes>, targeted: seq<Bytes>, needBroadcast: bool)
      requires Members.Distinct(members)
      modifies fabric
      ensures attempts == members && WakesSoFar(members, accepted, woken, targeted, needBroadcast, client)
      ensures (fabric.rings, accepted) == SendAll(old(fabric.rings), members, body, expiry, Sends(pages))
    {
      ghost var start := fabric.rings;
      attempts, accepted, woken, targeted, needBroadcast := [], {}, {}, [], false;
      NobodyWoken(client);
      var i := 0;
      while i < |members|
        invariant 0 <= i <= |members| && attempts == members[..i]
        invariant (fabric.rings, accepted) == SendAll(start, members[..i], body, expiry, Sends(pages))
        invariant WakesSoFar(members[..i], accepted, woken, targeted, needBroadcast, client)
      {
        SendAllOneMore(start, members, i, body, expiry, Sends(pages));
        attempts := attempts + [members[i]];
        accepted, woken, targeted, needBroadcast :=
          TryMember(members, i, body, expiry, pages(i), accepted, woken, targeted, needBroadcast);
        i := i + 1;
      }
      assert members[..i] == members;
    }

    /** One turn of the loop: try the i-th member, and decide whom to wake if it accepts. */
    method TryMember(members: seq<Bytes>, i: nat, body: Bytes, expiry: int, page: nat, accepted: set<Bytes>,
                     woken: set<Bytes>, targeted: seq<Bytes>, broadcast: bool)
      returns (accepted': set<Bytes>, woken': set<Bytes>, targeted': seq<Bytes>, broadcast': bool)
      requires i < |members| && Members.Distinct(members)
      requires WakesSoFar(members[..i], accepted, woken, targeted, broadcast, client)
      modifies fabric
      ensures var (rings, ok) := SentTo(old(fabric.rings), members[i], body, expiry, capacityOf(members[i]), inlineSize, page);
              fabric.rings == rings && accepted' == if ok then accepted + {members[i]} else accepted
      ensures WakesSoFar(members[..i + 1], accepted', woken', targeted', broadcast', client)
    {
      var channel := members[i];
      assert members[..i + 1] == members[..i] + [channel] && channel !in members[..i];
      accepted', woken', targeted', broadcast' := accepted, woken, targeted, broadcast;
      var success := SendOne(channel, body, expiry, page);
      SelfOneMore(members[..i], channel, accepted, success, client);
      if success {
        woken', targeted', broadcast' := Wake(channel, woken, targeted, broadcast, accepted);
        accepted' := accepted + {channel};
      }
    }

    /** `group_send` over a group table: the members tried are exactly the channels
        whose lease in the group has not run out, each once; nobody is tried, and no
        ring changes, when the group is not live. */
    method GroupSend(table: G.GroupTable, group: Bytes, body: Bytes, expiry: int, now: nat, pages: nat -> nat)
      returns (r: Report)
      requires table.Valid() && group != [] && table.clock <= now && WellRouted(fabric.rings)
      modifies fabric
      ensures WellRouted(fabric.rings)
      ensures Members.Distinct(r.attempts)
      ensures forall n :: n in r.attempts <==> MemberNow(table.groups, group, n, table.cf.expiry, now)
      ensures (fabric.rings, r.accepted) == SendAll(old(fabric.rings), r.attempts, body, expiry, Sends(pages))
      ensures r.accepted <= (set c | c in r.attempts)
      ensures AllCopied(old(fabric.rings), fabric.rings, r.accepted, body, expiry)
      ensures WakesOk(r, client)
      ensures group !in table.groups ==> fabric.rings == old(fabric.rings)
    {
      var members := table.GetMembers(group, now);
      r := SendToMembers(members, body, expiry, pages);
    }

    /** Which process to wake for one accepting member: its owner, unless it was
        woken already; everybody, once, if it belongs to nobody. */
    method Wake(channel: Bytes, woken: set<Bytes>, targeted: seq<Bytes>, broadcast: bool, ghost accepted: set<Bytes>)
      returns (woken': set<Bytes>, targeted': seq<Bytes>, broadcast': bool)
      requires WokenOk(woken, targeted, accepted, client) && (broadcast <==> SharedIn(accepted))
      ensures WokenOk(woken', targeted', accepted + {channel}, client) && (broadcast' <==> SharedIn(accepted + {channel}))
      ensures SELF in targeted' <==>
                SELF in targeted
                || (client != SELF && IsProcessSpecific(channel) && OwnerOf(channel) == SELF && !OwnedIn(accepted, client))
    {
      WakeOne(woken, targeted, accepted, client, channel);
      SharedOneMore(accepted, channel);
      woken', targeted', broadcast' := woken, targeted, broadcast;
      if IsProcessSpecific(channel) {
        var owner := OwnerOf(channel);
        if owner == client {
          woken' := woken + {SELF};
        } else if owner !in woken {
          targeted' := targeted + [owner];
          woken' := woken + {owner};
        }
      } else {
        broadcast' := true;
      }
    }
  }

  lemma SharedOneMore(accepted: set<Bytes>, c: Bytes)
    ensures SharedIn(accepted + {c}) <==> SharedIn(accepted) || !IsProcessSpecific(c)
  {
    assert c in accepted + {c};
    if SharedIn(accepted) {
      var d :| d in accepted && !IsProcessSpecific(d);
      assert d in accepted + {c};
    }
  }

  // ---- From the send to the buffers ----

  /** What the waiting copies of a channel are worth to its buffer. */
  function Readable(copies: seq<(Bytes, int)>, n: Bytes, now: int, codec: Codec): seq<Message> {
    if copies == [] then []
    else
      var (body, expiry) := copies[|copies| - 1];
      Readable(copies[..|copies| - 1], n, now, codec)
      + if now <= expiry && codec.nameOk(n) && codec.decode(body).Some? then [codec.decode(body).value] else []
  }

  lemma {:induction false} ItemsOfPending(q: seq<Q.Queued>, n: Bytes, now: int, codec: Codec)
    ensures Items(q, n, now, codec) == Readable(Pending(q, n), n, now, codec)
  {
    if q != [] {
      var p, x := q[..|q| - 1], q[|q| - 1];
      ItemsOfPending(p, n, now, codec);
      if x.channel == n {
        assert Pending(q, n)[..|Pending(q, n)| - 1] == Pending(p, n);
      } else {
        assert Pending(q, n) == Pending(p, n);
      }
    }
  }

  /** What a send adds to the messages of channel n that a drain will find. */
  lemma ItemsCopied(rings: map<Bytes, Ring>, rings': map<Bytes, Ring>, accepted: set<Bytes>, body: Bytes, expiry: int,
                    n: Bytes, now: int, codec: Codec)
    requires Copied(rings, rings', accepted, body, expiry, n)
    requires now <= expiry && codec.nameOk(n) && codec.decode(body).Some?
    ensures Items(QueueAt(rings', NonLocal(n)), n, now, codec) ==
            Items(QueueAt(rings, NonLocal(n)), n, now, codec) + if n in accepted then [codec.decode(body).value] else []
  {
    var q, q' := QueueAt(rings, NonLocal(n)), QueueAt(rings', NonLocal(n));
    ItemsOfPending(q, n, now, codec);
    ItemsOfPending(q', n, now, codec);
    if n in accepted {
      var copies := Pending(q, n) + [(body, expiry)];
      assert Pending(q', n) == copies && copies[..|copies| - 1] == Pending(q, n);
    } else {
      assert Pending(q', n) == Pending(q, n);
    }
  }

  /** The buffer of channel n gains the newest copy if n accepted, after what it and
      its ring held before. */
  ghost predicate Arrived(size: int, was: map<Bytes, seq<Message>>, buffers: map<Bytes, seq<Message>>, rings: map<Bytes, Ring>,
                          accepted: set<Bytes>, n: Bytes, now: int, codec: Codec, m: Message)
  {
    var before := BufferOf(was, n) + Items(QueueAt(rings, NonLocal(n)), n, now, codec);
    BufferOf(buffers, n) == Newest(size, before + if n in accepted then [m] else [])
  }

  /** Fan-out end to end: after a group send and a drain of the channel's ring before
      the message expires, an accepting member's buffer holds exactly one copy more
      than it would have held, as the newest message; any other channel's buffer is
      unaffected by the send, even when it shares the ring. */
  lemma FanOutDelivers(rings: map<Bytes, Ring>, rings': map<Bytes, Ring>, accepted: set<Bytes>, body: Bytes, expiry: int,
                       size: int, was: map<Bytes, seq<Message>>, buffers: map<Bytes, seq<Message>>, watched: set<Bytes>,
                       n: Bytes, now: int, codec: Codec)
    requires Copied(rings, rings', accepted, body, expiry, n)
    requires Drained(size, was, buffers, rings', watched, n, now, codec) && Visited(watched, NonLocal(n))
    requires now <= expiry && codec.nameOk(n) && codec.decode(body).Some?
    ensures Arrived(size, was, buffers, rings, accepted, n, now, codec, codec.decode(body).value)
  {
    ItemsCopied(rings, rings', accepted, body, expiry, n, now, codec);
    var b, q, x := BufferOf(was, n), Items(QueueAt(rings, NonLocal(n)), n, now, codec), codec.decode(body).value;
    assert b + (q + if n in accepted then [x] else []) == b + q + if n in accepted then [x] else [];
  }

  /** A group send and then a drain, before the message expires: the members tried are
      exactly the unexpired ones, and every watched channel's buffer ends with what it
      and its ring held before, then one copy if that channel accepted; nothing else. */
  method SendAndDrain(layer: Layer, table: G.GroupTable, group: Bytes, body: Bytes, expiry: int, now: nat, pages: nat -> nat,
                      pump: ReceivePump, order: seq<Bytes>, at: int)
    returns (r: Report)
    requires table.Valid() && group != [] && table.clock <= now && pump.fabric == layer.fabric && pump.Valid()
    requires (forall c :: c in order <==> c in pump.watched) && at <= expiry && pump.codec.decode(body).Some?
    modifies pump`buffers, layer.fabric
    ensures pump.Valid() && WakesOk(r, layer.client) && Members.Distinct(r.attempts)
    ensures forall n :: n in r.attempts <==> MemberNow(table.groups, group, n, table.cf.expiry, now)
    ensures r.accepted == SendAll(old(layer.fabric.rings), r.attempts, body, expiry, layer.Sends(pages)).1
    ensures forall n | n in pump.watched && pump.codec.nameOk(n) ::
              Arrived(pump.capacity, old(pump.buffers), pump.buffers, old(layer.fabric.rings), r.accepted, n, at, pump.codec,
                      pump.codec.decode(body).value)
  {
    ghost var rings, was := layer.fabric.rings, pump.buffers;
    r := layer.GroupSend(table, group, body, expiry, now, pages);
    ghost var sent := layer.fabric.rings;
    pump.DrainRings(order, at);
    forall n | n in pump.watched && pump.codec.nameOk(n)
      ensures Arrived(pump.capacity, was, pump.buffers, rings, r.accepted, n, at, pump.codec, pump.codec.decode(body).value)
    {
      assert Drained(pump.capacity, was, pump.buffers, sent, pump.watched, n, at, pump.codec);
      assert Copied(rings, sent, r.accepted, body, expiry, n);
      FanOutDelivers(rings, sent, r.accepted, body, expiry, pump.capacity, was, pump.buffers, pump.watched, n, at,
                     pump.codec);
    }
  }
}
