/** A group send on a whole region: rings are opened in its index and its slab, and
    pages come from there. What it does to the rings is the send of `FanOut`, and
    with a drain it puts one copy into each accepting member's buffer. */
module Delivery {
  import opened Prelude
  import opened Engine
  import C = ChannelIndex
  import F = FanOut
  import G = Groups
  import Members
  import opened Operations
  import opened Pump
  import Q = RingQueue
  import opened Regions
  import opened Routing

  // ---- The rings of a region by name ----

  function Fabric(v: View): map<Bytes, Ring> {
    map n | n in v.channels && v.channels[n].ring in v.queues ::
      Ring(v.channels[n].capacity, v.queues[v.channels[n].ring])
  }

  /** Every channel has a queue, and no two the same one. */
  ghost predicate Apart(v: View) {
    && (forall n | n in v.channels :: v.channels[n].ring in v.queues)
    && (forall m, n | m in v.channels && n in v.channels && v.channels[m].ring == v.channels[n].ring :: m == n)
  }

  lemma RegionApart(cf: Config, r: Region, w: G.World)
    requires Ok(cf, r) && Indexed(cf, r)
    ensures Apart(ViewOf(r, w))
  {
    forall n | n in Channels(r) ensures Channels(r)[n].ring in Queues(r) {
      LiveIsRegistered(cf, r, n);
    }
  }

  lemma FabricOpens(v: View, name: Bytes, e: C.Entry, v': View)
    requires Apart(v) && name !in v.channels && Opens(v, name, e, v')
    ensures Apart(v') && Fabric(v') == Fabric(v)[name := Ring(e.capacity, Q.Queue(0, 0, []))]
  {
  }

  lemma FabricSends(v: View, name: Bytes, q: Q.Queue)
    requires Apart(v) && name in v.channels
    ensures var v' := v.(queues := v.queues[v.channels[name].ring := q]);
            Fabric(v') == Fabric(v)[name := Ring(v.channels[name].capacity, q)]
  {
  }

  // ---- One member ----

  /** `get_ring`, or `get_or_create_ring` when there is none. */
  function Ready(cf: Config, r: Region, channel: Bytes, capacity: nat, junk: Junk): Region {
    if RingOf(cf, r, NonLocal(channel)).Some? then r
    else OpenRing(cf, r, NonLocal(channel), capacity, IsProcessSpecific(channel), junk).0
  }

  /** One member tried; the answer is no `Accepted` where the code raises because the
      ring cannot be opened. */
  function TryMember(cf: Config, r: Region, channel: Bytes, body: Bytes, expiry: int, capacity: nat, junk: Junk)
    : (Region, Result)
  {
    Send(cf, Ready(cf, r, channel, capacity, junk), NonLocal(channel), Q.Sent(channel, body, expiry), junk)
  }

  lemma NonLocalFits(channel: Bytes)
    requires 0 < |channel| <= NAME_WIDTH
    ensures 0 < |NonLocal(channel)| <= NAME_WIDTH
  {
    if IsProcessSpecific(channel) {
      var k :| 0 <= k < |channel| && channel[k] == BANG;
      assert IndexOf(channel, BANG) <= k;
    }
  }

  /** Opening a channel's ring, on the rings by name: it is there, or nothing changed. */
  ghost predicate ReadyView(v: View, channel: Bytes, capacity: nat, v': View) {
    if NonLocal(channel) in v'.channels then Fabric(v') == F.Opened(Fabric(v), channel, capacity) else v' == v
  }

  lemma OpenedView(v: View, channel: Bytes, capacity: nat, nonLocal: bool, v': View, res: Result)
    requires Apart(v) && NonLocal(channel) !in v.channels
    requires OpensRing(v, NonLocal(channel), capacity, nonLocal, v', res)
    ensures ReadyView(v, channel, capacity, v')
  {
    if v' != v {
      var off: nat :| Opens(v, NonLocal(channel), C.Entry(off, capacity, nonLocal), v');
      FabricOpens(v, NonLocal(channel), C.Entry(off, capacity, nonLocal), v');
    }
  }

  lemma NewRingReady(cf: Config, r: Region, w: G.World, channel: Bytes, capacity: nat, junk: Junk, r1: Region)
    requires Whole(cf, r, w) && 0 < |channel| <= NAME_WIDTH && NonLocal(channel) !in Channels(r)
    requires r1 == OpenRing(cf, r, NonLocal(channel), capacity, IsProcessSpecific(channel), junk).0
    ensures Indexed(cf, r1) && Grouped(cf, r1, w) && ReadyView(ViewOf(r, w), channel, capacity, ViewOf(r1, w))
  {
    var key, nonLocal := NonLocal(channel), IsProcessSpecific(channel);
    RegionApart(cf, r, w);
    NonLocalFits(channel);
    OpenRingRefines(cf, r, w, key, capacity, nonLocal, junk);
    var x := OpenRing(cf, r, key, capacity, nonLocal, junk).1;
    OpenedView(ViewOf(r, w), channel, capacity, nonLocal, ViewOf(r1, w), Offset(x));
  }

  /** The channel has no ring, and the region cannot be given one for it: a header of
      48 bytes and 704 for each slot, and a free place in the index. */
  ghost predicate CannotOpen(cf: Config, r: Region, channel: Bytes, capacity: nat) {
    && NonLocal(channel) !in Channels(r)
    && (capacity < 2 || NoRoomFor(cf, r, 48 + 704 * capacity) || C.AllCommitted(r.chans))
  }

  lemma OpensUnless(cf: Config, r: Region, channel: Bytes, capacity: nat, junk: Junk, r1: Region)
    requires Ok(cf, r) && Indexed(cf, r) && 0 < |channel| <= NAME_WIDTH && r1 == Ready(cf, r, channel, capacity, junk)
    ensures NonLocal(channel) in Channels(r1) <==> !CannotOpen(cf, r, channel, capacity)
  {
    var key := NonLocal(channel);
    LiveIsRegistered(cf, r, key);
    if key !in Channels(r) {
      NonLocalFits(channel);
      OpenRingMeans(cf, r, key, capacity, IsProcessSpecific(channel), junk);
    }
  }

  /** The ring is there, or the region could not be given one. */
  lemma ReadyMeans(cf: Config, r: Region, w: G.World, channel: Bytes, capacity: nat, junk: Junk, r1: Region)
    requires Whole(cf, r, w) && 0 < |channel| <= NAME_WIDTH && r1 == Ready(cf, r, channel, capacity, junk)
    ensures Whole(cf, r1, w) && ReadyView(ViewOf(r, w), channel, capacity, ViewOf(r1, w))
  {
    var key := NonLocal(channel);
    LiveIsRegistered(cf, r, key);
    if key in Channels(r) {
      RegionApart(cf, r, w);
    } else {
      OpenRingOk(cf, r, key, capacity, IsProcessSpecific(channel), junk);
      NewRingReady(cf, r, w, channel, capacity, junk, r1);
    }
  }

  /** A member tried, on the rings by name: they take the send, or nothing changed
      because the ring could not be opened. */
  ghost predicate TriedView(cf: Config, v: View, channel: Bytes, body: Bytes, expiry: int, capacity: nat, page: nat, v': View,
                            res: Result)
  {
    if res.Accepted? then (Fabric(v'), res.ok) == F.SentTo(Fabric(v), channel, body, expiry, capacity, cf.inlineSize, page)
    else v' == v
  }

  lemma SentView(cf: Config, v: View, v1: View, channel: Bytes, body: Bytes, expiry: int, capacity: nat, page: nat, v': View,
                 res: Result)
    requires Apart(v1) && NonLocal(channel) in v1.channels && ReadyView(v, channel, capacity, v1)
    requires SendsWith(cf, v1, NonLocal(channel), Q.Sent(channel, body, expiry), page, v', res)
    ensures TriedView(cf, v, channel, body, expiry, capacity, page, v', res)
  {
    var e := v1.channels[NonLocal(channel)];
    FabricSends(v1, NonLocal(channel),
                Q.Enqueued(v1.queues[e.ring], e.capacity, cf.inlineSize, Q.Sent(channel, body, expiry), page).0);
  }

  /** The slab's answer for a body of that many bytes: none exactly when it has no room
      (it is not asked for a body that fits the slot, nor when the ring is full). */
  ghost predicate PageTold(cf: Config, r: Region, key: Bytes, bytes: nat, page: nat) {
    key in Channels(r) && Channels(r)[key].ring in Queues(r) && bytes > cf.inlineSize
    && !Q.Full(Queues(r)[Channels(r)[key].ring], Channels(r)[key].capacity) ==>
      (page == 0 <==> NoRoomFor(cf, r, bytes))
  }

  lemma SentFromReady(cf: Config, r1: Region, w: G.World, key: Bytes, m: Q.Sent, junk: Junk, r': Region, res: Result)
    returns (page: nat)
    requires Whole(cf, r1, w) && (r', res) == Send(cf, r1, key, m, junk)
    ensures Whole(cf, r', w)
    ensures key in Channels(r1) ==>
              SendsWith(cf, ViewOf(r1, w), key, m, page, ViewOf(r', w), res) && PageTold(cf, r1, key, |m.body|, page)
    ensures key !in Channels(r1) ==> r' == r1 && res == Offset(None)
  {
    SendOk(cf, r1, key, m, junk);
    LiveIsRegistered(cf, r1, key);
    page := 0;
    if key in Channels(r1) {
      page := SendMeans(cf, r1, w, key, m, junk);
    }
  }

  /** Trying one member on the region is trying it on the rings by name, with the
      slab's answer. */
  lemma MemberTried(cf: Config, r: Region, w: G.World, channel: Bytes, body: Bytes, expiry: int, capacity: nat, junk: Junk,
                    r': Region, res: Result)
    returns (page: nat)
    requires Whole(cf, r, w) && 0 < |channel| <= NAME_WIDTH
    requires (r', res) == TryMember(cf, r, channel, body, expiry, capacity, junk)
    ensures Whole(cf, r', w) && TriedView(cf, ViewOf(r, w), channel, body, expiry, capacity, page, ViewOf(r', w), res)
    ensures res.Accepted? <==> !CannotOpen(cf, r, channel, capacity)
    ensures PageTold(cf, Ready(cf, r, channel, capacity, junk), NonLocal(channel), |body|, page)
  {
    OpensUnless(cf, r, channel, capacity, junk, Ready(cf, r, channel, capacity, junk));
    var key, m := NonLocal(channel), Q.Sent(channel, body, expiry);
    var r1 := Ready(cf, r, channel, capacity, junk);
    ReadyMeans(cf, r, w, channel, capacity, junk, r1);
    page := SentFromReady(cf, r1, w, key, m, junk, r', res);
    if key in Channels(r1) {
      RegionApart(cf, r1, w);
      SentView(cf, ViewOf(r, w), ViewOf(r1, w), channel, body, expiry, capacity, page, ViewOf(r', w), res);
    }
  }

  // ---- All members ----

  /** What the send needs besides the region: the sender's ring capacities, and what
      recycled blocks hold. */
  datatype Sending = Sending(body: Bytes, expiry: int, capacityOf: Bytes -> nat, junk: nat -> Junk)

  /** All members tried in order: the region and who accepted; None where it raised. */
  function TryAll(cf: Config, r: Region, members: seq<Bytes>, x: Sending): (Region, Option<set<Bytes>>) {
    if members == [] then (r, Some({}))
    else
      var n := |members| - 1;
      var (before, accepted) := TryAll(cf, r, members[..n], x);
      if accepted.None? then (before, None)
      else
        var (after, res) := TryMember(cf, before, members[n], x.body, x.expiry, x.capacityOf(members[n]), x.junk(n));
        (after, if res.Accepted? then Some(accepted.value + if res.ok then {members[n]} else {}) else None)
  }

  /** The slab's answers, one per member tried. */
  function PagesGiven(pages: seq<nat>): nat -> nat { (i: nat) => if i < |pages| then pages[i] else 0 }

  function SenderOf(cf: Config, x: Sending, pages: seq<nat>): F.Sender {
    F.Sender(cf.inlineSize, x.capacityOf, PagesGiven(pages))
  }

  /** The send does not look at answers it does not use. */
  lemma {:induction false} MorePages(rings: map<Bytes, Ring>, members: seq<Bytes>, cf: Config, x: Sending, pages: seq<nat>,
                                     more: seq<nat>)
    requires |members| <= |pages| && pages <= more
    ensures F.SendAll(rings, members, x.body, x.expiry, SenderOf(cf, x, more)) ==
            F.SendAll(rings, members, x.body, x.expiry, SenderOf(cf, x, pages))
  {
    if members != [] {
      MorePages(rings, members[..|members| - 1], cf, x, pages, more);
    }
  }

  /** Names as they come out of a group: not empty, and fitting the field. */
  ghost predicate NamesOk(members: seq<Bytes>) { forall n | n in members :: 0 < |n| <= NAME_WIDTH }

  /** All members tried, on the rings by name. */
  ghost predicate AllView(cf: Config, v: View, members: seq<Bytes>, x: Sending, pages: seq<nat>, v': View,
                          accepted: Option<set<Bytes>>)
  {
    accepted.Some? ==>
      (Fabric(v'), accepted.value) == F.SendAll(Fabric(v), members, x.body, x.expiry, SenderOf(cf, x, pages))
  }

  /** What the slab answered for member k, in the region as the members before it left it. */
  ghost predicate AnsweredAt(cf: Config, r: Region, members: seq<Bytes>, x: Sending, page: nat, k: nat)
    requires k < |members|
  {
    var before := TryAll(cf, r, members[..k], x).0;
    PageTold(cf, Ready(cf, before, members[k], x.capacityOf(members[k]), x.junk(k)), NonLocal(members[k]), |x.body|, page)
  }

  /** The pages are the slab's answers, up to where the send raised. */
  ghost predicate Answers(cf: Config, r: Region, members: seq<Bytes>, x: Sending, pages: seq<nat>) {
    && |pages| == |members|
    && forall k | 0 <= k < |members| :: RaisedBy(cf, r, members, x, k) || AnsweredAt(cf, r, members, x, pages[k], k)
  }

  /** The send raised before it came to member k. */
  predicate RaisedBy(cf: Config, r: Region, members: seq<Bytes>, x: Sending, k: nat)
    requires k <= |members|
  {
    TryAll(cf, r, members[..k], x).1.None?
  }

  lemma AnswersGrow(cf: Config, r: Region, members: seq<Bytes>, x: Sending, before: seq<nat>, page: nat)
    requires members != [] && Answers(cf, r, members[..|members| - 1], x, before)
    requires RaisedBy(cf, r, members, x, |members| - 1) || AnsweredAt(cf, r, members, x, page, |members| - 1)
    ensures Answers(cf, r, members, x, before + [page])
  {
    var most, pages := members[..|members| - 1], before + [page];
    forall k | 0 <= k < |members|
      ensures RaisedBy(cf, r, members, x, k) || AnsweredAt(cf, r, members, x, pages[k], k)
    {
      if k < |members| - 1 {
        assert most[..k] == members[..k] && most[k] == members[k];
        assert RaisedBy(cf, r, most, x, k) || AnsweredAt(cf, r, most, x, before[k], k);
      }
    }
  }

  /** Member k is tried and has no ring, nor can it be given one. */
  ghost predicate FailsAt(cf: Config, r: Region, members: seq<Bytes>, x: Sending, k: nat) {
    && k < |members| && !RaisedBy(cf, r, members, x, k)
    && CannotOpen(cf, TryAll(cf, r, members[..k], x).0, members[k], x.capacityOf(members[k]))
  }

  /** The send raises exactly when some member is reached whose ring cannot be opened. */
  ghost predicate RaisesIff(cf: Config, r: Region, members: seq<Bytes>, x: Sending, accepted: Option<set<Bytes>>) {
    accepted.None? <==> Exists((k: nat) => FailsAt(cf, r, members, x, k), |members|)
  }

  /** Some number below n has property p. */
  ghost predicate Exists(p: nat -> bool, n: nat) { exists k: nat :: k < n && p(k) }

  lemma ExistsGrows(p: nat -> bool, q: nat -> bool, n: nat)
    requires forall k: nat | k < n :: p(k) == q(k)
    ensures Exists(q, n + 1) <==> Exists(p, n) || q(n)
  {
    if Exists(p, n) {
      var k: nat :| k < n && p(k);
      assert q(k);
    }
  }

  lemma RaisesGrow(cf: Config, r: Region, members: seq<Bytes>, x: Sending, some: Option<set<Bytes>>,
                   accepted: Option<set<Bytes>>)
    requires members != [] && RaisesIff(cf, r, members[..|members| - 1], x, some)
    requires accepted.None? <==> some.None? || FailsAt(cf, r, members, x, |members| - 1)
    ensures RaisesIff(cf, r, members, x, accepted)
  {
    var most := members[..|members| - 1];
    forall k: nat | k < |most| ensures FailsAt(cf, r, most, x, k) == FailsAt(cf, r, members, x, k) {
      FailsInPrefix(cf, r, members, x, k);
    }
    ExistsGrows((k: nat) => FailsAt(cf, r, most, x, k), (k: nat) => FailsAt(cf, r, members, x, k), |most|);
  }

  lemma FailsInPrefix(cf: Config, r: Region, members: seq<Bytes>, x: Sending, k: nat)
    requires k < |members| - 1
    ensures FailsAt(cf, r, members[..|members| - 1], x, k) == FailsAt(cf, r, members, x, k)
  {
    var most := members[..|members| - 1];
    assert most[..k] == members[..k] && most[k] == members[k];
  }

  lemma OneMoreView(cf: Config, v: View, v1: View, v': View, members: seq<Bytes>, x: Sending, before: seq<nat>, page: nat,
                    accepted: set<Bytes>, ok: bool)
    requires members != [] && |before| == |members| - 1
    requires AllView(cf, v, members[..|members| - 1], x, before, v1, Some(accepted))
    requires var c := members[|members| - 1];
             TriedView(cf, v1, c, x.body, x.expiry, x.capacityOf(c), page, v', Accepted(ok))
    ensures var c := members[|members| - 1];
            AllView(cf, v, members, x, before + [page], v', Some(accepted + if ok then {c} else {}))
  {
    MorePages(Fabric(v), members[..|members| - 1], cf, x, before, before + [page]);
    assert SenderOf(cf, x, before + [page]).pages(|members| - 1) == page;
    assert accepted + {} == accepted;
  }

  /** One more member, after those that raised nothing. */
  lemma OneMoreTried(cf: Config, r: Region, w: G.World, members: seq<Bytes>, x: Sending, before: seq<nat>, r1: Region,
                     accepted: set<Bytes>, r2: Region, res: Result)
    returns (pages: seq<nat>)
    requires members != [] && |before| == |members| - 1 && Whole(cf, r1, w)
    requires AllView(cf, ViewOf(r, w), members[..|members| - 1], x, before, ViewOf(r1, w), Some(accepted))
    requires var n, c := |members| - 1, members[|members| - 1];
             && 0 < |c| <= NAME_WIDTH
             && (r2, res) == TryMember(cf, r1, c, x.body, x.expiry, x.capacityOf(c), x.junk(n))
    ensures Whole(cf, r2, w) && |pages| == |members| && pages == before + [pages[|members| - 1]]
    ensures res.Accepted? ==>
              AllView(cf, ViewOf(r, w), members, x, pages, ViewOf(r2, w),
                      Some(accepted + if res.ok then {members[|members| - 1]} else {}))
    ensures var n, c := |members| - 1, members[|members| - 1];
            && (res.Accepted? <==> !CannotOpen(cf, r1, c, x.capacityOf(c)))
            && PageTold(cf, Ready(cf, r1, c, x.capacityOf(c), x.junk(n)), NonLocal(c), |x.body|, pages[n])
  {
    var n, c := |members| - 1, members[|members| - 1];
    var page := MemberTried(cf, r1, w, c, x.body, x.expiry, x.capacityOf(c), x.junk(n), r2, res);
    pages := before + [page];
    if res.Accepted? {
      OneMoreView(cf, ViewOf(r, w), ViewOf(r1, w), ViewOf(r2, w), members, x, before, page, accepted, res.ok);
    }
  }

  /** The send on the region is the send of `FanOut` on the rings by name, with pages
      from the region's own slab. */
  lemma {:induction false} AllTried(cf: Config, r: Region, w: G.World, members: seq<Bytes>, x: Sending, r': Region,
                                    accepted: Option<set<Bytes>>)
    returns (pages: seq<nat>)
    requires Whole(cf, r, w) && NamesOk(members) && (r', accepted) == TryAll(cf, r, members, x)
    ensures Whole(cf, r', w) && |pages| == |members|
    ensures AllView(cf, ViewOf(r, w), members, x, pages, ViewOf(r', w), accepted)
    ensures Answers(cf, r, members, x, pages) && RaisesIff(cf, r, members, x, accepted)
    decreases |members|
  {
    if members == [] {
      pages := [];
    } else {
      var n := |members| - 1;
      assert NamesOk(members[..n]);
      var (r1, some) := TryAll(cf, r, members[..n], x);
      var before := AllTried(cf, r, w, members[..n], x, r1, some);
      pages := NextTried(cf, r, w, members, x, before, r1, some, r', accepted);
    }
  }

  /** The last member, after the others. */
  lemma NextTried(cf: Config, r: Region, w: G.World, members: seq<Bytes>, x: Sending, before: seq<nat>, r1: Region,
                  some: Option<set<Bytes>>, r': Region, accepted: Option<set<Bytes>>)
    returns (pages: seq<nat>)
    requires members != [] && NamesOk(members) && |before| == |members| - 1 && Whole(cf, r1, w)
    requires (r1, some) == TryAll(cf, r, members[..|members| - 1], x) && (r', accepted) == TryAll(cf, r, members, x)
    requires AllView(cf, ViewOf(r, w), members[..|members| - 1], x, before, ViewOf(r1, w), some)
    requires Answers(cf, r, members[..|members| - 1], x, before) && RaisesIff(cf, r, members[..|members| - 1], x, some)
    ensures Whole(cf, r', w) && |pages| == |members|
    ensures AllView(cf, ViewOf(r, w), members, x, pages, ViewOf(r', w), accepted)
    ensures Answers(cf, r, members, x, pages) && RaisesIff(cf, r, members, x, accepted)
  {
    if some.None? {
      pages := before + [0];
      LastTold(cf, r, members, x, r1, some, 0);
    } else {
      pages := LastTried(cf, r, w, members, x, before, r1, some.value, r', accepted);
    }
    AnswersGrow(cf, r, members, x, before, pages[|members| - 1]);
    RaisesGrow(cf, r, members, x, some, accepted);
  }

  /** What is said of the last member is said of the region that the others left. */
  lemma LastTold(cf: Config, r: Region, members: seq<Bytes>, x: Sending, r1: Region, some: Option<set<Bytes>>, page: nat)
    requires members != [] && (r1, some) == TryAll(cf, r, members[..|members| - 1], x)
    ensures var n, c := |members| - 1, members[|members| - 1];
            && (RaisedBy(cf, r, members, x, n) <==> some.None?)
            && (FailsAt(cf, r, members, x, n) <==> some.Some? && CannotOpen(cf, r1, c, x.capacityOf(c)))
            && (AnsweredAt(cf, r, members, x, page, n) <==>
                PageTold(cf, Ready(cf, r1, c, x.capacityOf(c), x.junk(n)), NonLocal(c), |x.body|, page))
  {
  }

  lemma LastTried(cf: Config, r: Region, w: G.World, members: seq<Bytes>, x: Sending, before: seq<nat>, r1: Region,
                  some: set<Bytes>, r': Region, accepted: Option<set<Bytes>>)
    returns (pages: seq<nat>)
    requires members != [] && NamesOk(members) && |before| == |members| - 1 && Whole(cf, r1, w)
    requires (r1, Some(some)) == TryAll(cf, r, members[..|members| - 1], x) && (r', accepted) == TryAll(cf, r, members, x)
    requires AllView(cf, ViewOf(r, w), members[..|members| - 1], x, before, ViewOf(r1, w), Some(some))
    ensures Whole(cf, r', w) && |pages| == |members| && pages == before + [pages[|members| - 1]]
    ensures AllView(cf, ViewOf(r, w), members, x, pages, ViewOf(r', w), accepted)
    ensures AnsweredAt(cf, r, members, x, pages[|members| - 1], |members| - 1)
    ensures accepted.None? <==> FailsAt(cf, r, members, x, |members| - 1)
  {
    var res := LastStep(cf, r, members, x, r1, some, r', accepted);
    assert members[|members| - 1] in members;
    pages := OneMoreTried(cf, r, w, members, x, before, r1, some, r', res);
    LastTold(cf, r, members, x, r1, Some(some), pages[|members| - 1]);
  }

  lemma LastStep(cf: Config, r: Region, members: seq<Bytes>, x: Sending, r1: Region, some: set<Bytes>, r': Region,
                 accepted: Option<set<Bytes>>)
    returns (res: Result)
    requires members != []
    requires (r1, Some(some)) == TryAll(cf, r, members[..|members| - 1], x) && (r', accepted) == TryAll(cf, r, members, x)
    ensures var n, c := |members| - 1, members[|members| - 1];
            && (r', res) == TryMember(cf, r1, c, x.body, x.expiry, x.capacityOf(c), x.junk(n))
            && accepted == if res.Accepted? then Some(some + if res.ok then {c} else {}) else None
  {
    var n, c := |members| - 1, members[|members| - 1];
    res := TryMember(cf, r1, c, x.body, x.expiry, x.capacityOf(c), x.junk(n)).1;
  }

  // ---- From the group to the buffers ----

  /** `group_send`: list the members, and try them all. */
  function SendToGroup(cf: Config, r: Region, group: Bytes, now: nat, x: Sending): (Region, Option<set<Bytes>>) {
    TryAll(cf, r, G.ListedIn(GroupConfig(cf), r.groups, r.arrays, group, now), x)
  }

  /** Only unexpired members of the group accept. */
  ghost predicate FromGroup(cf: Config, v: View, group: Bytes, now: nat, accepted: set<Bytes>) {
    forall n | n in accepted :: F.MemberNow(v.groups, group, n, cf.groupExpiry, now)
  }

  /** A list of exactly the unexpired members of the group, each once. */
  ghost predicate AllMembers(cf: Config, v: View, group: Bytes, now: nat, members: seq<Bytes>) {
    Members.Distinct(members) && forall n :: n in members <==> F.MemberNow(v.groups, group, n, cf.groupExpiry, now)
  }

  /** A group send over a region, on the rings by name: the rings and who accepted are
      those of the send to all unexpired members, each tried once, with pages from the
      region's slab. */
  lemma GroupSent(cf: Config, r: Region, w: G.World, group: Bytes, now: nat, x: Sending, r': Region, accepted: set<Bytes>)
    returns (members: seq<Bytes>, pages: seq<nat>)
    requires Whole(cf, r, w) && group != [] && w.clock <= now && WellRouted(Fabric(ViewOf(r, w)))
    requires [] !in G.ListedIn(GroupConfig(cf), r.groups, r.arrays, group, now)
    requires (r', Some(accepted)) == SendToGroup(cf, r, group, now, x)
    ensures Whole(cf, r', w) && WellRouted(Fabric(ViewOf(r', w))) && FromGroup(cf, ViewOf(r, w), group, now, accepted)
    ensures AllMembers(cf, ViewOf(r, w), group, now, members) && |pages| == |members|
    ensures AllView(cf, ViewOf(r, w), members, x, pages, ViewOf(r', w), Some(accepted))
    ensures Answers(cf, r, members, x, pages)
    ensures F.AllCopied(Fabric(ViewOf(r, w)), Fabric(ViewOf(r', w)), accepted, x.body, x.expiry)
  {
    members := G.ListedIn(GroupConfig(cf), r.groups, r.arrays, group, now);
    G.ListedMeans(r.groups, w, GroupConfig(cf), group, now);
    assert G.ListedOk(w, GroupConfig(cf), group, now, members);
    SentFromGroup(cf, w, ViewOf(r, w), group, now, members, accepted);
    pages := AllTried(cf, r, w, members, x, r', Some(accepted));
    SentByName(cf, ViewOf(r, w), members, x, pages, ViewOf(r', w), accepted);
  }

  /** It raises exactly when it reaches a member that has no ring and for which none can
      be opened. */
  lemma GroupRaises(cf: Config, r: Region, w: G.World, group: Bytes, now: nat, x: Sending) returns (members: seq<Bytes>)
    requires Whole(cf, r, w) && group != [] && w.clock <= now
    requires [] !in G.ListedIn(GroupConfig(cf), r.groups, r.arrays, group, now)
    ensures AllMembers(cf, ViewOf(r, w), group, now, members)
    ensures RaisesIff(cf, r, members, x, SendToGroup(cf, r, group, now, x).1)
  {
    members := G.ListedIn(GroupConfig(cf), r.groups, r.arrays, group, now);
    G.ListedMeans(r.groups, w, GroupConfig(cf), group, now);
    assert G.ListedOk(w, GroupConfig(cf), group, now, members);
    SentFromGroup(cf, w, ViewOf(r, w), group, now, members, {});
    var (r', accepted) := SendToGroup(cf, r, group, now, x);
    var pages := AllTried(cf, r, w, members, x, r', accepted);
  }

  lemma SentByName(cf: Config, v: View, members: seq<Bytes>, x: Sending, pages: seq<nat>, v': View, accepted: set<Bytes>)
    requires WellRouted(Fabric(v)) && F.Sendable(members) && AllView(cf, v, members, x, pages, v', Some(accepted))
    ensures WellRouted(Fabric(v')) && (forall c | c in accepted :: c in members)
    ensures F.AllCopied(Fabric(v), Fabric(v'), accepted, x.body, x.expiry)
  {
    F.SendAllMeans(Fabric(v), members, x.body, x.expiry, SenderOf(cf, x, pages));
  }

  lemma SentFromGroup(cf: Config, w: G.World, v: View, group: Bytes, now: nat, members: seq<Bytes>, accepted: set<Bytes>)
    requires G.ListedOk(w, GroupConfig(cf), group, now, members) && v.groups == w.groups && [] !in members
    ensures NamesOk(members) && F.Sendable(members) && AllMembers(cf, v, group, now, members)
    ensures (forall c | c in accepted :: c in members) ==> FromGroup(cf, v, group, now, accepted)
  {
  }

  /** Fan-out over a whole region, end to end: a group send that did not fail, then a
      drain of what the region's rings hold. All unexpired members are tried, each
      once, and every channel n of a ring that is drained finds in its buffer what it
      and its ring held before, and then exactly one copy if n accepted. */
  lemma RegionDelivers(cf: Config, r: Region, w: G.World, group: Bytes, now: nat, x: Sending, size: int,
                       was: map<Bytes, seq<Message>>, buffers: map<Bytes, seq<Message>>, watched: set<Bytes>, n: Bytes,
                       at: int, codec: Codec)
    returns (members: seq<Bytes>, pages: seq<nat>)
    requires Whole(cf, r, w) && group != [] && w.clock <= now && SendToGroup(cf, r, group, now, x).1.Some?
    requires WellRouted(Fabric(ViewOf(r, w)))
    requires [] !in G.ListedIn(GroupConfig(cf), r.groups, r.arrays, group, now)
    requires var r' := SendToGroup(cf, r, group, now, x).0;
             Drained(size, was, buffers, Fabric(ViewOf(r', w)), watched, n, at, codec)
    requires Visited(watched, NonLocal(n)) && at <= x.expiry && codec.nameOk(n) && codec.decode(x.body).Some?
    ensures var (r', accepted) := SendToGroup(cf, r, group, now, x);
            && Whole(cf, r', w) && WellRouted(Fabric(ViewOf(r', w)))
            && FromGroup(cf, ViewOf(r, w), group, now, accepted.value)
            && AllMembers(cf, ViewOf(r, w), group, now, members) && |pages| == |members|
            && AllView(cf, ViewOf(r, w), members, x, pages, ViewOf(r', w), accepted)
            && F.Arrived(size, was, buffers, Fabric(ViewOf(r, w)), accepted.value, n, at, codec,
                         codec.decode(x.body).value)
  {
    var (r', accepted) := SendToGroup(cf, r, group, now, x);
    members, pages := GroupSent(cf, r, w, group, now, x, r', accepted.value);
    assert F.Copied(Fabric(ViewOf(r, w)), Fabric(ViewOf(r', w)), accepted.value, x.body, x.expiry, n);
    F.FanOutDelivers(Fabric(ViewOf(r, w)), Fabric(ViewOf(r', w)), accepted.value, x.body, x.expiry, size, was, buffers,
                     watched, n, at, codec);
  }
}
