/** The receive pump: many channels share a ring; messages are told apart by the
    name stored with them and go to per-channel buffers that drop their oldest
    message when full. The order in which rings are drained is shuffled. */
module Pump {
  import opened Prelude
  import opened Routing
  import Q = RingQueue

  datatype Message = Message(payload: Bytes)

  // ---- Buffers ----

  /** `put_nowait`: drop the oldest when full; a size of zero or less is unbounded. */
  function Put(size: int, buf: seq<Message>, x: Message): seq<Message> {
    (if size > 0 && |buf| >= size then buf[1..] else buf) + [x]
  }

  /** The newest `size` messages. */
  function Newest(size: int, s: seq<Message>): seq<Message> {
    if size <= 0 || |s| <= size then s else s[|s| - size..]
  }

  lemma PutKeepsNewest(size: int, s: seq<Message>, x: Message)
    ensures Put(size, Newest(size, s), x) == Newest(size, s + [x])
  {
  }

  function BufferOf(buffers: map<Bytes, seq<Message>>, n: Bytes): seq<Message> {
    if n in buffers then buffers[n] else []
  }

  ghost predicate Bounded(size: int, buffers: map<Bytes, seq<Message>>) {
    size > 0 ==> forall n | n in buffers :: |buffers[n]| <= size
  }

  // ---- Messages ----

  /** How this process reads names and bodies; both may fail. */
  datatype Codec = Codec(nameOk: Bytes -> bool, decode: Bytes -> Option<Message>)

  /** What a queued message is worth to the buffer of channel n. */
  function ItemOf(x: Q.Queued, n: Bytes, now: int, codec: Codec): seq<Message> {
    if x.channel == n && now <= x.expiry && codec.nameOk(n) && codec.decode(x.body).Some? then [codec.decode(x.body).value]
    else []
  }

  /** The unexpired, decodable messages of channel n, in ring order. */
  function Items(q: seq<Q.Queued>, n: Bytes, now: int, codec: Codec): seq<Message> {
    if q == [] then [] else Items(q[..|q| - 1], n, now, codec) + ItemOf(q[|q| - 1], n, now, codec)
  }

  lemma {:induction false} ItemsConcat(p: seq<Q.Queued>, q: seq<Q.Queued>, n: Bytes, now: int, codec: Codec)
    ensures Items(p + q, n, now, codec) == Items(p, n, now, codec) + Items(q, n, now, codec)
  {
    if q == [] {
      assert p + q == p;
    } else {
      ItemsConcat(p, q[..|q| - 1], n, now, codec);
      assert (p + q)[..|p + q| - 1] == p + q[..|q| - 1];
    }
  }

  lemma {:induction false} ExpiredItems(q: seq<Q.Queued>, n: Bytes, now: int, codec: Codec)
    requires forall k | 0 <= k < |q| :: now > q[k].expiry
    ensures Items(q, n, now, codec) == []
  {
    if q != [] {
      ExpiredItems(q[..|q| - 1], n, now, codec);
    }
  }

  // ---- Rings ----

  datatype Ring = Ring(cap: nat, queue: Q.Queue)

  /** Every message is in the ring its own name maps to. */
  ghost predicate WellRouted(rings: map<Bytes, Ring>) {
    forall key, k: nat | key in rings && k < |rings[key].queue.q| :: RoutedAt(rings, key, k)
  }

  predicate RoutedAt(rings: map<Bytes, Ring>, key: Bytes, k: nat) {
    key in rings && k < |rings[key].queue.q| ==> NonLocal(rings[key].queue.q[k].channel) == key
  }

  function QueueAt(rings: map<Bytes, Ring>, key: Bytes): seq<Q.Queued> {
    if key in rings then rings[key].queue.q else []
  }

  /** Messages of a name live only in its own ring. */
  lemma {:induction false} ForeignItems(q: seq<Q.Queued>, key: Bytes, n: Bytes, now: int, codec: Codec)
    requires forall k | 0 <= k < |q| :: NonLocal(q[k].channel) == key
    requires NonLocal(n) != key
    ensures Items(q, n, now, codec) == []
  {
    if q != [] {
      ForeignItems(q[..|q| - 1], key, n, now, codec);
    }
  }

  /** The rings every process of the layer shares. */
  class Fabric {
    var rings: map<Bytes, Ring>

    /** One `try_dequeue` on a ring, as `RingQueue.Ring` performs it. */
    method TryDequeue(key: Bytes, now: int) returns (r: Option<(Bytes, Bytes)>)
      requires key in rings
      modifies this
      ensures rings == old(rings)[key := Ring(old(rings)[key].cap, Q.Dequeued(old(rings)[key].queue, now).0)]
      ensures r == Q.Dequeued(old(rings)[key].queue, now).1
    {
      var (queue, m) := Q.Dequeued(rings[key].queue, now);
      rings := rings[key := rings[key].(queue := queue)];
      return m;
    }
  }

  // ---- The pump ----

  /** Some channel of the set is kept in ring `key`. */
  ghost predicate Visited(channels: set<Bytes>, key: Bytes) { exists c :: c in channels && NonLocal(c) == key }

  /** What a drain leaves in the buffer of channel n: the newest messages of the old
      buffer followed by n's messages in ring order, if n's ring was drained. It
      depends on which channels were drained, not on their order. */
  ghost predicate Drained(size: int, was: map<Bytes, seq<Message>>, buffers: map<Bytes, seq<Message>>,
                          rings: map<Bytes, Ring>, channels: set<Bytes>, n: Bytes, now: int, codec: Codec)
  {
    BufferOf(buffers, n) ==
    if Visited(channels, NonLocal(n))
    then Newest(size, BufferOf(was, n) + Items(QueueAt(rings, NonLocal(n)), n, now, codec))
    else BufferOf(was, n)
  }

  /** A drained ring is empty, every other ring is as it was. */
  ghost predicate Emptied(rings: map<Bytes, Ring>, rings': map<Bytes, Ring>, channels: set<Bytes>, key: Bytes) {
    && (key in rings' <==> key in rings)
    && (key in rings && Visited(channels, key) ==> rings'[key].queue.q == [])
    && (key in rings && !Visited(channels, key) ==> rings'[key] == rings[key])
  }

  /** What delivering one message does to the buffer of channel n. */
  predicate Delivered(size: int, before: map<Bytes, seq<Message>>, after: map<Bytes, seq<Message>>, name: Bytes, body: Bytes,
                      n: Bytes, codec: Codec)
  {
    BufferOf(after, n) ==
    if n == name && codec.nameOk(n) && codec.decode(body).Some?
    then Put(size, BufferOf(before, n), codec.decode(body).value)
    else BufferOf(before, n)
  }

  class ReceivePump {
    const fabric: Fabric
    const capacity: int
    const codec: Codec
    var watched: set<Bytes>
    var buffers: map<Bytes, seq<Message>>

    constructor (fabric: Fabric, capacity: int, codec: Codec)
      ensures this.fabric == fabric && this.capacity == capacity && this.codec == codec && watched == {} && buffers == map[]
    {
      this.fabric, this.capacity, this.codec := fabric, capacity, codec;
      watched, buffers := {}, map[];
    }

    ghost predicate Valid()
      reads this, fabric
    {
      Bounded(capacity, buffers) && WellRouted(fabric.rings)
    }

    /** Deliver one dequeued message, or drop it if it cannot be read. */
    method Deliver(name: Bytes, body: Bytes)
      modifies this`buffers
      ensures forall n :: Delivered(capacity, old(buffers), buffers, name, body, n, codec)
      ensures old(Bounded(capacity, buffers)) ==> Bounded(capacity, buffers)
      ensures old(buffers).Keys <= buffers.Keys
    {
      if codec.nameOk(name) {
        var buf := BufferOf(buffers, name);
        buffers := buffers[name := buf];
        var m := codec.decode(body);
        if m.Some? {
          buffers := buffers[name := Put(capacity, buf, m.value)];
        }
      }
    }

    /** `drain_rings`: visit the watched channels in any order and drain their rings. */
    method DrainRings(order: seq<Bytes>, now: int)
      requires Valid() && forall c :: c in order <==> c in watched
      modifies this`buffers, fabric
      ensures Valid()
      ensures forall n :: Drained(capacity, old(buffers), buffers, old(fabric.rings), watched, n, now, codec)
      ensures forall key :: Emptied(old(fabric.rings), fabric.rings, watched, key)
      ensures old(buffers).Keys <= buffers.Keys
    {
      ghost var was, rings := buffers, fabric.rings;
      ghost var done: set<Bytes> := {};
      var i := 0;
      while i < |order|
        invariant 0 <= i <= |order| && done == Firsts(order, i) && Valid()
        invariant forall n :: Drained(capacity, was, buffers, rings, done, n, now, codec)
        invariant forall key :: Emptied(rings, fabric.rings, done, key)
        invariant was.Keys <= buffers.Keys
      {
        var key := NonLocal(order[i]);
        ghost var before, mid := buffers, fabric.rings;
        NonLocalIdempotent(order[i]);
        if NonLocal(key) in fabric.rings {
          DrainRing(NonLocal(key), now);
        }
        ghost var done' := done + {order[i]};
        forall n ensures Drained(capacity, was, buffers, rings, done', n, now, codec) {
          assert Drained(capacity, was, before, rings, done, n, now, codec);
          DrainedOneMore(capacity, was, before, buffers, rings, mid, done, order[i], n, now, codec);
        }
        forall k ensures Emptied(rings, fabric.rings, done', k) {
          assert Emptied(rings, mid, done, k);
        }
        done := done';
        i := i + 1;
      }
      assert done == watched;
    }

    /** `watch_channel`: a channel watched for the first time is drained at once. */
    method WatchChannel(channel: Bytes, order: seq<Bytes>, now: int)
      requires Valid() && forall c :: c in order <==> c in watched + {channel}
      modifies this, fabric
      ensures Valid() && watched == old(watched) + {channel} && channel in buffers
      ensures channel in old(watched) ==>
                fabric.rings == old(fabric.rings) && forall n :: BufferOf(buffers, n) == BufferOf(old(buffers), n)
      ensures channel !in old(watched) ==>
                forall n :: Drained(capacity, old(buffers), buffers, old(fabric.rings), watched, n, now, codec)
    {
      var isNew := channel !in watched;
      watched := watched + {channel};
      ghost var was, rings := buffers, fabric.rings;
      buffers := buffers[channel := BufferOf(buffers, channel)];
      ghost var seeded := buffers;
      assert forall n :: BufferOf(seeded, n) == BufferOf(was, n);
      if isNew {
        DrainRings(order, now);
        forall n ensures Drained(capacity, was, buffers, rings, watched, n, now, codec) {
          assert Drained(capacity, seeded, buffers, rings, watched, n, now, codec);
        }
      }
    }

    method Clear()
      requires Valid()
      modifies this
      ensures Valid() && watched == {} && buffers == map[]
    {
      watched, buffers := {}, map[];
    }

    /** Drain one ring until it has nothing more to give. */
    method DrainRing(key: Bytes, now: int)
      requires Valid() && key in fabric.rings
      modifies this`buffers, fabric
      ensures Valid()
      ensures fabric.rings.Keys == old(fabric.rings).Keys && fabric.rings[key].queue.q == []
      ensures forall k | k in fabric.rings && k != key :: fabric.rings[k] == old(fabric.rings)[k]
      ensures forall n :: Progress(capacity, old(buffers), buffers, old(fabric.rings)[key].queue.q, key, n, now, codec)
      ensures old(buffers).Keys <= buffers.Keys
    {
      ghost var q, was, rings := fabric.rings[key].queue.q, buffers, fabric.rings;
      ghost var j := 0;
      forall k | 0 <= k < |q| ensures NonLocal(q[k].channel) == key {
        assert RoutedAt(rings, key, k);
      }
      forall n ensures Progress(capacity, was, buffers, q[..j], key, n, now, codec) {
      }
      var more := true;
      while more
        invariant j <= |q| && Bounded(capacity, buffers) && fabric.rings.Keys == rings.Keys
        invariant fabric.rings[key].queue.q == q[j..] && (!more ==> q[j..] == [])
        invariant forall k | k in rings && k != key :: fabric.rings[k] == rings[k]
        invariant forall n :: Progress(capacity, was, buffers, q[..j], key, n, now, codec)
        invariant was.Keys <= buffers.Keys
        decreases |q| - j, more
      {
        more, j := DrainOne(key, now, was, q, j);
      }
      assert q[..j] == q;
      DrainedRouted(rings, fabric.rings, key);
    }

    /** One turn of the drain loop: the message after those already delivered. */
    method DrainOne(key: Bytes, now: int, ghost was: map<Bytes, seq<Message>>, ghost q: seq<Q.Queued>, ghost j: nat)
      returns (more: bool, ghost j': nat)
      requires key in fabric.rings && j <= |q| && fabric.rings[key].queue.q == q[j..] && Bounded(capacity, buffers)
      requires forall k | 0 <= k < |q| :: NonLocal(q[k].channel) == key
      requires forall n :: Progress(capacity, was, buffers, q[..j], key, n, now, codec)
      modifies this`buffers, fabric
      ensures if more then j < j' <= |q| else j' == |q|
      ensures fabric.rings.Keys == old(fabric.rings).Keys && fabric.rings[key].queue.q == q[j'..]
      ensures Bounded(capacity, buffers)
      ensures forall k | k in fabric.rings && k != key :: fabric.rings[k] == old(fabric.rings)[k]
      ensures forall n :: Progress(capacity, was, buffers, q[..j'], key, n, now, codec)
      ensures old(buffers).Keys <= buffers.Keys
    {
      ghost var before := buffers;
      ghost var k := Q.DequeuedMeans(fabric.rings[key].queue, now);
      var r := fabric.TryDequeue(key, now);
      if r.None? {
        forall n ensures Progress(capacity, was, buffers, q, key, n, now, codec) {
          assert Progress(capacity, was, buffers, q[..j], key, n, now, codec);
          RestExpired(q, j, n, now, codec);
        }
        assert q[..|q|] == q && q[|q|..] == [];
        return false, |q|;
      }
      assert fabric.rings[key].queue.q == q[j..][k + 1..] == q[j + k + 1..];
      assert q[j..][k] == q[j + k];
      Deliver(r.value.0, r.value.1);
      j' := j + k + 1;
      ghost var done := q[..j'];
      forall n ensures Progress(capacity, was, buffers, done, key, n, now, codec) {
        assert Progress(capacity, was, before, q[..j], key, n, now, codec);
        OneDelivered(capacity, was, before, buffers, q, j, k, done, key, n, now, codec);
      }
      return true, j';
    }
  }

  function Firsts(order: seq<Bytes>, i: nat): set<Bytes>
    requires i <= |order|
  {
    set k | 0 <= k < i :: order[k]
  }

  /** One more channel visited. */
  lemma DrainedOneMore(size: int, was: map<Bytes, seq<Message>>, before: map<Bytes, seq<Message>>,
                       after: map<Bytes, seq<Message>>, rings: map<Bytes, Ring>, mid: map<Bytes, Ring>, done: set<Bytes>,
                       c: Bytes, n: Bytes, now: int, codec: Codec)
    requires Drained(size, was, before, rings, done, n, now, codec) && Emptied(rings, mid, done, NonLocal(c))
    requires Bounded(size, before)
    requires if NonLocal(c) in mid then Progress(size, before, after, mid[NonLocal(c)].queue.q, NonLocal(c), n, now, codec)
             else after == before
    ensures Drained(size, was, after, rings, done + {c}, n, now, codec)
  {
    var key, done' := NonLocal(c), done + {c};
    assert Visited(done', key) && (Visited(done', NonLocal(n)) <==> Visited(done, NonLocal(n)) || NonLocal(n) == key);
    if NonLocal(n) == key {
      var buf := BufferOf(before, n);
      assert buf + [] == buf && BufferOf(was, n) + [] == BufferOf(was, n);
      assert Newest(size, buf) == buf;
    }
  }

  lemma RestExpired(q: seq<Q.Queued>, j: nat, n: Bytes, now: int, codec: Codec)
    requires j <= |q| && forall t | j <= t < |q| :: now > q[t].expiry
    ensures Items(q, n, now, codec) == Items(q[..j], n, now, codec)
  {
    assert q == q[..j] + q[j..];
    ItemsConcat(q[..j], q[j..], n, now, codec);
    ExpiredItems(q[j..], n, now, codec);
  }

  /** Delivering message j + k, the k before it having expired. */
  lemma OneDelivered(size: int, was: map<Bytes, seq<Message>>, before: map<Bytes, seq<Message>>,
                     after: map<Bytes, seq<Message>>, q: seq<Q.Queued>, j: nat, k: nat, done: seq<Q.Queued>, key: Bytes,
                     n: Bytes, now: int, codec: Codec)
    requires j + k < |q| && NonLocal(q[j + k].channel) == key && done == q[..j + k + 1]
    requires (forall t | j <= t < j + k :: now > q[t].expiry) && now <= q[j + k].expiry
    requires Progress(size, was, before, q[..j], key, n, now, codec)
    requires Delivered(size, before, after, q[j + k].channel, q[j + k].body, n, codec)
    ensures Progress(size, was, after, done, key, n, now, codec)
  {
    ItemsExtend(q, j, k, n, now, codec);
    if NonLocal(n) == key {
      Appended(size, BufferOf(was, n), Items(q[..j], n, now, codec), ItemOf(q[j + k], n, now, codec));
    }
  }

  lemma ItemsExtend(q: seq<Q.Queued>, j: nat, k: nat, n: Bytes, now: int, codec: Codec)
    requires j + k < |q| && forall t | j <= t < j + k :: now > q[t].expiry
    ensures Items(q[..j + k + 1], n, now, codec) == Items(q[..j], n, now, codec) + ItemOf(q[j + k], n, now, codec)
  {
    var p := q[..j + k];
    assert q[..j + k + 1][..j + k] == p && p[..j] == q[..j];
    RestExpired(p, j, n, now, codec);
  }

  lemma Appended(size: int, buf: seq<Message>, items: seq<Message>, item: seq<Message>)
    requires |item| <= 1
    ensures Newest(size, buf + (items + item)) ==
            if item == [] then Newest(size, buf + items) else Put(size, Newest(size, buf + items), item[0])
  {
    assert buf + (items + item) == buf + items + item;
    if item == [] {
      assert buf + items + item == buf + items;
    } else {
      assert item == [item[0]];
      PutKeepsNewest(size, buf + items, item[0]);
    }
  }

  lemma DrainedRouted(rings: map<Bytes, Ring>, rings': map<Bytes, Ring>, key: Bytes)
    requires WellRouted(rings) && rings'.Keys == rings.Keys && key in rings && rings'[key].queue.q == []
    requires forall k | k in rings && k != key :: rings'[k] == rings[k]
    ensures WellRouted(rings')
  {
    forall k, i: nat | k in rings' && i < |rings'[k].queue.q| ensures RoutedAt(rings', k, i) {
      assert RoutedAt(rings, k, i);
    }
  }

  /** The buffer of n after the messages `done` of its ring were delivered. */
  ghost predicate Progress(size: int, was: map<Bytes, seq<Message>>, buffers: map<Bytes, seq<Message>>, done: seq<Q.Queued>,
                           key: Bytes, n: Bytes, now: int, codec: Codec)
  {
    BufferOf(buffers, n) ==
    if NonLocal(n) == key then Newest(size, BufferOf(was, n) + Items(done, n, now, codec)) else BufferOf(was, n)
  }
}
