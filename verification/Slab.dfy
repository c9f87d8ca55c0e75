/** The size-class allocator over real memory: free-list links live inside the
    free blocks, so a write in the wrong place would destroy them. Offsets are
    bytes; memory is an array of 8-byte words. */
module Slab {

  const NUM_CLASSES: nat := 12

  function SizeOf(c: nat): (size: nat)
    requires c < NUM_CLASSES
    ensures 512 <= size && size % 8 == 0
  {
    match c
    case 0 => 512
    case 1 => 2048
    case 2 => 8192
    case 3 => 32768
    case 4 => 131072
    case 5 => 262144
    case 6 => 524288
    case 7 => 1048576
    case 8 => 2097152
    case 9 => 4194304
    case 10 => 8388608
    case _ => 16777216
  }

  lemma ClassesAscend(c: nat, d: nat)
    requires c < d < NUM_CLASSES
    ensures SizeOf(c) < SizeOf(d)
  {
  }

  /** The first class that is large enough, NUM_CLASSES when there is none. */
  function ClassFor(size: nat): (c: nat)
    ensures c <= NUM_CLASSES
    ensures c < NUM_CLASSES ==> size <= SizeOf(c) && forall d: nat | d < c :: SizeOf(d) < size
    ensures c == NUM_CLASSES ==> forall d: nat | d < NUM_CLASSES :: SizeOf(d) < size
  {
    FirstClass(size, 0)
  }

  function FirstClass(size: nat, c: nat): (r: nat)
    requires c <= NUM_CLASSES && forall d: nat | d < c :: SizeOf(d) < size
    ensures c <= r <= NUM_CLASSES && forall d: nat | d < r :: SizeOf(d) < size
    ensures r < NUM_CLASSES ==> size <= SizeOf(r)
    decreases NUM_CLASSES - c
  {
    if c == NUM_CLASSES || size <= SizeOf(c) then c else FirstClass(size, c + 1)
  }

  /** The classes at or above the chosen one are exactly those large enough. */
  lemma ClassForIsSmallest(size: nat, d: nat)
    requires d < NUM_CLASSES
    ensures size <= SizeOf(d) <==> ClassFor(size) <= d
  {
    if ClassFor(size) < d {
      ClassesAscend(ClassFor(size), d);
    }
  }

  // ---- The pool as values: blocks, lists, memory ----

  /** Every block ever carved from the pool, with its class. */
  type Blocks = m: map<nat, nat> | forall b | b in m :: m[b] < NUM_CLASSES witness map[]

  function End(blocks: Blocks, b: nat): nat
    requires b in blocks
  {
    b + SizeOf(blocks[b])
  }

  /** Address a lies in some block. */
  ghost predicate Covered(blocks: Blocks, a: nat) {
    exists b :: Covers(blocks, b, a)
  }

  predicate Covers(blocks: Blocks, b: nat, a: nat) { b in blocks && b <= a < End(blocks, b) }

  predicate Apart(blocks: Blocks, b: nat, c: nat) {
    b in blocks && c in blocks && b != c ==> End(blocks, b) <= c || End(blocks, c) <= b
  }

  predicate Inside(blocks: Blocks, b: nat, lo: nat, hi: nat) {
    b in blocks ==> b % 8 == 0 && lo <= b && End(blocks, b) <= hi
  }

  /** The blocks tile [lo, hi) exactly: aligned, inside, disjoint, without a gap. */
  ghost predicate Tiles(blocks: Blocks, lo: nat, hi: nat) {
    && (forall b :: Inside(blocks, b, lo, hi))
    && (forall b, c :: Apart(blocks, b, c))
    && (forall a | lo <= a < hi :: Covered(blocks, a))
  }

  /** Carving a block at the frontier keeps the tiling exact. */
  lemma TilesGrow(blocks: Blocks, lo: nat, hi: nat, c: nat)
    requires Tiles(blocks, lo, hi) && c < NUM_CLASSES && lo <= hi && hi % 8 == 0
    ensures hi !in blocks && Tiles(blocks[hi := c], lo, hi + SizeOf(c))
  {
    var blocks' := blocks[hi := c];
    var end := hi + SizeOf(c);
    assert Inside(blocks, hi, lo, hi);
    forall b ensures Inside(blocks', b, lo, end) {
      assert Inside(blocks, b, lo, hi);
    }
    forall b, d ensures Apart(blocks', b, d) {
      assert Apart(blocks, b, d) && Inside(blocks, b, lo, hi) && Inside(blocks, d, lo, hi);
    }
    forall a | lo <= a < end ensures Covered(blocks', a) {
      if a < hi {
        assert Covered(blocks, a);
        var b :| Covers(blocks, b, a);
        assert Covers(blocks', b, a);
      } else {
        assert Covers(blocks', hi, a);
      }
    }
  }

  function NextOf(list: seq<nat>, k: nat): nat {
    if k + 1 < |list| then list[k + 1] else 0
  }

  /** Entry k of a free list holds its link in its own first word. */
  predicate LinkOk(mem: seq<nat>, list: seq<nat>, k: nat) {
    k < |list| && list[k] / 8 < |mem| ==> mem[list[k] / 8] == NextOf(list, k)
  }

  /** A free list of class c: its head, its links, blocks of that class, none of
      them twice, none of them in use. */
  ghost predicate FreeList(mem: seq<nat>, head: nat, list: seq<nat>, c: nat, blocks: Blocks, live: set<nat>) {
    && head == (if list == [] then 0 else list[0])
    && (forall k: nat :: LinkOk(mem, list, k))
    && (forall b | b in list :: b in blocks && blocks[b] == c && b !in live)
    && (forall j, k | 0 <= j < k < |list| :: list[j] != list[k])
  }

  lemma Pushed(mem: seq<nat>, mem': seq<nat>, list: seq<nat>, c: nat, blocks: Blocks, live: set<nat>, b: nat)
    requires FreeList(mem, if list == [] then 0 else list[0], list, c, blocks, live)
    requires b in blocks && blocks[b] == c && b in live && |mem'| == |mem|
    requires b / 8 < |mem| ==> mem'[b / 8] == if list == [] then 0 else list[0]
    requires forall f | f in list && f / 8 < |mem| :: mem'[f / 8] == mem[f / 8]
    ensures FreeList(mem', b, [b] + list, c, blocks, live - {b})
  {
    var list' := [b] + list;
    forall k: nat ensures LinkOk(mem', list', k) {
      if 0 < k < |list'| {
        assert list'[k] == list[k - 1] && LinkOk(mem, list, k - 1);
      }
    }
  }

  lemma Popped(mem: seq<nat>, mem': seq<nat>, list: seq<nat>, c: nat, blocks: Blocks, live: set<nat>)
    requires list != [] && FreeList(mem, list[0], list, c, blocks, live) && |mem'| == |mem|
    requires forall f | f in list && f / 8 < |mem| :: mem'[f / 8] == mem[f / 8]
    ensures FreeList(mem', NextOf(list, 0), list[1..], c, blocks, live + {list[0]})
  {
    var list' := list[1..];
    forall k: nat ensures LinkOk(mem', list', k) {
      if k < |list'| {
        assert list'[k] == list[k + 1] && LinkOk(mem, list, k + 1);
      }
    }
    forall b | b in list' ensures b in list && b != list[0] {
      var k :| 0 <= k < |list'| && list'[k] == b;
      assert list[k + 1] == b;
    }
  }

  /** A list of another class is untouched by what happens elsewhere. */
  lemma ListKept(mem: seq<nat>, mem': seq<nat>, head: nat, list: seq<nat>, c: nat, blocks: Blocks, live: set<nat>,
                 blocks': Blocks, live': set<nat>)
    requires FreeList(mem, head, list, c, blocks, live) && |mem'| == |mem|
    requires forall f | f in list && f / 8 < |mem| :: mem'[f / 8] == mem[f / 8]
    requires forall f | f in list :: f in blocks' && blocks'[f] == blocks[f] && f !in live'
    ensures FreeList(mem', head, list, c, blocks', live')
  {
    forall k: nat ensures LinkOk(mem', list, k) {
      assert LinkOk(mem, list, k);
    }
  }

  // ---- The whole pool ----

  /** Pool metadata, in words: a spinlock and a list head per class, then the bump
      pointer; the blocks follow. */
  function LockWord(pool: nat, c: nat): nat { pool / 8 + c }
  function HeadWord(pool: nat, c: nat): nat { pool / 8 + NUM_CLASSES + c }
  function BumpWord(pool: nat): nat { pool / 8 + 2 * NUM_CLASSES }
  function DataStart(pool: nat): nat { pool + (2 * NUM_CLASSES + 1) * 8 }

  /** Where the next block would be carved; a zero bump pointer means the start. */
  function Frontier(mem: seq<nat>, pool: nat): nat
    requires BumpWord(pool) < |mem|
  {
    if mem[BumpWord(pool)] == 0 then DataStart(pool) else mem[BumpWord(pool)]
  }

  ghost predicate Shape(mem: seq<nat>, pool: nat, end: nat) {
    pool % 8 == 0 && end <= 8 * |mem| && DataStart(pool) <= 8 * |mem|
  }

  /** The allocator's state: what was carved, what is in use, what is free. */
  datatype Pool = Pool(blocks: Blocks, live: set<nat>, lists: seq<seq<nat>>)

  ghost predicate ListOk(mem: seq<nat>, pool: nat, p: Pool, c: nat) {
    c < NUM_CLASSES && c < |p.lists| && HeadWord(pool, c) < |mem| ==>
      FreeList(mem, mem[HeadWord(pool, c)], p.lists[c], c, p.blocks, p.live)
  }

  predicate Accounted(p: Pool, b: nat) {
    b in p.blocks && p.blocks[b] < |p.lists| ==> b in p.live || b in p.lists[p.blocks[b]]
  }

  ghost predicate ListsOk(mem: seq<nat>, pool: nat, p: Pool) { forall c: nat :: ListOk(mem, pool, p, c) }

  ghost predicate AllAccounted(p: Pool) { forall b :: Accounted(p, b) }

  /** The frontier is aligned, within the pool, and the blocks tile up to it. */
  ghost predicate Carved(mem: seq<nat>, pool: nat, end: nat, blocks: Blocks)
    requires BumpWord(pool) < |mem|
  {
    var f := Frontier(mem, pool);
    f % 8 == 0 && DataStart(pool) <= f && (f <= end || f == DataStart(pool)) && Tiles(blocks, DataStart(pool), f)
  }

  ghost predicate PoolOk(mem: seq<nat>, pool: nat, end: nat, p: Pool) {
    && Shape(mem, pool, end) && |p.lists| == NUM_CLASSES && p.live <= p.blocks.Keys
    && Carved(mem, pool, end, p.blocks) && ListsOk(mem, pool, p) && AllAccounted(p)
  }

  /** Free blocks lie past the metadata, so metadata stores keep their links. */
  lemma MetadataApart(mem: seq<nat>, pool: nat, end: nat, p: Pool, c: nat)
    requires PoolOk(mem, pool, end, p) && c < NUM_CLASSES
    ensures forall f | f in p.lists[c] :: BumpWord(pool) < f / 8 && f / 8 < |mem|
    ensures p.lists[c] != [] ==> BumpWord(pool) < p.lists[c][0] / 8 < |mem|
  {
    forall f | f in p.lists[c] ensures BumpWord(pool) < f / 8 && f / 8 < |mem| {
      assert ListOk(mem, pool, p, c);
      assert Inside(p.blocks, f, DataStart(pool), Frontier(mem, pool));
    }
    if p.lists[c] != [] {
      assert p.lists[c][0] in p.lists[c];
    }
  }

  /** Two different blocks do not share a word. */
  lemma WordsApart(blocks: Blocks, lo: nat, hi: nat, b: nat, d: nat, w: nat)
    requires Tiles(blocks, lo, hi) && b in blocks && d in blocks && b != d
    requires b / 8 <= w < End(blocks, b) / 8
    ensures w != d / 8
  {
    assert Apart(blocks, b, d) && Inside(blocks, b, lo, hi) && Inside(blocks, d, lo, hi);
  }

  function PopList(p: Pool, c: nat): Pool
    requires c < |p.lists| && p.lists[c] != []
  {
    p.(live := p.live + {p.lists[c][0]}, lists := p.lists[c := p.lists[c][1..]])
  }

  lemma PopKeepsPool(mem: seq<nat>, mem': seq<nat>, pool: nat, end: nat, p: Pool, p': Pool, c: nat, head: nat, next: nat)
    requires PoolOk(mem, pool, end, p) && c < NUM_CLASSES && mem[HeadWord(pool, c)] == head != 0
    requires head / 8 < |mem| ==> next == mem[head / 8]
    requires mem' == mem[HeadWord(pool, c) := next] && p.lists[c] != [] && p' == PopList(p, c)
    ensures head !in p.live && head == p.lists[c][0] && PoolOk(mem', pool, end, p')
  {
    var list := p.lists[c];
    assert ListOk(mem, pool, p, c);
    MetadataApart(mem, pool, end, p, c);
    assert list[0] in list;
    assert LinkOk(mem, list, 0);
    Popped(mem, mem', list, c, p.blocks, p.live);
    PopKeepsLists(mem, pool, end, p, p', mem', c);
    PopAccounted(p, c);
  }

  lemma PopKeepsLists(mem: seq<nat>, pool: nat, end: nat, p: Pool, p': Pool, mem': seq<nat>, c: nat)
    requires PoolOk(mem, pool, end, p) && c < NUM_CLASSES && p.lists[c] != [] && p.lists[c][0] / 8 < |mem|
    requires mem' == mem[HeadWord(pool, c) := mem[p.lists[c][0] / 8]] && p' == PopList(p, c)
    requires FreeList(mem', mem[p.lists[c][0] / 8], p.lists[c][1..], c, p.blocks, p'.live)
    ensures ListsOk(mem', pool, p')
  {
    forall d: nat ensures ListOk(mem', pool, p', d) {
      PopKeepsList(mem, pool, end, p, c, d);
    }
  }

  lemma PopAccounted(p: Pool, c: nat)
    requires AllAccounted(p) && c < |p.lists| && p.lists[c] != []
    ensures AllAccounted(PopList(p, c))
  {
    forall b ensures Accounted(PopList(p, c), b) {
      assert Accounted(p, b);
      InHeadOrTail(p.lists[c], b);
    }
  }

  /** A head that is not 0 is the first block of its list. */
  lemma HeadOfList(mem: seq<nat>, pool: nat, end: nat, p: Pool, c: nat)
    requires PoolOk(mem, pool, end, p) && c < NUM_CLASSES
    ensures var head := mem[HeadWord(pool, c)];
            if head == 0 then p.lists[c] == []
            else p.lists[c] != [] && head == p.lists[c][0] && BumpWord(pool) < head / 8 < |mem|
                 && head in p.blocks && p.blocks[head] == c
  {
    assert ListOk(mem, pool, p, c);
    MetadataApart(mem, pool, end, p, c);
    if p.lists[c] != [] {
      assert p.lists[c][0] in p.lists[c];
    }
  }

  lemma InHeadOrTail(list: seq<nat>, b: nat)
    requires list != []
    ensures b in list <==> b == list[0] || b in list[1..]
  {
    assert list == [list[0]] + list[1..];
  }

  lemma PopKeepsList(mem: seq<nat>, pool: nat, end: nat, p: Pool, c: nat, d: nat)
    requires PoolOk(mem, pool, end, p) && c < NUM_CLASSES && p.lists[c] != []
    requires p.lists[c][0] / 8 < |mem|
    requires d == c ==>
               FreeList(mem[HeadWord(pool, c) := mem[p.lists[c][0] / 8]], mem[p.lists[c][0] / 8], p.lists[c][1..], c,
                        p.blocks, p.live + {p.lists[c][0]})
    ensures ListOk(mem[HeadWord(pool, c) := mem[p.lists[c][0] / 8]], pool, PopList(p, c), d)
  {
    assert ListOk(mem, pool, p, c);
    if d < NUM_CLASSES && d != c {
      assert ListOk(mem, pool, p, d);
      MetadataApart(mem, pool, end, p, d);
      ListKept(mem, mem[HeadWord(pool, c) := mem[p.lists[c][0] / 8]], mem[HeadWord(pool, d)], p.lists[d], d,
               p.blocks, p.live, p.blocks, p.live + {p.lists[c][0]});
    }
  }

  function Carve(p: Pool, f: nat, c: nat): Pool
    requires c < NUM_CLASSES
  {
    p.(blocks := p.blocks[f := c], live := p.live + {f})
  }

  lemma CarveKeepsPool(mem: seq<nat>, mem': seq<nat>, pool: nat, end: nat, p: Pool, p': Pool, c: nat, f: nat, bump: nat)
    requires PoolOk(mem, pool, end, p) && c < NUM_CLASSES && f == Frontier(mem, pool) && bump == f + SizeOf(c) <= end
    requires mem' == mem[BumpWord(pool) := bump] && p' == Carve(p, f, c)
    ensures 0 < f && f !in p.blocks && PoolOk(mem', pool, end, p')
  {
    CarveTiles(mem, mem', pool, end, p.blocks, c, f, bump);
    CarveKeepsLists(mem, mem', pool, end, p, p', f, c, bump);
  }

  lemma CarveTiles(mem: seq<nat>, mem': seq<nat>, pool: nat, end: nat, blocks: Blocks, c: nat, f: nat, bump: nat)
    requires Shape(mem, pool, end) && Carved(mem, pool, end, blocks)
    requires c < NUM_CLASSES && f == Frontier(mem, pool) && bump == f + SizeOf(c) <= end
    requires mem' == mem[BumpWord(pool) := bump]
    ensures f !in blocks && Carved(mem', pool, end, blocks[f := c])
  {
    TilesGrow(blocks, DataStart(pool), f, c);
    AlignedSum(f, SizeOf(c));
  }

  lemma AlignedSum(a: nat, b: nat)
    requires a % 8 == 0 && b % 8 == 0
    ensures (a + b) % 8 == 0
  {
  }

  lemma CarveKeepsLists(mem: seq<nat>, mem': seq<nat>, pool: nat, end: nat, p: Pool, p': Pool, f: nat, c: nat, bump: nat)
    requires PoolOk(mem, pool, end, p) && c < NUM_CLASSES && f !in p.blocks
    requires mem' == mem[BumpWord(pool) := bump] && p' == Carve(p, f, c)
    ensures ListsOk(mem', pool, p') && AllAccounted(p')
  {
    forall d: nat ensures ListOk(mem', pool, p', d) {
      if d < NUM_CLASSES {
        assert ListOk(mem, pool, p, d);
        MetadataApart(mem, pool, end, p, d);
        ListKept(mem, mem', mem[HeadWord(pool, d)], p.lists[d], d, p.blocks, p.live, p'.blocks, p'.live);
      }
    }
    forall b ensures Accounted(p', b) {
      assert Accounted(p, b);
    }
  }

  function Push(p: Pool, b: nat): Pool
    requires b in p.blocks && p.blocks[b] < |p.lists|
  {
    p.(live := p.live - {b}, lists := p.lists[p.blocks[b] := [b] + p.lists[p.blocks[b]]])
  }

  /** The two stores of a free: the link into the block, then the head. */
  function Linked(mem: seq<nat>, pool: nat, b: nat, c: nat): seq<nat>
    requires b / 8 < |mem| && HeadWord(pool, c) < |mem|
  {
    mem[b / 8 := mem[HeadWord(pool, c)]][HeadWord(pool, c) := b]
  }

  lemma PushKeepsPool(mem: seq<nat>, pool: nat, end: nat, p: Pool, b: nat)
    requires PoolOk(mem, pool, end, p) && b in p.live
    ensures BumpWord(pool) < b / 8 < |mem|
    ensures PoolOk(Linked(mem, pool, b, p.blocks[b]), pool, end, Push(p, b))
  {
    var c := p.blocks[b];
    assert Inside(p.blocks, b, DataStart(pool), Frontier(mem, pool));
    var mem', p' := Linked(mem, pool, b, c), Push(p, b);
    forall d: nat ensures ListOk(mem', pool, p', d) {
      PushKeepsList(mem, pool, end, p, b, d);
    }
    forall x ensures Accounted(p', x) {
      assert Accounted(p, x);
    }
  }

  lemma PushKeepsList(mem: seq<nat>, pool: nat, end: nat, p: Pool, b: nat, d: nat)
    requires PoolOk(mem, pool, end, p) && b in p.live && BumpWord(pool) < b / 8 < |mem|
    ensures ListOk(Linked(mem, pool, b, p.blocks[b]), pool, Push(p, b), d)
  {
    var c := p.blocks[b];
    var mem' := Linked(mem, pool, b, c);
    if d < NUM_CLASSES {
      assert ListOk(mem, pool, p, d);
      MetadataApart(mem, pool, end, p, d);
      forall f | f in p.lists[d] ensures mem'[f / 8] == mem[f / 8] {
        WordsApart(p.blocks, DataStart(pool), Frontier(mem, pool), b, f, b / 8);
      }
      if d == c {
        Pushed(mem, mem', p.lists[c], c, p.blocks, p.live, b);
      } else {
        ListKept(mem, mem', mem[HeadWord(pool, d)], p.lists[d], d, p.blocks, p.live, p.blocks, p.live - {b});
      }
    }
  }

  /** A holder writing inside its own block, and the allocator taking or dropping
      a spinlock, change nothing the allocator relies on. */
  lemma QuietWrite(mem: seq<nat>, pool: nat, end: nat, p: Pool, w: nat, v: nat)
    requires PoolOk(mem, pool, end, p) && w < |mem|
    requires w < HeadWord(pool, 0) || exists b :: InLive(p, b, w)
    ensures PoolOk(mem[w := v], pool, end, p)
  {
    var mem' := mem[w := v];
    QuietWord(mem, pool, end, p, w);
    forall d: nat ensures ListOk(mem', pool, p, d) {
      if d < NUM_CLASSES {
        assert ListOk(mem, pool, p, d);
        MetadataApart(mem, pool, end, p, d);
        ListKept(mem, mem', mem[HeadWord(pool, d)], p.lists[d], d, p.blocks, p.live, p.blocks, p.live);
      }
    }
  }

  predicate InLive(p: Pool, b: nat, w: nat) {
    b in p.live && b in p.blocks && b / 8 <= w < End(p.blocks, b) / 8
  }

  lemma QuietWord(mem: seq<nat>, pool: nat, end: nat, p: Pool, w: nat)
    requires PoolOk(mem, pool, end, p) && w < |mem|
    requires w < HeadWord(pool, 0) || exists b :: InLive(p, b, w)
    ensures w != BumpWord(pool) && forall c: nat | c < NUM_CLASSES :: w != HeadWord(pool, c)
    ensures forall c: nat, f | c < NUM_CLASSES && f in p.lists[c] :: w != f / 8
  {
    if w >= HeadWord(pool, 0) {
      var b :| InLive(p, b, w);
      assert Inside(p.blocks, b, DataStart(pool), Frontier(mem, pool));
    }
    forall c: nat, f | c < NUM_CLASSES && f in p.lists[c] ensures w != f / 8 {
      assert ListOk(mem, pool, p, c);
      MetadataApart(mem, pool, end, p, c);
      if w >= HeadWord(pool, 0) {
        var b :| InLive(p, b, w);
        WordsApart(p.blocks, DataStart(pool), Frontier(mem, pool), b, f, w);
      }
    }
  }

  lemma LiveWord(mem: seq<nat>, pool: nat, end: nat, p: Pool, b: nat, w: nat)
    requires PoolOk(mem, pool, end, p) && InLive(p, b, w)
    ensures BumpWord(pool) < w
  {
    assert Inside(p.blocks, b, DataStart(pool), Frontier(mem, pool));
  }

  lemma FreshPool(mem: seq<nat>, pool: nat, end: nat)
    requires Shape(mem, pool, end) && mem[BumpWord(pool)] == 0
    requires forall c: nat | c < NUM_CLASSES :: mem[HeadWord(pool, c)] == 0
    ensures PoolOk(mem, pool, end, EmptyPool())
  {
  }

  // ---- What the operations do to memory, and to what it stands for ----

  /** `alloc_from_class`: the head of the list if there is one, else a block carved
      at the frontier; 0 when that would pass the end. */
  function TakeIn(mem: seq<nat>, pool: nat, end: nat, c: nat): (r: (seq<nat>, nat))
    requires BumpWord(pool) < |mem| && c < NUM_CLASSES
    ensures |r.0| == |mem|
  {
    var head := mem[HeadWord(pool, c)];
    if head != 0 then (mem[HeadWord(pool, c) := if head / 8 < |mem| then mem[head / 8] else 0], head)
    else
      var f := Frontier(mem, pool);
      if f + SizeOf(c) > end then (mem, 0) else (mem[BumpWord(pool) := f + SizeOf(c)], f)
  }

  function TakenPool(mem: seq<nat>, pool: nat, end: nat, p: Pool, c: nat): Pool
    requires BumpWord(pool) < |mem| && c < NUM_CLASSES
  {
    if mem[HeadWord(pool, c)] != 0 then if c < |p.lists| && p.lists[c] != [] then PopList(p, c) else p
    else if Frontier(mem, pool) + SizeOf(c) > end then p
    else Carve(p, Frontier(mem, pool), c)
  }

  function AllocIn(mem: seq<nat>, pool: nat, end: nat, size: nat): (r: (seq<nat>, nat))
    requires BumpWord(pool) < |mem|
    ensures |r.0| == |mem|
  {
    if ClassFor(size) == NUM_CLASSES then (mem, 0) else TakeIn(mem, pool, end, ClassFor(size))
  }

  function AllocPool(mem: seq<nat>, pool: nat, end: nat, p: Pool, size: nat): Pool
    requires BumpWord(pool) < |mem|
  {
    if ClassFor(size) == NUM_CLASSES then p else TakenPool(mem, pool, end, p, ClassFor(size))
  }

  /** `free`. */
  function FreedIn(mem: seq<nat>, pool: nat, b: nat, size: nat): (r: seq<nat>)
    requires BumpWord(pool) < |mem|
    ensures |r| == |mem|
  {
    if b == 0 || ClassFor(size) == NUM_CLASSES || b / 8 >= |mem| then mem else Linked(mem, pool, b, ClassFor(size))
  }

  function FreedPool(p: Pool, b: nat, size: nat): Pool {
    if b == 0 || ClassFor(size) == NUM_CLASSES || b !in p.blocks || p.blocks[b] >= |p.lists| then p else Push(p, b)
  }

  /** `init` and `reset`: every metadata word is zero, the data words are as they were. */
  function Wiped(mem: seq<nat>, pool: nat): (r: seq<nat>)
    ensures |r| == |mem|
  {
    seq(|mem|, w requires 0 <= w < |mem| => if pool / 8 <= w <= BumpWord(pool) then 0 else mem[w])
  }

  function EmptyPool(): Pool { Pool(map[], {}, seq(NUM_CLASSES, _ => [])) }

  lemma WipedIsEmpty(mem: seq<nat>, pool: nat, end: nat)
    requires Shape(mem, pool, end)
    ensures PoolOk(Wiped(mem, pool), pool, end, EmptyPool())
  {
    FreshPool(Wiped(mem, pool), pool, end);
  }

  /** The caller of a free passes a block in use and a size of its class, or nothing
      that the allocator would act on. */
  predicate MayFree(p: Pool, b: nat, size: nat) {
    b != 0 && ClassFor(size) < NUM_CLASSES ==> b in p.live && b in p.blocks && p.blocks[b] == ClassFor(size)
  }

  predicate Exhausted(mem: seq<nat>, pool: nat, end: nat, p: Pool, c: nat)
    requires BumpWord(pool) < |mem| && c < NUM_CLASSES == |p.lists|
  {
    p.lists[c] == [] && Frontier(mem, pool) + SizeOf(c) > end
  }

  /** Block r of class c passes from the allocator to the caller. */
  ghost predicate Handed(p: Pool, p': Pool, r: nat, c: nat) {
    && r !in p.live && p'.live == p.live + {r}
    && r in p'.blocks && p'.blocks[r] == c
    && (p'.blocks == p.blocks || (r !in p.blocks && p'.blocks == p.blocks[r := c]))
  }

  /** Where the block comes from: the head of its class's free list, if there is one,
      and then nothing is carved; only an empty list moves the frontier, by one block. */
  ghost predicate TakenFrom(mem: seq<nat>, pool: nat, p: Pool, c: nat, mem': seq<nat>, p': Pool, r: nat)
    requires BumpWord(pool) < |mem| == |mem'| && c < NUM_CLASSES == |p.lists|
  {
    var f, f' := Frontier(mem, pool), Frontier(mem', pool);
    if p.lists[c] != [] then
      r == p.lists[c][0] && f' == f && p'.blocks == p.blocks && p'.lists == p.lists[c := p.lists[c][1..]]
    else
      r == f && f' == f + SizeOf(c) && p'.blocks == p.blocks[f := c] && p'.lists == p.lists
  }

  /** What an allocation of class c guarantees: the pool is kept; 0 exactly when the
      class has no free block and no room for another, and then nothing changes; else
      a block nobody had, a free one of the class before any is carved. Neither the
      locks nor any word past the metadata change. */
  ghost predicate Takes(mem: seq<nat>, pool: nat, end: nat, p: Pool, c: nat, mem': seq<nat>, p': Pool, r: nat) {
    && BumpWord(pool) < |mem| == |mem'| && c < NUM_CLASSES == |p.lists|
    && PoolOk(mem', pool, end, p')
    && (r == 0 <==> Exhausted(mem, pool, end, p, c))
    && (r == 0 ==> p' == p && mem' == mem)
    && (r != 0 ==> Handed(p, p', r, c) && TakenFrom(mem, pool, p, c, mem', p', r))
    && (forall w | BumpWord(pool) < w < |mem| :: mem'[w] == mem[w])
    && (forall d: nat | d < NUM_CLASSES :: mem'[LockWord(pool, d)] == mem[LockWord(pool, d)])
  }

  lemma PopTakes(mem: seq<nat>, pool: nat, end: nat, p: Pool, c: nat)
    requires PoolOk(mem, pool, end, p) && c < NUM_CLASSES && mem[HeadWord(pool, c)] != 0
    ensures var (mem', r), p' := TakeIn(mem, pool, end, c), TakenPool(mem, pool, end, p, c);
            Takes(mem, pool, end, p, c, mem', p', r)
  {
    HeadOfList(mem, pool, end, p, c);
    var mem', p' := TakeIn(mem, pool, end, c).0, TakenPool(mem, pool, end, p, c);
    var head := mem[HeadWord(pool, c)];
    PopKeepsPool(mem, mem', pool, end, p, p', c, head, mem[head / 8]);
  }

  lemma CarveTakes(mem: seq<nat>, pool: nat, end: nat, p: Pool, c: nat)
    requires PoolOk(mem, pool, end, p) && c < NUM_CLASSES && mem[HeadWord(pool, c)] == 0
    ensures var (mem', r), p' := TakeIn(mem, pool, end, c), TakenPool(mem, pool, end, p, c);
            Takes(mem, pool, end, p, c, mem', p', r)
  {
    HeadOfList(mem, pool, end, p, c);
    var (mem', r) := TakeIn(mem, pool, end, c);
    if r != 0 {
      CarveKeepsPool(mem, mem', pool, end, p, TakenPool(mem, pool, end, p, c), c, r, r + SizeOf(c));
    }
  }

  lemma TakeKeepsPool(mem: seq<nat>, pool: nat, end: nat, p: Pool, c: nat)
    requires PoolOk(mem, pool, end, p) && c < NUM_CLASSES
    ensures var (mem', r), p' := TakeIn(mem, pool, end, c), TakenPool(mem, pool, end, p, c);
            Takes(mem, pool, end, p, c, mem', p', r)
  {
    if mem[HeadWord(pool, c)] != 0 {
      PopTakes(mem, pool, end, p, c);
    } else {
      CarveTakes(mem, pool, end, p, c);
    }
  }

  lemma TakeOutcome(mem: seq<nat>, pool: nat, end: nat, p: Pool, c: nat, mem': seq<nat>, p': Pool, r: nat)
    requires PoolOk(mem, pool, end, p) && c < NUM_CLASSES
    requires (mem', r) == TakeIn(mem, pool, end, c) && p' == TakenPool(mem, pool, end, p, c)
    ensures Takes(mem, pool, end, p, c, mem', p', r)
  {
    TakeKeepsPool(mem, pool, end, p, c);
  }

  lemma AllocKeepsPool(mem: seq<nat>, pool: nat, end: nat, p: Pool, size: nat)
    requires PoolOk(mem, pool, end, p)
    ensures var (mem', r), p', c := AllocIn(mem, pool, end, size), AllocPool(mem, pool, end, p, size), ClassFor(size);
            && PoolOk(mem', pool, end, p')
            && (r == 0 <==> c == NUM_CLASSES || Exhausted(mem, pool, end, p, c))
            && (r == 0 ==> p' == p && mem' == mem)
            && (r != 0 ==> Handed(p, p', r, c) && size <= SizeOf(c) && TakenFrom(mem, pool, p, c, mem', p', r))
  {
    if ClassFor(size) < NUM_CLASSES {
      TakeKeepsPool(mem, pool, end, p, ClassFor(size));
    }
  }

  lemma FreeKeepsPool(mem: seq<nat>, pool: nat, end: nat, p: Pool, b: nat, size: nat)
    requires PoolOk(mem, pool, end, p) && MayFree(p, b, size)
    ensures PoolOk(FreedIn(mem, pool, b, size), pool, end, FreedPool(p, b, size))
  {
    if b != 0 && ClassFor(size) < NUM_CLASSES {
      PushKeepsPool(mem, pool, end, p, b);
    }
  }

  /** What was just freed is what the next allocation of its class gets, and the pool
      is then the one before the free. */
  lemma FreeThenAlloc(mem: seq<nat>, pool: nat, end: nat, p: Pool, b: nat, size: nat, again: nat)
    requires PoolOk(mem, pool, end, p) && MayFree(p, b, size) && b != 0
    requires ClassFor(again) == ClassFor(size) < NUM_CLASSES
    ensures var mem1, p1 := FreedIn(mem, pool, b, size), FreedPool(p, b, size);
            && AllocIn(mem1, pool, end, again).1 == b && AllocPool(mem1, pool, end, p1, again) == p
            && Frontier(AllocIn(mem1, pool, end, again).0, pool) == Frontier(mem, pool)
  {
    var c := ClassFor(size);
    var mem1, p1 := FreedIn(mem, pool, b, size), FreedPool(p, b, size);
    FreeKeepsPool(mem, pool, end, p, b, size);
    PushedFirst(mem, pool, end, p, b);
    PopsBack(mem1, pool, end, p1, c, p);
  }

  /** Taking the block pushed last undoes the push. */
  lemma PopsBack(mem: seq<nat>, pool: nat, end: nat, p1: Pool, c: nat, p: Pool)
    requires PoolOk(mem, pool, end, p1) && c < NUM_CLASSES && |p.lists| == NUM_CLASSES
    requires p1.lists[c] != [] && p1.lists == p.lists[c := [p1.lists[c][0]] + p.lists[c]]
    requires p1.lists[c][0] in p.live && p1.live == p.live - {p1.lists[c][0]} && p1.blocks == p.blocks
    ensures TakeIn(mem, pool, end, c).1 == p1.lists[c][0] && TakenPool(mem, pool, end, p1, c) == p
    ensures Frontier(TakeIn(mem, pool, end, c).0, pool) == Frontier(mem, pool)
  {
    var b, p' := p1.lists[c][0], TakenPool(mem, pool, end, p1, c);
    HeadOfList(mem, pool, end, p1, c);
    assert p1.lists[c] == [b] + p.lists[c];
    assert p'.lists == p.lists && p'.live == p.live;
  }

  lemma PushedFirst(mem: seq<nat>, pool: nat, end: nat, p: Pool, b: nat)
    requires PoolOk(mem, pool, end, p) && b in p.live
    ensures b != 0 && b in p.blocks && p.blocks[b] < |p.lists| && BumpWord(pool) < b / 8 < |mem|
    ensures Push(p, b).lists == p.lists[p.blocks[b] := [b] + p.lists[p.blocks[b]]]
    ensures Push(p, b).live == p.live - {b} && Push(p, b).blocks == p.blocks
    ensures Frontier(Linked(mem, pool, b, p.blocks[b]), pool) == Frontier(mem, pool)
  {
    assert Inside(p.blocks, b, DataStart(pool), Frontier(mem, pool));
  }

  // ---- The allocator ----

  class SlabAllocator {
    const poolOffset: nat
    const poolSize: nat
    const mem: array<nat>
    ghost var pool: Pool

    /** Well-formed apart from the spinlock words. */
    ghost predicate Core()
      reads this, mem
    {
      PoolOk(mem[..], poolOffset, poolOffset + poolSize, pool)
    }

    predicate Unlocked()
      requires HeadWord(poolOffset, 0) <= mem.Length
      reads mem
    {
      forall c: nat | c < NUM_CLASSES :: mem[LockWord(poolOffset, c)] == 0
    }

    ghost predicate Valid()
      reads this, mem
    {
      Core() && Unlocked()
    }

    /** Attach to a region and initialise it; the region may hold anything before. */
    constructor (region: array<nat>, poolOffset: nat, poolSize: nat)
      requires Shape(region[..], poolOffset, poolOffset + poolSize)
      modifies region
      ensures Valid() && mem == region && this.poolOffset == poolOffset && this.poolSize == poolSize
      ensures mem[..] == Wiped(old(region[..]), poolOffset)
      ensures pool == EmptyPool()
    {
      this.poolOffset := poolOffset;
      this.poolSize := poolSize;
      mem := region;
      pool := EmptyPool();
      new;
      Reset();
    }

    /** `init` and `reset`. */
    method Reset()
      requires Shape(mem[..], poolOffset, poolOffset + poolSize)
      modifies this, mem
      ensures Valid() && pool == EmptyPool() && mem[..] == Wiped(old(mem[..]), poolOffset)
    {
      var i := 0;
      while i < NUM_CLASSES
        invariant i <= NUM_CLASSES
        invariant forall c: nat | c < i :: mem[LockWord(poolOffset, c)] == mem[HeadWord(poolOffset, c)] == 0
        invariant forall w | 0 <= w < mem.Length && !(poolOffset / 8 <= w < BumpWord(poolOffset)) :: mem[w] == old(mem[w])
        invariant forall w | LockWord(poolOffset, 0) <= w < LockWord(poolOffset, i) :: mem[w] == 0
        invariant forall w | HeadWord(poolOffset, 0) <= w < HeadWord(poolOffset, i) :: mem[w] == 0
      {
        mem[LockWord(poolOffset, i)] := 0;
        mem[HeadWord(poolOffset, i)] := 0;
        i := i + 1;
      }
      mem[BumpWord(poolOffset)] := 0;
      assert mem[..] == Wiped(old(mem[..]), poolOffset);
      pool := EmptyPool();
      FreshPool(mem[..], poolOffset, poolOffset + poolSize);
    }

    /** Why an allocation fails: its list is empty and the next block of its class
        would pass the end of the pool. */
    ghost predicate NoBlock(c: nat)
      requires Core() && c < NUM_CLASSES
      reads this, mem
    {
      Exhausted(mem[..], poolOffset, poolOffset + poolSize, pool, c)
    }

    /** Words outside the metadata are as before. */
    twostate predicate DataUnchanged()
      reads mem
    {
      forall w | BumpWord(poolOffset) < w < mem.Length :: mem[w] == old(mem[w])
    }

    /** The loads and stores of `alloc_from_class`. */
    method TakeBlock(c: nat, blockSize: nat) returns (r: nat)
      requires BumpWord(poolOffset) < mem.Length && c < NUM_CLASSES && blockSize == SizeOf(c)
      requires mem[HeadWord(poolOffset, c)] != 0 ==> mem[HeadWord(poolOffset, c)] / 8 < mem.Length
      modifies mem
      ensures (mem[..], r) == TakeIn(old(mem[..]), poolOffset, poolOffset + poolSize, c)
    {
      ghost var before := mem[..];
      var head := mem[HeadWord(poolOffset, c)];
      if head != 0 {
        var next := mem[head / 8];
        mem[HeadWord(poolOffset, c)] := next;
        assert mem[..] == before[HeadWord(poolOffset, c) := next];
        return head;
      }
      var bump := mem[BumpWord(poolOffset)];
      var newBump := if bump == 0 then DataStart(poolOffset) else bump;
      var newEnd: nat := newBump + blockSize;
      if newEnd > poolOffset + poolSize {
        return 0;
      }
      mem[BumpWord(poolOffset)] := newEnd;
      assert mem[..] == before[BumpWord(poolOffset) := newEnd];
      return newBump;
    }

    method AllocFromClass(c: nat, blockSize: nat) returns (r: nat)
      requires Core() && c < NUM_CLASSES && blockSize == SizeOf(c)
      modifies this, mem
      ensures Takes(old(mem[..]), poolOffset, poolOffset + poolSize, old(pool), c, mem[..], pool, r)
      ensures (mem[..], r) == TakeIn(old(mem[..]), poolOffset, poolOffset + poolSize, c)
      ensures pool == TakenPool(old(mem[..]), poolOffset, poolOffset + poolSize, old(pool), c)
    {
      ghost var before, end := mem[..], poolOffset + poolSize;
      ghost var was := pool;
      HeadOfList(before, poolOffset, end, was, c);
      r := TakeBlock(c, blockSize);
      pool := TakenPool(before, poolOffset, end, was, c);
      TakeOutcome(before, poolOffset, end, was, c, mem[..], pool, r);
    }

    /** `alloc`, the hot path: the class lock is free, so it is taken at once. */
    method Alloc(size: nat) returns (r: nat)
      requires Valid()
      modifies this, mem
      ensures Valid() && DataUnchanged()
      ensures r == 0 <==> ClassFor(size) == NUM_CLASSES || old(NoBlock(ClassFor(size)))
      ensures r == 0 ==> pool == old(pool) && mem[..] == old(mem[..])
      ensures r != 0 ==> Handed(old(pool), pool, r, ClassFor(size)) && size <= SizeOf(ClassFor(size))
      ensures r != 0 ==> TakenFrom(old(mem[..]), poolOffset, old(pool), ClassFor(size), mem[..], pool, r)
      ensures (mem[..], r) == AllocIn(old(mem[..]), poolOffset, poolOffset + poolSize, size)
      ensures pool == AllocPool(old(mem[..]), poolOffset, poolOffset + poolSize, old(pool), size)
    {
      var c := ClassFor(size);
      if c == NUM_CLASSES {
        return 0;
      }
      r := AllocUnderLock(c);
    }

    /** Lock, take, unlock. */
    method TakeLocked(c: nat) returns (r: nat)
      requires BumpWord(poolOffset) < mem.Length && c < NUM_CLASSES && mem[LockWord(poolOffset, c)] == 0
      requires var head := mem[HeadWord(poolOffset, c)]; head != 0 ==> BumpWord(poolOffset) < head / 8 < mem.Length
      modifies mem
      ensures (mem[..], r) == TakeIn(old(mem[..]), poolOffset, poolOffset + poolSize, c)
    {
      ghost var before := mem[..];
      mem[LockWord(poolOffset, c)] := 1;
      ghost var locked := mem[..];
      assert locked == before[LockWord(poolOffset, c) := 1];
      r := TakeBlock(c, SizeOf(c));
      ghost var taken := mem[..];
      mem[LockWord(poolOffset, c)] := 0;
      assert mem[..] == taken[LockWord(poolOffset, c) := 0];
      LockInvisible(before, poolOffset, poolOffset + poolSize, c, locked, taken, mem[..], r);
    }

    method AllocUnderLock(c: nat) returns (r: nat)
      requires Valid() && c < NUM_CLASSES
      modifies this, mem
      ensures Valid()
      ensures Takes(old(mem[..]), poolOffset, poolOffset + poolSize, old(pool), c, mem[..], pool, r)
      ensures (mem[..], r) == TakeIn(old(mem[..]), poolOffset, poolOffset + poolSize, c)
      ensures pool == TakenPool(old(mem[..]), poolOffset, poolOffset + poolSize, old(pool), c)
    {
      ghost var before, end, was := mem[..], poolOffset + poolSize, pool;
      HeadOfList(before, poolOffset, end, was, c);
      r := TakeLocked(c);
      pool := TakenPool(before, poolOffset, end, was, c);
      TakeOutcome(before, poolOffset, end, was, c, mem[..], pool, r);
    }

    /** Take or drop a class lock. */
    method SetLock(c: nat, v: nat)
      requires Core() && c < NUM_CLASSES
      modifies mem
      ensures Core() && mem[..] == old(mem[..])[LockWord(poolOffset, c) := v]
    {
      QuietWrite(mem[..], poolOffset, poolOffset + poolSize, pool, LockWord(poolOffset, c), v);
      ghost var before := mem[..];
      mem[LockWord(poolOffset, c)] := v;
      assert mem[..] == before[LockWord(poolOffset, c) := v];
    }

    /** `alloc_cold`: the same without the class lock. */
    method AllocCold(size: nat) returns (r: nat)
      requires Valid()
      modifies this, mem
      ensures Valid() && DataUnchanged()
      ensures r == 0 <==> ClassFor(size) == NUM_CLASSES || old(NoBlock(ClassFor(size)))
      ensures r == 0 ==> pool == old(pool) && mem[..] == old(mem[..])
      ensures r != 0 ==> Handed(old(pool), pool, r, ClassFor(size)) && size <= SizeOf(ClassFor(size))
      ensures r != 0 ==> TakenFrom(old(mem[..]), poolOffset, old(pool), ClassFor(size), mem[..], pool, r)
      ensures (mem[..], r) == AllocIn(old(mem[..]), poolOffset, poolOffset + poolSize, size)
      ensures pool == AllocPool(old(mem[..]), poolOffset, poolOffset + poolSize, old(pool), size)
    {
      var c := ClassFor(size);
      if c == NUM_CLASSES {
        return 0;
      }
      r := AllocFromClass(c, SizeOf(c));
    }

    /** The block goes to the front of its class list; only its first word and the
        list head change. */
    method PushFree(offset: nat, c: nat)
      requires Core() && offset in pool.live && offset in pool.blocks && pool.blocks[offset] == c
      modifies this, mem
      ensures Core() && pool == Push(old(pool), offset)
      ensures BumpWord(poolOffset) < offset / 8 < mem.Length
      ensures mem[..] == Linked(old(mem[..]), poolOffset, offset, c)
    {
      ghost var before := mem[..];
      PushKeepsPool(before, poolOffset, poolOffset + poolSize, pool, offset);
      var oldHead := mem[HeadWord(poolOffset, c)];
      mem[offset / 8] := oldHead;
      mem[HeadWord(poolOffset, c)] := offset;
      assert mem[..] == Linked(before, poolOffset, offset, c);
      pool := Push(pool, offset);
    }

    /** `free`. The caller passes a block in use and a size of its class. */
    method Free(offset: nat, size: nat)
      requires Valid() && MayFree(pool, offset, size)
      modifies this, mem
      ensures Valid()
      ensures if offset == 0 || ClassFor(size) == NUM_CLASSES then pool == old(pool) && mem[..] == old(mem[..])
              else pool == Push(old(pool), offset)
                   && forall w | BumpWord(poolOffset) < w < mem.Length && w != offset / 8 :: mem[w] == old(mem[w])
      ensures mem[..] == FreedIn(old(mem[..]), poolOffset, offset, size)
      ensures pool == FreedPool(old(pool), offset, size)
    {
      if offset == 0 {
        return;
      }
      var c := ClassFor(size);
      if c == NUM_CLASSES {
        return;
      }
      PushUnderLock(offset, c);
    }

    method PushUnderLock(offset: nat, c: nat)
      requires Valid() && offset in pool.live && offset in pool.blocks && pool.blocks[offset] == c
      modifies this, mem
      ensures Valid() && pool == Push(old(pool), offset)
      ensures BumpWord(poolOffset) < offset / 8 < mem.Length
      ensures mem[..] == Linked(old(mem[..]), poolOffset, offset, c)
    {
      ghost var before := mem[..];
      SetLock(c, 1);
      PushFree(offset, c);
      SetLock(c, 0);
      assert mem[..] == Linked(before, poolOffset, offset, c);
    }

    method FreeCold(offset: nat, size: nat)
      requires Valid() && MayFree(pool, offset, size)
      modifies this, mem
      ensures Valid()
      ensures if offset == 0 || ClassFor(size) == NUM_CLASSES then pool == old(pool) && mem[..] == old(mem[..])
              else pool == Push(old(pool), offset)
                   && forall w | BumpWord(poolOffset) < w < mem.Length && w != offset / 8 :: mem[w] == old(mem[w])
      ensures mem[..] == FreedIn(old(mem[..]), poolOffset, offset, size)
      ensures pool == FreedPool(old(pool), offset, size)
    {
      if offset == 0 {
        return;
      }
      var c := ClassFor(size);
      if c == NUM_CLASSES {
        return;
      }
      PushFree(offset, c);
    }

    /** A holder stores a word inside its block: no other block and no link changes. */
    method WriteBlock(b: nat, w: nat, v: nat)
      requires Valid() && w < mem.Length && InLive(pool, b, w)
      modifies mem
      ensures Valid() && mem[..] == old(mem[..])[w := v]
    {
      ghost var before := mem[..];
      QuietWrite(before, poolOffset, poolOffset + poolSize, pool, w, v);
      LiveWord(before, poolOffset, poolOffset + poolSize, pool, b, w);
      mem[w] := v;
      assert mem[..] == before[w := v];
    }
  }

  /** Taking and dropping the lock around an allocation makes no difference to it. */
  lemma LockInvisible(mem: seq<nat>, pool: nat, end: nat, c: nat, locked: seq<nat>, taken: seq<nat>, mem': seq<nat>, r: nat)
    requires BumpWord(pool) < |mem| && c < NUM_CLASSES && mem[LockWord(pool, c)] == 0
    requires mem[HeadWord(pool, c)] != 0 ==> BumpWord(pool) < mem[HeadWord(pool, c)] / 8
    requires locked == mem[LockWord(pool, c) := 1] && (taken, r) == TakeIn(locked, pool, end, c)
    requires mem' == taken[LockWord(pool, c) := 0]
    ensures (mem', r) == TakeIn(mem, pool, end, c)
  {
    assert Frontier(locked, pool) == Frontier(mem, pool);
    var b := TakeIn(mem, pool, end, c).0;
    assert |mem'| == |b| && forall w | 0 <= w < |b| :: mem'[w] == b[w];
    assert mem' == b;
  }

  /** What a valid pool guarantees, whatever was allocated, freed and written
      before: any two blocks, in use or free, are disjoint; each is inside the
      pool, 8-aligned and of its class's size; together they are [data start, frontier). */
  lemma PoolGuarantees(mem: seq<nat>, pool: nat, end: nat, p: Pool)
    requires PoolOk(mem, pool, end, p)
    ensures forall b, d | b in p.blocks && d in p.blocks && b != d ::
              End(p.blocks, b) <= d || End(p.blocks, d) <= b
    ensures forall b | b in p.blocks ::
              b % 8 == 0 && DataStart(pool) <= b && End(p.blocks, b) <= Frontier(mem, pool) && End(p.blocks, b) <= end
    ensures forall a: nat :: DataStart(pool) <= a < Frontier(mem, pool) <==> Covered(p.blocks, a)
    ensures forall b | b in p.blocks :: b in p.live <==> b !in p.lists[p.blocks[b]]
  {
    forall b, d | b in p.blocks && d in p.blocks && b != d ensures End(p.blocks, b) <= d || End(p.blocks, d) <= b {
      assert Apart(p.blocks, b, d);
    }
    forall b | b in p.blocks
      ensures b % 8 == 0 && DataStart(pool) <= b && End(p.blocks, b) <= Frontier(mem, pool) && End(p.blocks, b) <= end
      ensures b in p.live <==> b !in p.lists[p.blocks[b]]
    {
      assert Inside(p.blocks, b, DataStart(pool), Frontier(mem, pool)) && Accounted(p, b);
      assert ListOk(mem, pool, p, p.blocks[b]);
    }
    forall a: nat | Covered(p.blocks, a) ensures DataStart(pool) <= a < Frontier(mem, pool) {
      var b :| Covers(p.blocks, b, a);
      assert Inside(p.blocks, b, DataStart(pool), Frontier(mem, pool));
    }
  }

  /** A free list is followed from its head through memory to 0 in exactly as many
      steps as it has blocks, so it has no cycle. */
  lemma {:induction false} ChainEnds(mem: seq<nat>, pool: nat, end: nat, p: Pool, c: nat, k: nat)
    requires PoolOk(mem, pool, end, p) && c < NUM_CLASSES && k <= |p.lists[c]|
    ensures Chain(mem, mem[HeadWord(pool, c)], k) == (if k < |p.lists[c]| then p.lists[c][k] else 0)
  {
    assert ListOk(mem, pool, p, c);
    if k > 0 {
      ChainEnds(mem, pool, end, p, c, k - 1);
      MetadataApart(mem, pool, end, p, c);
      assert p.lists[c][k - 1] in p.lists[c];
      assert LinkOk(mem, p.lists[c], k - 1);
    }
  }

  /** The block reached from `b` by following k links. */
  function Chain(mem: seq<nat>, b: nat, k: nat): nat {
    if k == 0 then b
    else
      var prev := Chain(mem, b, k - 1);
      if prev / 8 < |mem| then mem[prev / 8] else 0
  }
}
