/** Vocabulary shared by every part of the model: bytes, fixed-width buffers and
    the ticket-to-slot map of the ring. */
module Prelude {

  type Byte = b: int | 0 <= b < 256
  type Bytes = seq<Byte>

  datatype Option<+T> = None | Some(value: T)

  function Min(a: int, b: int): (m: int) {
    if a <= b then a else b
  }

  function Max(a: int, b: int): (m: int) {
    if a <= b then b else a
  }

  /** Copying `data` to the start of a buffer that already holds `old`: the tail
      of the previous contents stays behind. */
  function Overlay(buf: Bytes, data: Bytes): (r: Bytes)
    ensures |r| == Max(|buf|, |data|)
    ensures r[..|data|] == data
  {
    data + (if |data| < |buf| then buf[|data|..] else [])
  }

  /** Reading `n` bytes back from a buffer. */
  function ReadBytes(buf: Bytes, n: nat): Bytes {
    if n <= |buf| then buf[..n] else buf
  }

  /** The width of every in-memory channel-name field. */
  const NAME_WIDTH: nat := 128

  /** A channel name as the fixed-width name field keeps it. */
  function Clip(name: Bytes): (r: Bytes)
    ensures |r| == Min(|name|, NAME_WIDTH)
  {
    name[..Min(|name|, NAME_WIDTH)]
  }

  /** The slot of ticket `t` in a ring of `cap` slots. Written by repeated
      subtraction so that the solver never meets a variable modulus;
      `SlotOfIsMod` says that it is the remainder. */
  function SlotOf(t: nat, cap: nat): (i: nat)
    requires 0 < cap
    ensures i < cap
  {
    if t < cap then t else SlotOf(t - cap, cap)
  }

  lemma {:induction false} SlotOfIsMod(t: nat, cap: nat)
    requires 0 < cap
    ensures SlotOf(t, cap) == t % cap
  {
    if t < cap {
    } else {
      SlotOfIsMod(t - cap, cap);
      ModStep(t, cap);
    }
  }

  lemma ModStep(t: nat, cap: nat)
    requires 0 < cap <= t
    ensures t % cap == (t - cap) % cap
  {
    var q, r := (t - cap) / cap, (t - cap) % cap;
    var q', r' := t / cap, t % cap;
    assert (q' - (q + 1)) * cap == r - r' by {
      assert t == q' * cap + r' && t - cap == q * cap + r;
    }
    SmallMultiple(q' - (q + 1), cap);
  }

  /** A multiple of `cap` is zero or at least `cap` away from it. */
  lemma SmallMultiple(d: int, cap: nat)
    ensures d == 0 || d * cap >= cap || d * cap <= 0 - cap
  {
    if 1 <= d {
      assert d * cap >= 1 * cap;
    } else if d <= -1 {
      assert d * cap <= -1 * cap;
    }
  }

  /** Two tickets of one slot are at least a full round apart. */
  lemma {:induction false} SlotGap(t: nat, u: nat, cap: nat)
    requires 0 < cap && t < u && SlotOf(t, cap) == SlotOf(u, cap)
    ensures t + cap <= u
  {
    if cap <= t {
      SlotGap(t - cap, u - cap, cap);
    }
  }
}
