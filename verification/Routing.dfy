/** Channel names: which ring a name is kept in and which process owns it. */
module Routing {
  import opened Prelude

  const BANG: Byte := 33
  const DOT: Byte := 46

  /** Where byte b first occurs, the length if it does not. */
  function IndexOf(s: Bytes, b: Byte): (i: nat)
    ensures i <= |s| && (i < |s| ==> s[i] == b) && forall k | 0 <= k < i :: s[k] != b
  {
    if s == [] || s[0] == b then 0 else 1 + IndexOf(s[1..], b)
  }

  lemma {:induction false} IndexOfUnique(s: Bytes, b: Byte, i: nat)
    requires i <= |s| && (i < |s| ==> s[i] == b) && forall k | 0 <= k < i :: s[k] != b
    ensures IndexOf(s, b) == i
  {
    var j := IndexOf(s, b);
  }

  /** What follows the last occurrence of byte b, everything if there is none. */
  function AfterLast(s: Bytes, b: Byte): (r: Bytes)
    ensures b !in r
  {
    if s == [] then []
    else if s[|s| - 1] == b then []
    else AfterLast(s[..|s| - 1], b) + [s[|s| - 1]]
  }

  lemma {:induction false} AfterLastOf(head: Bytes, b: Byte, tail: Bytes)
    requires b !in tail
    ensures AfterLast(head + [b] + tail, b) == tail
  {
    var s := head + [b] + tail;
    if tail == [] {
      assert s[|s| - 1] == b;
    } else {
      AfterLastOf(head, b, tail[..|tail| - 1]);
      assert s[..|s| - 1] == head + [b] + tail[..|tail| - 1];
    }
  }

  predicate IsProcessSpecific(channel: Bytes) { BANG in channel }

  /** The name of the ring a channel's messages are kept in. */
  function NonLocal(channel: Bytes): Bytes {
    if IsProcessSpecific(channel) then channel[..IndexOf(channel, BANG)] + [BANG] else channel
  }

  /** The process a channel belongs to, nothing for a channel that is not process-specific. */
  function OwnerOf(channel: Bytes): Bytes {
    if IsProcessSpecific(channel) then AfterLast(channel[..IndexOf(channel, BANG)], DOT) else []
  }

  /** Ring names are their own ring names, and belong to the same process. */
  lemma NonLocalIdempotent(channel: Bytes)
    ensures NonLocal(NonLocal(channel)) == NonLocal(channel)
    ensures IsProcessSpecific(NonLocal(channel)) == IsProcessSpecific(channel)
    ensures OwnerOf(NonLocal(channel)) == OwnerOf(channel)
  {
    if IsProcessSpecific(channel) {
      var i, r := IndexOf(channel, BANG), NonLocal(channel);
      assert r[i] == BANG;
      IndexOfUnique(r, BANG, i);
      assert r[..i] == channel[..i];
    }
  }

  /** `new_channel`; None where the code raises. */
  function NewChannel(prefix: Bytes, client: Bytes, suffix: Bytes): Option<Bytes> {
    if BANG in prefix || 63 in prefix then None
    else
      var p := if prefix != [] && prefix[|prefix| - 1] != DOT then prefix + [DOT] else prefix;
      Some(p + client + [BANG] + suffix)
  }

  /** A new channel belongs to the process that made it, and all channels a process
      makes with one prefix share one ring. */
  lemma NewChannelOwned(prefix: Bytes, client: Bytes, suffix: Bytes, other: Bytes)
    requires NewChannel(prefix, client, suffix).Some? && BANG !in client && DOT !in client
    ensures OwnerOf(NewChannel(prefix, client, suffix).value) == client
    ensures NonLocal(NewChannel(prefix, client, suffix).value) == NonLocal(NewChannel(prefix, client, other).value)
  {
    var p := if prefix != [] && prefix[|prefix| - 1] != DOT then prefix + [DOT] else prefix;
    Split(p + client, suffix);
    Split(p + client, other);
    if p == [] {
      assert p + client == client;
      NoneAfterLast(client);
    } else {
      AfterLastOf(p[..|p| - 1], DOT, client);
      assert p[..|p| - 1] + [DOT] == p;
    }
  }

  lemma Split(head: Bytes, suffix: Bytes)
    requires BANG !in head
    ensures var c := head + [BANG] + suffix; IsProcessSpecific(c) && IndexOf(c, BANG) == |head| && c[..|head|] == head
  {
    var c := head + [BANG] + suffix;
    assert c[|head|] == BANG;
    assert forall k | 0 <= k < |head| :: c[k] == head[k];
    IndexOfUnique(c, BANG, |head|);
  }

  lemma {:induction false} NoneAfterLast(s: Bytes)
    requires DOT !in s
    ensures AfterLast(s, DOT) == s
  {
    if s != [] {
      NoneAfterLast(s[..|s| - 1]);
    }
  }
}
