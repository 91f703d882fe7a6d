/** The circular buffer of the scullpipe device.  `rp` and `wp` are offsets from `dev->buffer`; inside a
    critical section either may stand on `dev->end`, that is, on offset |buf|, until it is wrapped. */
module PipeRing {
  import opened Basics
  import opened Addressing

  /** The offset after the "wrapped" test. */
  function Wrap(n: nat, p: nat): nat {
    if p == n then 0 else p
  }

  /** The bytes in the pipe, oldest first. */
  function Contents(buf: seq<byte>, rp: nat, wp: nat): (c: seq<byte>)
    requires 0 < |buf| && rp <= |buf| && wp <= |buf|
    ensures |c| < |buf|
  {
    var r, w := Wrap(|buf|, rp), Wrap(|buf|, wp);
    if r <= w then buf[r..w] else buf[r..] + buf[..w]
  }

  /** spacefree. */
  function SpaceFree(n: nat, rp: nat, wp: nat): int
    requires 0 < n && rp <= n && wp <= n
  {
    if rp == wp then n - 1 else (rp + n - wp) % n - 1
  }

  lemma ModOnce(n: nat, d: nat)
    requires 0 < n && d < 2 * n
    ensures d % n == if d < n then d else d - n
  {
    DivModUnique(d, n, if d < n then 0 else 1, if d < n then d else d - n);
  }

  lemma ModIsOne(n: nat, d: nat)
    requires 2 <= n && d <= 2 * n && d % n == 1
    ensures d == 1 || d == n + 1
  {
    if d < 2 * n {
      ModOnce(n, d);
    } else {
      DivModUnique(d, n, 2, 0);
    }
  }

  /** For pointers at rest, spacefree is the capacity n - 1 less the bytes held. */
  lemma SpaceFreeIsRoom(buf: seq<byte>, rp: nat, wp: nat)
    requires rp < |buf| && wp < |buf|
    ensures SpaceFree(|buf|, rp, wp) == |buf| - 1 - |Contents(buf, rp, wp)|
  {
    ModOnce(|buf|, rp + |buf| - wp);
  }

  /** Read without the lock, even with a pointer on the end of the buffer, spacefree is 0 only if the pipe is full. */
  lemma LockFreeZeroMeansFull(buf: seq<byte>, rp: nat, wp: nat)
    requires 2 <= |buf| && rp <= |buf| && wp <= |buf|
    requires (rp + |buf| - wp) % |buf| == 1
    ensures |Contents(buf, rp, wp)| == |buf| - 1
  {
    ModIsOne(|buf|, rp + |buf| - wp);
  }

  /** How much one scull_p_read moves: never past the end of the buffer. */
  function ReadCount(n: nat, rp: nat, wp: nat, count: nat): (c: nat)
    requires rp < n && wp < n && rp != wp
    ensures c <= count && rp + c <= n && (count > 0 ==> c > 0)
  {
    if wp > rp then Min(count, wp - rp) else Min(count, n - rp)
  }

  /** How much one scull_p_write moves. */
  function WriteCount(n: nat, rp: nat, wp: nat, count: nat): (c: nat)
    requires rp < n && wp < n && SpaceFree(n, rp, wp) > 0
    ensures c <= count && wp + c <= n && (count > 0 ==> c > 0)
  {
    ModOnce(n, rp + n - wp);
    var room := Min(count, SpaceFree(n, rp, wp));
    if wp >= rp then Min(room, n - wp) else Min(room, rp - wp - 1)
  }

  /** As many bytes as asked for, held, and left before the end of the buffer. */
  lemma ReadCountIs(buf: seq<byte>, rp: nat, wp: nat, count: nat)
    requires rp < |buf| && wp < |buf| && rp != wp
    ensures ReadCount(|buf|, rp, wp, count) == Min(Min(count, |Contents(buf, rp, wp)|), |buf| - rp)
  {
  }

  /** As many bytes as offered, free, and left before the end of the buffer. */
  lemma WriteCountIs(buf: seq<byte>, rp: nat, wp: nat, count: nat)
    requires rp < |buf| && wp < |buf| && SpaceFree(|buf|, rp, wp) > 0
    ensures WriteCount(|buf|, rp, wp, count) == Min(Min(count, |buf| - 1 - |Contents(buf, rp, wp)|), |buf| - wp)
  {
    SpaceFreeIsRoom(buf, rp, wp);
  }

  /** A read takes the oldest bytes, in order, and leaves the rest. */
  lemma ReadTakesPrefix(buf: seq<byte>, rp: nat, wp: nat, count: nat)
    requires rp < |buf| && wp < |buf| && rp != wp
    ensures var c := ReadCount(|buf|, rp, wp, count);
            Contents(buf, rp, wp) == buf[rp..rp + c] + Contents(buf, rp + c, wp)
  {
    var c := ReadCount(|buf|, rp, wp, count);
    if rp < wp {
      assert buf[rp..wp] == buf[rp..rp + c] + buf[rp + c..wp];
    } else {
      LeaveTheRest(buf, rp, c, wp);
    }
  }

  /** The same for a ring that has wrapped. */
  lemma LeaveTheRest(buf: seq<byte>, rp: nat, c: nat, wp: nat)
    requires wp < rp <= rp + c <= |buf|
    ensures buf[rp..] + buf[..wp] == buf[rp..rp + c] + Contents(buf, rp + c, wp)
  {
    var rest := buf[rp + c..];
    assert buf[rp..] == buf[rp..rp + c] + rest;
    assert rest + buf[..wp] == Contents(buf, rp + c, wp) by {
      if rp + c == |buf| {
        assert rest == [];
      }
    }
    assert buf[rp..rp + c] + rest + buf[..wp] == buf[rp..rp + c] + (rest + buf[..wp]);
  }

  /** A write appends what it moved and overwrites nothing that is still to be read. */
  lemma WriteAppends(buf: seq<byte>, rp: nat, wp: nat, data: seq<byte>)
    requires rp < |buf| && wp < |buf| && SpaceFree(|buf|, rp, wp) > 0
    ensures var c := WriteCount(|buf|, rp, wp, |data|);
            Contents(Patched(buf, wp, data[..c]), rp, wp + c) == Contents(buf, rp, wp) + data[..c]
  {
    SpaceFreeIsRoom(buf, rp, wp);
    var c := WriteCount(|buf|, rp, wp, |data|);
    var b := Patched(buf, wp, data[..c]);
    assert b[wp..wp + c] == data[..c];
    if wp < rp {
      assert b[rp..] == buf[rp..];
      assert b[..wp + c] == buf[..wp] + data[..c];
      assert buf[rp..] + (buf[..wp] + data[..c]) == buf[rp..] + buf[..wp] + data[..c];
    } else {
      assert b[rp..wp + c] == buf[rp..wp] + data[..c];
      if wp + c == |buf| {
        assert b[rp..] + b[..0] == b[rp..wp + c];
      }
    }
  }

  /** Storing the wrapped pointers changes nothing. */
  lemma WrapKeepsContents(buf: seq<byte>, rp: nat, wp: nat)
    requires 0 < |buf| && rp <= |buf| && wp <= |buf|
    ensures Contents(buf, Wrap(|buf|, rp), Wrap(|buf|, wp)) == Contents(buf, rp, wp)
  {
  }

  lemma EmptyIffPointersMeet(buf: seq<byte>, rp: nat, wp: nat)
    requires rp < |buf| && wp < |buf|
    ensures Contents(buf, rp, wp) == [] <==> rp == wp
  {
  }
}
