/** The critical sections of the scullpipe routines on the real buffer.  How calls interleave is the subject
    of module Pipe, which uses the same ring functions. */
module PipeDevice {
  import opened Basics
  import opened PipeRing

  datatype PollMask = PollMask(readable: bool, writable: bool)

  class ScullPipe {
    var buffer: array?<byte>
    var buffersize: nat
    var rp: nat
    var wp: nat
    var nreaders: int
    var nwriters: int

    ghost predicate Valid()
      reads this
    {
      && nreaders >= 0 && nwriters >= 0
      && (buffer != null <==> nreaders + nwriters > 0)
      && (buffer != null ==> 2 <= buffersize <= buffer.Length && rp < buffersize && wp < buffersize)
    }

    /** The bytes in the pipe, oldest first. */
    ghost function Bytes(): seq<byte>
      requires Valid() && buffer != null
      reads this, buffer
    {
      Contents(buffer[..buffersize], rp, wp)
    }

    constructor ()
      ensures Valid() && nreaders == 0 == nwriters
    {
      buffer, buffersize, rp, wp, nreaders, nwriters := null, 0, 0, 0, 0, 0;
    }

    /** scull_p_open: every open starts the pipe afresh, with the current scull_p_buffer as its size.  `granted` tells
        whether kmalloc succeeds. */
    method Open(size: nat, forRead: bool, forWrite: bool, granted: bool) returns (ok: bool)
      requires Valid() && 2 <= size && (forRead || forWrite)
      requires buffer != null ==> size <= buffer.Length
      modifies this
      ensures Valid()
      ensures ok <==> granted || old(buffer) != null
      ensures ok ==> buffer != null && buffersize == size && Bytes() == []
      ensures ok ==> nreaders == old(nreaders) + (if forRead then 1 else 0)
      ensures ok ==> nwriters == old(nwriters) + (if forWrite then 1 else 0)
      ensures old(buffer) != null ==> buffer == old(buffer)
      ensures !ok ==> buffer == null && nreaders == old(nreaders) && nwriters == old(nwriters)
    {
      if buffer == null {
        if !granted {
          return false;
        }
        buffer := new byte[size];
      }
      buffersize, rp, wp := size, 0, 0;
      if forRead {
        nreaders := nreaders + 1;
      }
      if forWrite {
        nwriters := nwriters + 1;
      }
      ok := true;
    }

    /** scull_p_release: the last one out frees the buffer. */
    method Release(forRead: bool, forWrite: bool)
      requires Valid() && (forRead || forWrite)
      requires forRead ==> nreaders > 0
      requires forWrite ==> nwriters > 0
      modifies this
      ensures Valid()
      ensures nreaders == old(nreaders) - (if forRead then 1 else 0)
      ensures nwriters == old(nwriters) - (if forWrite then 1 else 0)
      ensures nreaders + nwriters > 0 ==>
              buffer == old(buffer) && buffersize == old(buffersize) && rp == old(rp) && wp == old(wp)
      ensures nreaders + nwriters == 0 ==> buffer == null
    {
      if forRead {
        nreaders := nreaders - 1;
      }
      if forWrite {
        nwriters := nwriters - 1;
      }
      if nreaders + nwriters == 0 {
        buffer := null;
      }
    }

    /** scull_p_read with something to read: the oldest bytes leave, up to the end of the buffer. */
    method ReadChunk(count: nat) returns (got: seq<byte>)
      requires Valid() && buffer != null && Bytes() != []
      modifies this`rp
      ensures Valid() && old(Bytes()) == got + Bytes()
      ensures |got| == Min(Min(count, |old(Bytes())|), buffersize - old(rp))
    {
      hide Contents;
      ghost var bytes, r := buffer[..buffersize], rp;
      EmptyIffPointersMeet(bytes, rp, wp);
      ReadTakesPrefix(bytes, rp, wp, count);
      ReadCountIs(bytes, rp, wp, count);
      var c := count;
      if wp > rp {
        c := Min(c, wp - rp);
      } else {
        c := Min(c, buffersize - rp);
      }
      got := buffer[rp..rp + c];
      Within(buffer[..], buffersize, rp, rp + c);
      assert Contents(bytes, r, wp) == got + Contents(bytes, r + c, wp);
      rp := rp + c;
      if rp == buffersize {
        rp := 0;
      }
      WrapKeepsContents(bytes, r + c, wp);
      assert buffer[..buffersize] == bytes;
    }

    static lemma Within(s: seq<byte>, n: nat, from: nat, to: nat)
      requires from <= to <= n <= |s|
      ensures s[..n][from..to] == s[from..to]
    {
    }

    /** scull_p_write with room: a prefix of `data` is appended, up to the end of the buffer. */
    method WriteChunk(data: seq<byte>) returns (count: nat)
      requires Valid() && buffer != null && |Bytes()| < buffersize - 1
      modifies this`wp, buffer
      ensures Valid() && count <= |data| && Bytes() == old(Bytes()) + data[..count]
      ensures count == Min(Min(|data|, buffersize - 1 - |old(Bytes())|), buffersize - old(wp))
    {
      SpaceFreeIsRoom(buffer[..buffersize], rp, wp);
      WriteAppends(buffer[..buffersize], rp, wp, data);
      WriteCountIs(buffer[..buffersize], rp, wp, |data|);
      hide Contents;
      count := WriteCount(buffersize, rp, wp, |data|);
      Fill(data[..count]);
      wp := wp + count;
      if wp == buffersize {
        wp := 0;
      }
      WrapKeepsContents(buffer[..buffersize], rp, old(wp) + count);
    }

    /** copy_from_user. */
    method Fill(data: seq<byte>)
      requires buffer != null && wp + |data| <= buffersize <= buffer.Length
      modifies buffer
      ensures buffer[..buffersize] == Patched(old(buffer[..buffersize]), wp, data)
    {
      var i := 0;
      while i < |data|
        invariant 0 <= i <= |data|
        invariant forall k :: 0 <= k < buffer.Length ==>
                    buffer[k] == if wp <= k < wp + i then data[k - wp] else old(buffer[k])
      {
        buffer[wp + i] := data[i];
        i := i + 1;
      }
    }

    /** scull_p_poll: readable and writable mean that a read, or a write, would not block. */
    method Poll() returns (mask: PollMask)
      requires Valid() && buffer != null
      ensures mask.readable <==> Bytes() != []
      ensures mask.writable <==> |Bytes()| < buffersize - 1
    {
      EmptyIffPointersMeet(buffer[..buffersize], rp, wp);
      SpaceFreeIsRoom(buffer[..buffersize], rp, wp);
      mask := PollMask(rp != wp, SpaceFree(buffersize, rp, wp) != 0);
    }
  }
}
