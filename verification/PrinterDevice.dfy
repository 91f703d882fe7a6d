/** The bodies of the shortprint routines on the real page, each run without interference.  What they do when
    they interleave is the subject of module Printer, which uses the same ring functions. */
module PrinterDevice {
  import opened Basics
  import opened PrinterRing

  class ShortPrint {
    const buffer: array<byte>
    var head: nat
    var tail: nat
    var active: bool
    var timer: bool
    var workQueued: bool
    var port: seq<byte>  // everything strobed out so far

    ghost predicate Valid()
      reads this
    {
      4 <= buffer.Length && head < buffer.Length && tail < buffer.Length
    }

    /** Published bytes waiting in the page. */
    ghost function Waiting(): seq<byte>
      requires Valid()
      reads this, buffer
    {
      Contents(buffer[..], head, tail)
    }

    constructor (page: nat)
      requires 4 <= page
      ensures Valid() && fresh(buffer) && buffer.Length == page
      ensures Waiting() == [] && port == [] && !active && !timer && !workQueued
    {
      buffer := new byte[page];
      head, tail, active, timer, workQueued, port := 0, 0, false, false, false, [];
    }

    /** shortp_out_space: contiguous room, leaving one slot of the page unused. */
    method OutSpace() returns (space: int)
      requires Valid()
      ensures space == SpaceSplit(buffer.Length, head, tail, tail)
      ensures space <= 0 <==> |Waiting()| == buffer.Length - 1
      ensures space == Min(buffer.Length - head, buffer.Length - 1 - |Waiting()|)
    {
      if head >= tail {
        space := buffer.Length - head;
        if tail == 0 {
          space := space - 1;
        }
      } else {
        space := tail - head - 1;
      }
    }

    /** One round of the loop in shortp_write, up to the advance of the head: moves as long a prefix of `data`
        as fits without a wrap. */
    method PutChunk(data: seq<byte>) returns (count: nat)
      requires Valid() && data != []
      modifies this`head, buffer
      ensures Valid() && count <= |data|
      ensures Waiting() == old(Waiting()) + data[..count]
      ensures count == Min(|data|, Min(buffer.Length - old(head), buffer.Length - 1 - |old(Waiting())|))
    {
      var space := OutSpace();
      if space <= 0 {
        return 0;
      }
      count := Min(space, |data|);
      Fill(data[..count]);
      PublishAppends(buffer[..], head, tail, count);
      hide Contents;
      head := Incr(buffer.Length, head, count);
    }

    /** copy_from_user into the free bytes ahead of the head. */
    method Fill(data: seq<byte>)
      requires Valid() && |data| <= buffer.Length - head && |data| <= buffer.Length - 1 - |Waiting()|
      modifies buffer
      ensures Valid() && Waiting() == old(Waiting()) && buffer[..][head..head + |data|] == data
    {
      ghost var before := buffer[..];
      var i := 0;
      while i < |data|
        invariant 0 <= i <= |data|
        invariant forall k :: 0 <= k < i ==> buffer[head + k] == data[k]
        invariant Contents(buffer[..], head, tail) == Contents(before, head, tail)
      {
        FillKeepsContents(buffer[..], head, tail, |data|, i, data[i]);
        ghost var filled := buffer[..][head + i := data[i]];
        buffer[head + i] := data[i];
        assert buffer[..] == filled;
        i := i + 1;
      }
    }

    /** The locked test at the end of a round of shortp_write, with shortp_start_output. */
    method StartIfIdle()
      modifies this`active, this`timer, this`workQueued
      ensures active
      ensures old(active) ==> timer == old(timer) && workQueued == old(workQueued)
      ensures !old(active) ==> timer && workQueued
    {
      if !active {
        active, timer, workQueued := true, true, true;
      }
    }

    /** shortp_do_write: strobe the byte at the tail. */
    method DoWrite()
      requires Valid() && Waiting() != []
      modifies this`timer, this`port, this`tail
      ensures Valid() && timer
      ensures port == old(port) + [old(Waiting())[0]] && Waiting() == old(Waiting())[1..]
    {
      ConsumeTakesOldest(buffer[..], head, tail);
      timer := true;
      port := port + [buffer[tail]];
      tail := Incr(buffer.Length, tail, 1);
    }

    /** The locked section of shortp_do_work. */
    method DoWork() returns (wakeReleasers: bool, wakeWriters: bool)
      requires Valid()
      modifies this`timer, this`port, this`tail, this`active
      ensures Valid()
      ensures wakeReleasers <==> old(Waiting()) == []
      ensures old(Waiting()) == [] ==> port == old(port) && Waiting() == [] && !active && !timer
      ensures old(Waiting()) != [] ==> port == old(port) + [old(Waiting())[0]] && Waiting() == old(Waiting())[1..]
      ensures old(Waiting()) != [] ==> active == old(active) && timer
      ensures wakeWriters <==> 0 < |Waiting()| < buffer.Length - buffer.Length / 2
    {
      wakeReleasers := head == tail;
      if head == tail {
        active, timer := false, false;
      } else {
        DoWrite();
      }
      FreeMeasureIs(buffer.Length, head, tail);
      wakeWriters := FreeMeasure(buffer.Length, head, tail) > buffer.Length / 2;
    }
  }
}
