/** The output page of the shortprint driver: a circular buffer with one producer and one consumer.
    `head` and `tail` are offsets from `shortp_out_buffer`; `page` stands for PAGE_SIZE.
  */
module PrinterRing {
  import opened Basics
  import opened Addressing

  /** Number of published bytes that are still in the page. */
  function Occupied(page: nat, head: nat, tail: nat): nat
    requires head < page && tail < page
  {
    if head >= tail then head - tail else head + page - tail
  }

  /** The published bytes, oldest first. */
  function Contents(buf: seq<byte>, head: nat, tail: nat): (c: seq<byte>)
    requires head < |buf| && tail < |buf|
    ensures |c| == Occupied(|buf|, head, tail)
  {
    if head >= tail then buf[tail..head] else buf[tail..] + buf[..head]
  }

  /** shortp_out_space with its two reads of the tail kept apart: `t1` decides the branch, `t2` the value. */
  function SpaceSplit(page: nat, head: nat, t1: nat, t2: nat): int {
    if head >= t1 then
      var space := page - head;
      if t2 == 0 then space - 1 else space
    else
      t2 - head - 1
  }

  /** shortp_incr_out_bp. */
  function Incr(page: nat, bp: nat, delta: nat): nat
    requires bp < page && delta <= page
  {
    if bp + delta >= page then bp + delta - page else bp + delta
  }

  /** The value that the bottom half compares with SP_MIN_SPACE. */
  function FreeMeasure(page: nat, head: nat, tail: nat): nat
    requires head < page && tail < page
  {
    (page + tail - head) % page
  }

  lemma FreeMeasureIs(page: nat, head: nat, tail: nat)
    requires head < page && tail < page
    ensures FreeMeasure(page, head, tail) ==
            if head == tail then 0 else page - Occupied(page, head, tail)
  {
    var d := page + tail - head;
    DivModUnique(d, page, if d < page then 0 else 1, if d < page then d else d - page);
  }

  /** A consumer running between the two reads of the tail can only make the answer pessimistic:
      a positive answer never exceeds the contiguous room, nor the room that leaves one slot unused. */
  lemma SplitSpaceIsSafe(page: nat, head: nat, t1: nat, t2: nat)
    requires head < page && t1 < page && t2 < page
    requires Occupied(page, head, t2) <= Occupied(page, head, t1)
    requires SpaceSplit(page, head, t1, t2) > 0
    ensures SpaceSplit(page, head, t1, t2) <= page - head
    ensures SpaceSplit(page, head, t1, t2) <= page - 1 - Occupied(page, head, t2)
  {
  }

  /** Evaluated atomically, the answer is not positive exactly when the page is full. */
  lemma AtomicSpaceZeroIffFull(page: nat, head: nat, tail: nat)
    requires head < page && tail < page
    ensures SpaceSplit(page, head, tail, tail) <= 0 <==> Occupied(page, head, tail) == page - 1
  {
  }

  /** Advancing the head over `space` filled bytes appends exactly these bytes. */
  lemma PublishAppends(buf: seq<byte>, head: nat, tail: nat, space: nat)
    requires head < |buf| && tail < |buf|
    requires 0 < space <= |buf| - head
    requires space <= |buf| - 1 - Occupied(|buf|, head, tail)
    ensures Incr(|buf|, head, space) != tail
    ensures Contents(buf, Incr(|buf|, head, space), tail) == Contents(buf, head, tail) + buf[head..head + space]
    ensures Occupied(|buf|, Incr(|buf|, head, space), tail) == Occupied(|buf|, head, tail) + space
  {
    var all := buf[head..head + space];
    if head < tail {
      assert buf[..head + space] == buf[..head] + all;
      assert buf[tail..] + (buf[..head] + all) == buf[tail..] + buf[..head] + all;
    } else if head + space < |buf| {
      assert buf[tail..head + space] == buf[tail..head] + all;
    } else {
      assert buf[tail..] == buf[tail..head] + buf[head..];
      assert buf[tail..] + buf[..0] == buf[tail..];
    }
  }

  /** Strobing the byte at the tail and advancing the tail removes exactly the oldest byte. */
  lemma ConsumeTakesOldest(buf: seq<byte>, head: nat, tail: nat)
    requires head < |buf| && tail < |buf| && head != tail
    ensures Contents(buf, head, tail) == [buf[tail]] + Contents(buf, head, Incr(|buf|, tail, 1))
    ensures Occupied(|buf|, head, Incr(|buf|, tail, 1)) == Occupied(|buf|, head, tail) - 1
  {
    var next := Incr(|buf|, tail, 1);
    if head > tail {
      assert buf[tail..head] == [buf[tail]] + buf[tail + 1..head];
    } else if tail + 1 < |buf| {
      assert buf[tail..] == [buf[tail]] + buf[next..];
      Assoc([buf[tail]], buf[next..], buf[..head]);
    } else {
      assert buf[tail..] == [buf[tail]];
      assert Contents(buf, head, next) == buf[..head];
    }
  }

  /** Filling a free byte ahead of the head leaves every published byte alone. */
  lemma FillKeepsContents(buf: seq<byte>, head: nat, tail: nat, space: nat, i: nat, b: byte)
    requires head < |buf| && tail < |buf|
    requires i < space <= |buf| - head
    requires space <= |buf| - 1 - Occupied(|buf|, head, tail)
    ensures Contents(buf[head + i := b], head, tail) == Contents(buf, head, tail)
  {
  }
}
