/** What a scull device holds, and what its calls do to it, apart from where the blocks lie in memory. */
module ScullSpec {
  import opened Basics
  import opened Addressing

  /** `items` is the length of the list; `blocks` are the quanta allocated so far. */
  datatype Store = Store(quantum: nat, qset: nat, size: nat, items: nat, blocks: map<Slot, seq<byte>>) {
    predicate Valid() {
      && quantum > 0 && qset > 0
      && (forall k :: k in blocks ==> k.item < items && k.pos < qset && |blocks[k]| == quantum)
      && size <= items * ItemSize(quantum, qset)
    }

    function Where(p: nat): Place
      requires quantum > 0 && qset > 0
    {
      Locate(quantum, qset, p)
    }

    /** The byte at a position, when its quantum is allocated. */
    function ByteAt(p: nat): Option<byte>
      requires Valid()
    {
      LocateRebuilds(quantum, qset, p);
      var w := Where(p);
      if w.slot in blocks then Some(blocks[w.slot][w.offset]) else None
    }
  }

  /** A device after scull_trim with the given tunables. */
  function Trimmed(quantum: nat, qset: nat): Store {
    Store(quantum, qset, 0, 0, map[])
  }

  /** scull_read at `p`: the bytes it returns. */
  function Read(st: Store, p: nat, count: nat): seq<byte>
    requires st.Valid()
  {
    if p >= st.size then []
    else
      LocateRebuilds(st.quantum, st.qset, p);
      var w := st.Where(p);
      var want := Min(count, st.size - p);
      if w.slot !in st.blocks then []
      else st.blocks[w.slot][w.offset..w.offset + Min(want, st.quantum - w.offset)]
  }

  /** How many bytes a scull_write at `p` accepts when memory is granted. */
  function Accepted(st: Store, p: nat, count: nat): nat
    requires st.Valid()
  {
    LocateRebuilds(st.quantum, st.qset, p);
    Min(count, st.quantum - st.Where(p).offset)
  }

  /** The quantum that a write at `p` works on; `junk` is what kmalloc hands out if it has to be allocated. */
  function Target(st: Store, p: nat, junk: seq<byte>): (b: seq<byte>)
    requires st.Valid() && |junk| == st.quantum
    ensures |b| == st.quantum
  {
    if st.Where(p).slot in st.blocks then st.blocks[st.Where(p).slot] else junk
  }

  /** scull_write at `p` when every allocation it needs is granted. */
  function Write(st: Store, p: nat, data: seq<byte>, junk: seq<byte>): Store
    requires st.Valid() && |junk| == st.quantum
  {
    LocateRebuilds(st.quantum, st.qset, p);
    var w := st.Where(p);
    var n := Accepted(st, p, |data|);
    Store(st.quantum, st.qset,
          if st.size < p + n then p + n else st.size,
          if st.items < w.slot.item + 1 then w.slot.item + 1 else st.items,
          st.blocks[w.slot := Patched(Target(st, p, junk), w.offset, data[..n])])
  }

  /** scull_write that runs out of memory: the list may have grown on the way, nothing else shows. */
  predicate Refused(st: Store, p: nat, after: Store)
    requires st.Valid()
  {
    && after == st.(items := after.items)
    && st.items <= after.items
    && (after.items <= st.items || after.items <= st.Where(p).slot.item + 1)
  }

  // ---------- the store as a flat array of bytes ----------

  lemma WriteKeepsValid(st: Store, p: nat, data: seq<byte>, junk: seq<byte>)
    requires st.Valid() && |junk| == st.quantum
    ensures var t := Write(st, p, data, junk);
            && t.Valid() && t.quantum == st.quantum && t.qset == st.qset
            && t.size == Max(st.size, p + Accepted(st, p, |data|))
  {
    var t := Write(st, p, data, junk);
    LocateRebuilds(st.quantum, st.qset, p);
    QuantumInItem(st.quantum, st.qset, p);
    MulLe(st.items, t.items, ItemSize(st.quantum, st.qset));
    MulLe(st.Where(p).slot.item + 1, t.items, ItemSize(st.quantum, st.qset));
  }

  lemma RefusedKeepsValid(st: Store, p: nat, after: Store)
    requires st.Valid() && Refused(st, p, after)
    ensures after.Valid()
  {
    MulLe(st.items, after.items, ItemSize(st.quantum, st.qset));
  }

  /** A read returns the bytes from `p` on, cut at the count, the size and the end of the quantum; it returns
      nothing past the size or in a hole. */
  lemma ReadIsFlat(st: Store, p: nat, count: nat)
    requires st.Valid()
    ensures var r := Read(st, p, count);
            && |r| == (if p >= st.size || st.ByteAt(p).None? then 0
                       else Min(Min(count, st.size - p), st.quantum - p % st.quantum))
            && forall i :: 0 <= i < |r| ==> st.ByteAt(p + i) == Some(r[i])
  {
    LocateRebuilds(st.quantum, st.qset, p);
    LocateIsLinear(st.quantum, st.qset, p);
    var r := Read(st, p, count);
    forall i | 0 <= i < |r| ensures st.ByteAt(p + i) == Some(r[i]) {
      LocateShift(st.quantum, st.qset, p, i);
    }
  }

  /** A granted write puts its bytes at `p` and leaves every other allocated byte alone. */
  lemma WriteIsFlat(st: Store, p: nat, data: seq<byte>, junk: seq<byte>, x: nat)
    requires st.Valid() && |junk| == st.quantum
    ensures Write(st, p, data, junk).Valid()
    ensures var t := Write(st, p, data, junk);
            var n := Accepted(st, p, |data|);
            && (p <= x < p + n ==> t.ByteAt(x) == Some(data[x - p]))
            && (!(p <= x < p + n) && st.ByteAt(x).Some? ==> t.ByteAt(x) == st.ByteAt(x))
            && (t.ByteAt(x).Some? <==> st.ByteAt(x).Some? || x / st.quantum == p / st.quantum)
  {
    WriteKeepsValid(st, p, data, junk);
    LocateRebuilds(st.quantum, st.qset, p);
    LocateRebuilds(st.quantum, st.qset, x);
    SameSlotIff(st.quantum, st.qset, p, x);
    if st.Where(x).slot == st.Where(p).slot {
      SameQuantumOffsets(st, p, x);
    } else {
      OtherQuantumIsClear(st, p, x, Accepted(st, p, |data|));
    }
  }

  lemma SameQuantumOffsets(st: Store, p: nat, x: nat)
    requires st.Valid() && st.Where(x).slot == st.Where(p).slot
    ensures x - p == st.Where(x).offset - st.Where(p).offset
  {
    LocateRebuilds(st.quantum, st.qset, p);
    LocateRebuilds(st.quantum, st.qset, x);
  }

  /** What is accepted stays within the quantum of `p`. */
  lemma OtherQuantumIsClear(st: Store, p: nat, x: nat, n: nat)
    requires st.Valid() && st.Where(x).slot != st.Where(p).slot && st.Where(p).offset + n <= st.quantum
    ensures !(p <= x < p + n)
  {
    if p <= x < p + n {
      LocateShift(st.quantum, st.qset, p, x - p);
    }
  }
}
