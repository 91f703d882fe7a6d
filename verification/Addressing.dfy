/** How the scull drivers split a position into list item, slot and offset, and the arithmetic behind it. */
module Addressing {

  /** A quantum: list item `item`, slot `pos` of its quantum set. */
  datatype Slot = Slot(item: nat, pos: nat)

  datatype Place = Place(slot: Slot, offset: nat)

  /** item = p / itemsize, rest = p % itemsize, s_pos = rest / quantum, q_pos = rest % quantum. */
  function Locate(quantum: nat, qset: nat, p: nat): Place
    requires quantum > 0 && qset > 0
  {
    var itemsize := ItemSize(quantum, qset);
    var rest := p % itemsize;
    Place(Slot(p / itemsize, rest / quantum), rest % quantum)
  }

  function ItemSize(quantum: nat, qset: nat): (n: nat)
    requires quantum > 0 && qset > 0
    ensures n > 0
  {
    MulPositive(quantum, qset);
    quantum * qset
  }

  lemma MulPositive(a: nat, b: nat)
    requires a > 0 && b > 0
    ensures a * b > 0
  {
  }

  /** Quotient and remainder are the only pair that fits. */
  lemma DivModUnique(x: nat, d: nat, k: nat, r: nat)
    requires d > 0 && r < d && x == k * d + r
    ensures x / d == k && x % d == r
  {
    var q := x / d;
    assert x == q * d + x % d;
    if q < k {
      MulLe(q + 1, k, d);
    } else if k < q {
      MulLe(k + 1, q, d);
    }
  }

  lemma MulLe(a: nat, b: nat, d: nat)
    requires a <= b
    ensures a * d <= b * d
  {
  }

  lemma DivLess(x: nat, d: nat, n: nat)
    requires d > 0 && x < n * d
    ensures x / d < n
  {
    assert x == (x / d) * d + x % d;
    if n <= x / d {
      MulLe(n, x / d, d);
    }
  }

  /** The split is exact, and the slot and the offset are in range. */
  lemma LocateRebuilds(quantum: nat, qset: nat, p: nat)
    requires quantum > 0 && qset > 0
    ensures var w := Locate(quantum, qset, p);
            && w.slot.pos < qset && w.offset < quantum
            && p == w.slot.item * ItemSize(quantum, qset) + w.slot.pos * quantum + w.offset
  {
    var itemsize := ItemSize(quantum, qset);
    var rest := p % itemsize;
    assert p == (p / itemsize) * itemsize + rest;
    assert rest == (rest / quantum) * quantum + rest % quantum;
    assert rest < qset * quantum;
    DivLess(rest, quantum, qset);
  }

  lemma SlotsBefore(quantum: nat, qset: nat, slot: Slot)
    requires quantum > 0 && qset > 0
    ensures slot.item * ItemSize(quantum, qset) + slot.pos * quantum == (slot.item * qset + slot.pos) * quantum
  {
    assert slot.item * (quantum * qset) == (slot.item * qset) * quantum;
  }

  /** Slots number the quanta of the device in order: slot index p / quantum, offset p % quantum. */
  lemma LocateIsLinear(quantum: nat, qset: nat, p: nat)
    requires quantum > 0 && qset > 0
    ensures var w := Locate(quantum, qset, p);
            && p / quantum == w.slot.item * qset + w.slot.pos && p % quantum == w.offset
  {
    LocateRebuilds(quantum, qset, p);
    var w := Locate(quantum, qset, p);
    hide Locate;
    SlotsBefore(quantum, qset, w.slot);
    DivModUnique(p, quantum, w.slot.item * qset + w.slot.pos, w.offset);
  }

  /** Any slot and offset in range is where exactly one position lives. */
  lemma LocateInverse(quantum: nat, qset: nat, slot: Slot, offset: nat)
    requires quantum > 0 && qset > 0 && slot.pos < qset && offset < quantum
    ensures Locate(quantum, qset, slot.item * ItemSize(quantum, qset) + slot.pos * quantum + offset) ==
            Place(slot, offset)
  {
    var itemsize := ItemSize(quantum, qset);
    var rest := slot.pos * quantum + offset;
    MulLe(slot.pos + 1, qset, quantum);
    assert rest < itemsize;
    DivModUnique(slot.item * itemsize + rest, itemsize, slot.item, rest);
    DivModUnique(rest, quantum, slot.pos, offset);
  }

  /** Two positions share a slot exactly when they share a quantum. */
  lemma SameSlotIff(quantum: nat, qset: nat, p: nat, q: nat)
    requires quantum > 0 && qset > 0
    ensures Locate(quantum, qset, p).slot == Locate(quantum, qset, q).slot <==> p / quantum == q / quantum
  {
    LocateIsLinear(quantum, qset, p);
    LocateIsLinear(quantum, qset, q);
    LocateRebuilds(quantum, qset, p);
    LocateRebuilds(quantum, qset, q);
    var v, w := Locate(quantum, qset, p).slot, Locate(quantum, qset, q).slot;
    if v.item * qset + v.pos == w.item * qset + w.pos {
      DivModUnique(v.item * qset + v.pos, qset, v.item, v.pos);
      DivModUnique(w.item * qset + w.pos, qset, w.item, w.pos);
    }
  }

  /** Moving on inside a quantum moves the offset and nothing else. */
  lemma LocateShift(quantum: nat, qset: nat, p: nat, i: nat)
    requires quantum > 0 && qset > 0 && Locate(quantum, qset, p).offset + i < quantum
    ensures var w := Locate(quantum, qset, p);
            Locate(quantum, qset, p + i) == Place(w.slot, w.offset + i)
  {
    LocateRebuilds(quantum, qset, p);
    var w := Locate(quantum, qset, p);
    LocateInverse(quantum, qset, w.slot, w.offset + i);
  }

  /** The quantum of a position ends within its list item. */
  lemma QuantumInItem(quantum: nat, qset: nat, p: nat)
    requires quantum > 0 && qset > 0
    ensures var w := Locate(quantum, qset, p);
            p + quantum - w.offset <= (w.slot.item + 1) * ItemSize(quantum, qset)
  {
    LocateRebuilds(quantum, qset, p);
    var w := Locate(quantum, qset, p);
    MulLe(w.slot.pos + 1, qset, quantum);
    assert (w.slot.item + 1) * ItemSize(quantum, qset) ==
        w.slot.item * ItemSize(quantum, qset) + ItemSize(quantum, qset);
  }

  /** Positions below the capacity of `items` list items live in these items. */
  lemma ItemInRange(quantum: nat, qset: nat, p: nat, items: nat)
    requires quantum > 0 && qset > 0 && p < items * ItemSize(quantum, qset)
    ensures Locate(quantum, qset, p).slot.item < items
  {
    DivLess(p, ItemSize(quantum, qset), items);
  }

  /** The slot of page number `n`. */
  function WalkSlot(qset: nat, n: nat): (s: Slot)
    requires qset > 0
    ensures s.pos < qset
  {
    Slot(n / qset, n % qset)
  }

  /** The slot of the page of a position, going by whole pages. */
  function PageSlot(page: nat, qset: nat, p: nat): Slot
    requires page > 0 && qset > 0
  {
    WalkSlot(qset, p / page)
  }

  /** The position in the device of byte `k` of a mapping that starts at page `off` of it. */
  function MappedPos(page: nat, off: nat, k: nat): nat {
    off * page + k
  }

  /** The page of the device of that byte. */
  function MappedPage(page: nat, off: nat, k: nat): nat
    requires page > 0
  {
    off + k / page
  }

  /** Pages of the mapping are pages of the device: byte i of page j of the mapping is byte i of page off + j. */
  lemma MappedBytes(page: nat, off: nat, j: nat, i: nat)
    requires i < page
    ensures j * page + i >= 0
    ensures MappedPos(page, off, j * page + i) == (off + j) * page + i
    ensures MappedPage(page, off, j * page + i) == off + j
  {
    DivModUnique(j * page + i, page, j, i);
  }

  lemma PageInMapping(page: nat, off: nat, k: nat)
    requires page > 0
    ensures MappedPos(page, off, k) / page == MappedPage(page, off, k) && MappedPos(page, off, k) % page == k % page
  {
    assert off * page + k == (off + k / page) * page + k % page;
    DivModUnique(off * page + k, page, off + k / page, k % page);
  }

  lemma MappedSlot(page: nat, qset: nat, off: nat, k: nat)
    requires page > 0 && qset > 0
    ensures PageSlot(page, qset, MappedPos(page, off, k)) == WalkSlot(qset, MappedPage(page, off, k))
  {
    PageInMapping(page, off, k);
  }

  lemma WalkEnds(qset: nat, n: nat)
    requires n < qset
    ensures WalkSlot(qset, n) == Slot(0, n)
  {
    DivModUnique(n, qset, 0, n);
  }

  lemma WalkOn(qset: nat, n: nat)
    requires 0 < qset <= n
    ensures WalkSlot(qset, n) == Slot(WalkSlot(qset, n - qset).item + 1, WalkSlot(qset, n - qset).pos)
  {
    DivModUnique(n, qset, (n - qset) / qset + 1, (n - qset) % qset);
  }

  /** Dividing by the page and then by the set is dividing by the list item, with the slot as remainder. */
  lemma DivInTwoSteps(page: nat, qset: nat, p: nat)
    requires page > 0 && qset > 0
    ensures PageSlot(page, qset, p) == Locate(page, qset, p).slot
  {
    LocateIsLinear(page, qset, p);
    LocateRebuilds(page, qset, p);
    var w := Locate(page, qset, p).slot;
    DivModUnique(p / page, qset, w.item, w.pos);
  }
}
