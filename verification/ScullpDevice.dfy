/** The scullp device: the store of scull with a power of two of pages as quantum, the first list item part of the
    device, and a second way to find a page, for memory mappings. */
module ScullpDevice {
  import opened Basics
  import opened Addressing
  import opened ScullSpec
  import opened ScullLayout
  import opened ScullDevice

  /** scullp_order and scullp_qset. */
  class ScullpTunables {
    var order: nat
    var qset: nat

    constructor (order: nat, qset: nat)
      ensures this.order == order && this.qset == qset
    {
      this.order, this.qset := order, qset;
    }
  }

  function Zeros(n: nat): (z: seq<byte>)
    ensures |z| == n
  {
    seq(n, _ => 0)
  }

  /** PAGE_SIZE << order. */
  function PagesOf(page: nat, order: nat): (n: nat)
    requires page > 0
    ensures n > 0 && (order == 0 ==> n == page)
  {
    if order == 0 then page else 2 * PagesOf(page, order - 1)
  }

  /** Orders add up as shifts do, and one order is a doubling. */
  lemma {:induction false} PagesOfIsShift(page: nat, a: nat, b: nat)
    requires page > 0
    ensures PagesOf(page, a + b) == PagesOf(PagesOf(page, a), b)
    ensures PagesOf(page, 1) == page + page
    decreases b
  {
    assert PagesOf(page, 1) == 2 * PagesOf(page, 0);
    if b > 0 {
      PagesOfIsShift(page, a, b - 1);
    }
  }

  /** A device of one empty list item. */
  function Cleared(quantum: nat, qset: nat): Store {
    Store(quantum, qset, 0, 1, map[])
  }

  /** Of the list items in `g`, `h` still has the first and those from place `from` on. */
  ghost predicate HeadAndRest(g: Ledger, h: Ledger, from: nat) {
    h.nodes == (map n | n in g.nodes && (g.nodes[n] == 0 || g.nodes[n] >= from) :: g.nodes[n])
  }

  lemma ItemsDistinct(l: Layout, g: Ledger, quantum: nat, qset: nat)
    requires Owned(l, g, quantum, qset)
    ensures |l.arrays| == |l.nodes| && NodesOk(l, g)
    ensures forall i, j :: 0 <= i < j < |l.nodes| ==> l.nodes[i] != l.nodes[j]
  {
  }

  lemma AllKept(g: Ledger)
    ensures HeadAndRest(g, g, 0)
  {
  }

  lemma HeadKept(l: Layout, g: Ledger, h: Ledger)
    requires NodesOk(l, g) && HeadAndRest(g, h, 0)
    ensures HeadAndRest(g, h, 1)
  {
  }

  lemma NextFreed(l: Layout, g: Ledger, h: Ledger, i: nat)
    requires NodesOk(l, g) && HeadAndRest(g, h, i) && 0 < i < |l.nodes|
    ensures l.nodes[i] in h.nodes && HeadAndRest(g, h.(nodes := h.nodes - {l.nodes[i]}), i + 1)
  {
    var n := l.nodes[i];
    assert forall x :: x in g.nodes ==>
        (g.nodes[x] == 0 || g.nodes[x] >= i + 1 <==> (g.nodes[x] == 0 || g.nodes[x] >= i) && x != n);
  }

  lemma OnlyHeadLeft(l: Layout, g: Ledger, h: Ledger)
    requires NodesOk(l, g) && HeadAndRest(g, h, |l.nodes|) && |l.nodes| > 0
    ensures h.nodes == map[l.nodes[0] := 0]
  {
    assert h.nodes.Keys == {l.nodes[0]};
  }

  /** A read at the size of a full list. */
  predicate Grows(st: Store, pos: nat) {
    st.quantum > 0 && st.qset > 0 && pos == st.size == st.items * ItemSize(st.quantum, st.qset)
  }

  /** What a read returns, from the place of its position; past the size it neither returns anything nor grows. */
  lemma ReadIs(st: Store, pos: nat, count: nat)
    requires st.Valid()
    ensures var w := st.Where(pos);
            var want := Min(count, st.size - pos);
            w.offset < st.quantum && ScullSpec.Read(st, pos, count) ==
              if pos > st.size || w.slot !in st.blocks then []
              else st.blocks[w.slot][w.offset..w.offset + Min(want, st.quantum - w.offset)]
    ensures pos > st.size ==> !Grows(st, pos)
  {
    LocateRebuilds(st.quantum, st.qset, pos);
  }

  /** Up to the size, a position is in an item of the list, or in the next one when a read there grows the list. */
  lemma ReadItem(st: Store, pos: nat)
    requires st.Valid() && pos <= st.size
    ensures if Grows(st, pos) then st.Where(pos).slot.item == st.items else st.Where(pos).slot.item < st.items
  {
    if Grows(st, pos) {
      DivModUnique(pos, ItemSize(st.quantum, st.qset), st.items, 0);
    } else {
      ItemInRange(st.quantum, st.qset, pos, st.items);
    }
  }

  lemma HeadOwned(head: Qset, h: Ledger, quantum: nat, qset: nat)
    requires h == Ledger(map[head := 0], map[], map[])
    ensures Owned(Layout([head], [null], map[]), h, quantum, qset)
  {
  }

  /** struct scullp_dev; `list.data` is the device itself in its part of first list item. */
  class ScullpDev {
    const list: ScullDev
    const page: nat
    var vmas: int
    var order: nat

    ghost predicate Valid()
      reads this, list, list.mem, list.lay.nodes, list.lay.arrays, list.lay.quanta.Values
    {
      page > 0 && list.quantum == PagesOf(page, order) && list.Valid() && |list.lay.nodes| > 0
    }

    ghost function View(): Store
      reads this, list
    {
      list.View()
    }

    /** At order 0, the page of an offset below the size by the division that read and write use; null for a hole. */
    ghost function PageAt(offset: nat): array?<byte>
      requires page > 0 && list.qset > 0
      reads this, list
    {
      if offset >= list.size then null else list.lay.QuantumAt(Locate(page, list.qset, offset).slot)
    }

    /** A zeroed device takes up the tunables when the module is loaded. */
    constructor (mem: Kernel, page: nat, tunables: ScullpTunables)
      requires page > 0 && tunables.qset > 0 && mem.ledger == Ledger(map[], map[], map[])
      modifies mem`ledger
      ensures Valid() && fresh(list) && list.mem == mem && this.page == page
      ensures View() == Cleared(PagesOf(page, tunables.order), tunables.qset) && vmas == 0 && order == tunables.order
      ensures list.qset == tunables.qset && list.size == 0 && list.lay.quanta == map[]
    {
      var l := NewList(mem, PagesOf(page, tunables.order), tunables.qset);
      list := l;
      this.page := page;
      vmas, order := 0, tunables.order;
    }

    static method NewList(mem: Kernel, quantum: nat, qset: nat) returns (l: ScullDev)
      requires quantum > 0 && qset > 0 && mem.ledger == Ledger(map[], map[], map[])
      modifies mem`ledger
      ensures fresh(l) && l.mem == mem && l.Valid() && l.View() == Cleared(quantum, qset)
    {
      hide Owned, ItemSize;
      var start := new Tunables(quantum, qset);
      l := new ScullDev(mem, start);
      var head := new Qset();
      mem.ledger := Ledger(map[head := 0], map[], map[]);
      HeadOwned(head, mem.ledger, quantum, qset);
      l.data, l.lay := head, Layout([head], [null], map[]);
    }

    // ---------- mappings ----------

    method VmaOpen()
      modifies this`vmas
      ensures vmas == old(vmas) + 1
    {
      vmas := vmas + 1;
    }

    method VmaClose()
      modifies this`vmas
      ensures vmas == old(vmas) - 1
    {
      vmas := vmas - 1;
    }

    /** scullp_mmap: false for -ENODEV. */
    method Mmap() returns (ok: bool)
      modifies this`vmas
      ensures ok <==> order == 0
      ensures vmas == if ok then old(vmas) + 1 else old(vmas)
    {
      if order != 0 {
        return false;
      }
      VmaOpen();
      ok := true;
    }

    /** The loop of scullp_vma_nopage: walking the list while subtracting ends where dividing leads. */
    method Walk(n: nat) returns (ptr: Qset?, offset: nat)
      requires list.Linked() && list.qset > 0
      ensures ptr == list.lay.NodeAt(WalkSlot(list.qset, n).item)
      ensures ptr != null ==> offset == WalkSlot(list.qset, n).pos
    {
      hide WalkSlot;
      ptr, offset := list.data, n;
      ghost var i := 0;
      while ptr != null && offset >= list.qset
        invariant ptr == list.lay.NodeAt(i)
        invariant WalkSlot(list.qset, n) == Slot(i + WalkSlot(list.qset, offset).item, WalkSlot(list.qset, offset).pos)
        decreases offset
      {
        assert list.lay.nodes[i].next == list.lay.NodeAt(i + 1);
        WalkOn(list.qset, offset);
        ptr := ptr.next;
        offset := offset - list.qset;
        i := i + 1;
      }
      if offset < list.qset {
        WalkEnds(list.qset, offset);
      }
    }

    /** scullp_vma_nopage: the page of a fault at `address`, or null for SIGBUS.  Page j of the mapping is page
        `vmPgoff` + j of the device. */
    method Nopage(address: nat, vmStart: nat, vmPgoff: nat) returns (found: array?<byte>)
      requires Valid() && vmStart <= address
      ensures var k := address - vmStart;
              found == if MappedPos(page, vmPgoff, k) >= list.size then null
                       else list.lay.QuantumAt(WalkSlot(list.qset, MappedPage(page, vmPgoff, k)))
    {
      hide WalkSlot, MappedPage, MappedPos, PageSlot, Valid, ScullDev.Valid;
      SetsAreReal();
      var offset := address - vmStart + vmPgoff * page;
      OffsetIs(address - vmStart, vmPgoff);
      MappedSlot(page, list.qset, vmPgoff, address - vmStart);
      found := NopageAt(offset);
    }

    lemma SetsAreReal()
      requires Valid()
      ensures page > 0 && list.qset > 0
    {
    }

    lemma OffsetIs(k: nat, vmPgoff: nat)
      ensures k + vmPgoff * page == MappedPos(page, vmPgoff, k) >= 0
    {
    }

    method NopageAt(offset: nat) returns (found: array?<byte>)
      requires Valid()
      ensures found == if offset >= list.size then null else list.lay.QuantumAt(PageSlot(page, list.qset, offset))
    {
      hide Owned, WalkSlot;
      if offset >= list.size {
        return null;
      }
      var ptr, rest := Walk(offset / page);
      found := FindIn(ptr, PageSlot(page, list.qset, offset), rest);
    }

    /** The page of slot `rest` of list item `ptr`, if there are such. */
    method FindIn(ptr: Qset?, ghost k: Slot, rest: nat) returns (found: array?<byte>)
      requires Valid() && ptr == list.lay.NodeAt(k.item) && (ptr != null ==> rest == k.pos < list.qset)
      ensures found == list.lay.QuantumAt(k)
    {
      hide Owned;
      AllocatedItems(list.lay, list.mem.ledger, list.quantum, list.qset);
      found := null;
      if ptr != null {
        assert list.lay.nodes[k.item].data == list.lay.arrays[k.item];
        if ptr.data != null {
          found := ptr.data[rest];
        }
      }
    }

    // ---------- trimming ----------

    /** kfree(dptr), except for the device itself. */
    method FreeOther(dptr: Qset, ghost i: nat, ghost g: Ledger)
      requires NodesOk(list.lay, g) && i < |list.lay.nodes| && dptr == list.lay.nodes[i]
      requires list.data == list.lay.nodes[0]
      requires HeadAndRest(g, list.mem.ledger, i)
      modifies list.mem`ledger
      ensures HeadAndRest(g, list.mem.ledger, i + 1)
      ensures list.mem.ledger.arrays == old(list.mem.ledger.arrays)
      ensures list.mem.ledger.quanta == old(list.mem.ledger.quanta)
    {
      if dptr != list.data {
        NextFreed(list.lay, g, list.mem.ledger, i);
        list.mem.FreeNode(dptr);
      } else {
        HeadKept(list.lay, g, list.mem.ledger);
      }
    }

    /** The first `i` items have no slot array any more; the rest have theirs. */
    ghost predicate ClearedTo(l: Layout, i: nat)
      requires |l.arrays| == |l.nodes|
      reads l.nodes
    {
      forall k {:trigger l.nodes[k].data} :: 0 <= k < |l.nodes| ==>
          l.nodes[k].data == if k < i then null else l.arrays[k]
    }

    ghost predicate Chained(l: Layout)
      reads l.nodes
    {
      forall k {:trigger l.nodes[k].next} :: 0 <= k < |l.nodes| ==> l.nodes[k].next == l.NodeAt(k + 1)
    }

    /** One round of the loop of scullp_trim. */
    method FreeItemRest(dptr: Qset, ghost i: nat, ghost g: Ledger) returns (next: Qset?)
      requires list.Slotted() && Owned(list.lay, g, list.quantum, list.qset) && |list.lay.arrays| == |list.lay.nodes|
      requires i < |list.lay.nodes| && dptr == list.lay.nodes[i] && list.data == list.lay.nodes[0]
      requires Chained(list.lay) && ClearedTo(list.lay, i)
      requires HeadAndRest(g, list.mem.ledger, i) && BlocksLeft(g, list.mem.ledger, i, Slot(i, 0))
      modifies list.mem`ledger, dptr`data
      ensures HeadAndRest(g, list.mem.ledger, i + 1) && BlocksLeft(g, list.mem.ledger, i + 1, Slot(i + 1, 0))
      ensures Chained(list.lay) && ClearedTo(list.lay, i + 1) && next == list.lay.NodeAt(i + 1)
    {
      ItemsDistinct(list.lay, g, list.quantum, list.qset);
      hide Owned, NodesOk;
      list.FreeItem(dptr, i, g);
      next := dptr.next;
      assert list.lay.nodes[i].next == list.lay.NodeAt(i + 1);
      FreeOther(dptr, i, g);
    }

    /** The loop of scullp_trim. */
    method FreeItems(ghost g: Ledger)
      requires list.Linked() && list.Slotted() && Owned(list.lay, g, list.quantum, list.qset) && g == list.mem.ledger
      requires |list.lay.nodes| > 0
      modifies list.mem`ledger, list.lay.nodes`data
      ensures HeadAndRest(g, list.mem.ledger, |list.lay.nodes|)
      ensures BlocksLeft(g, list.mem.ledger, |list.lay.nodes|, Slot(|list.lay.nodes|, 0))
      ensures ClearedTo(list.lay, |list.lay.nodes|)
    {
      hide Owned, HeadAndRest, BlocksLeft, ScullDev.Slotted;
      AllLeft(g);
      AllKept(g);
      assert Chained(list.lay) && ClearedTo(list.lay, 0);
      hide ScullDev.Linked, Chained, ClearedTo;
      ghost var l := list.lay;
      var dptr := list.data;
      ghost var i := 0;
      while dptr != null
        invariant 0 <= i <= |l.nodes| && dptr == l.NodeAt(i) && list.Slotted() && Chained(l) && ClearedTo(l, i)
        invariant HeadAndRest(g, list.mem.ledger, i) && BlocksLeft(g, list.mem.ledger, i, Slot(i, 0))
        decreases |l.nodes| - i
      {
        dptr := FreeItemRest(dptr, i, g);
        i := i + 1;
      }
    }

    /** Every block but the device itself is freed, each once. */
    method FreeRest(ghost g: Ledger)
      requires list.Linked() && list.Slotted() && Owned(list.lay, g, list.quantum, list.qset) && g == list.mem.ledger
      requires |list.lay.nodes| > 0
      modifies list.mem`ledger, list.lay.nodes`data
      ensures list.mem.ledger == Ledger(map[list.lay.nodes[0] := 0], map[], map[])
      ensures list.lay.nodes[0].data == null
    {
      ItemsDistinct(list.lay, g, list.quantum, list.qset);
      hide Owned, NodesOk, HeadAndRest, BlocksLeft;
      FreeItems(g);
      NoBlocksLeft(list.lay, g, list.quantum, list.qset, list.mem.ledger);
      OnlyHeadLeft(list.lay, g, list.mem.ledger);
    }

    /** scullp_trim: false for -EBUSY, and then nothing is freed; otherwise only the device itself is left. */
    method Trim(tunables: ScullpTunables) returns (ok: bool)
      requires Valid() && tunables.qset > 0
      modifies this`order, list, list.mem`ledger, list.lay.nodes
      ensures Valid() && (ok <==> vmas == 0)
      ensures !ok ==> order == old(order) && list.lay == old(list.lay) && View() == old(View())
      ensures !ok ==> list.mem.ledger == old(list.mem.ledger)
      ensures ok ==> order == tunables.order && View() == Cleared(PagesOf(page, order), tunables.qset)
      ensures ok ==> list.qset == tunables.qset && list.size == 0 && |list.lay.nodes| == 1 && list.lay.quanta == map[]
      ensures ok ==> list.mem.ledger == Ledger(map[old(list.lay.nodes)[0] := 0], map[], map[])
    {
      hide Owned;
      if vmas != 0 {
        return false;
      }
      var head := list.data;
      assert head == list.lay.nodes[0];
      FreeRest(list.mem.ledger);
      Reset(head, tunables);
      ok := true;
    }

    /** With everything else freed, the device starts anew. */
    method Reset(head: Qset, tunables: ScullpTunables)
      requires page > 0 && tunables.qset > 0 && list.data == head && head.data == null
      requires list.mem.ledger == Ledger(map[head := 0], map[], map[])
      modifies this`order, list, head
      ensures Valid() && order == tunables.order && View() == Cleared(PagesOf(page, order), tunables.qset)
      ensures list.qset == tunables.qset && list.size == 0 && |list.lay.nodes| == 1 && list.lay.quanta == map[]
    {
      hide Owned;
      HeadOwned(head, list.mem.ledger, PagesOf(page, tunables.order), tunables.qset);
      list.size, list.qset, order := 0, tunables.qset, tunables.order;
      list.quantum := PagesOf(page, order);
      head.next := null;
      list.lay, list.blocks := Layout([head], [null], map[]), map[];
    }

    /** scullp_open: a write-only open trims, and ignores whether it could. */
    method Open(writeOnly: bool, tunables: ScullpTunables)
      requires Valid() && tunables.qset > 0
      modifies this`order, list, list.mem`ledger, list.lay.nodes
      ensures Valid()
      ensures if writeOnly && vmas == 0 then
                order == tunables.order && View() == Cleared(PagesOf(page, order), tunables.qset)
              else order == old(order) && View() == old(View()) && list.lay == old(list.lay)
      ensures writeOnly && vmas == 0 ==> list.qset == tunables.qset && list.size == 0 && list.lay.quanta == map[]
    {
      if writeOnly {
        var _ := Trim(tunables);
      }
    }

    // ---------- reading and writing ----------

    /** Every slot that had a page has the same page. */
    twostate predicate PagesKept()
      reads list`lay
    {
      forall k :: k in old(list.lay).quanta ==> k in list.lay.quanta && list.lay.quanta[k] == old(list.lay).quanta[k]
    }

    /** scullp_read.  Its range test lets the position of the size through, so that a read there, which returns
        nothing, adds a list item when the size fills the list. */
    method Read(pos: nat, count: nat) returns (got: seq<byte>)
      requires Valid()
      modifies list`data, list`lay, list.mem, list.lay.nodes`next
      ensures Valid() && old(View()).Valid() && got == ScullSpec.Read(old(View()), pos, count)
      ensures list.lay.quanta == old(list.lay).quanta
      ensures View() == old(View()) || View() == old(View()).(items := old(View()).items + 1)
      ensures View() != old(View()) <==> Grows(old(View()), pos) && !list.Denied()
    {
      hide Owned, Locate, ScullDev.Linked, ScullDev.Slotted, ScullDev.Held, Grows, ScullSpec.Read;
      list.ViewIsValid();
      ReadIs(View(), pos, count);
      if pos > list.size {
        return [];
      }
      var want := if pos + count > list.size then list.size - pos else count;
      var item, sPos, qPos := list.Split(pos);
      var dptr := FollowForRead(pos, item);
      got := [];
      if dptr != null {
        got := ReadPage(dptr, item, sPos, qPos, want);
      }
    }

    /** scullp_follow as scullp_read calls it. */
    method FollowForRead(pos: nat, item: nat) returns (dptr: Qset?)
      requires Valid() && pos <= list.size && item == Locate(list.quantum, list.qset, pos).slot.item
      modifies list`data, list`lay, list.mem, list.lay.nodes`next
      ensures Valid() && list.lay.quanta == old(list.lay).quanta
      ensures if dptr == null then |list.lay.nodes| <= item else item < |list.lay.nodes| && dptr == list.lay.nodes[item]
      ensures View() == old(View()) || View() == old(View()).(items := old(View()).items + 1)
      ensures View() != old(View()) <==> Grows(old(View()), pos) && !list.Denied()
    {
      hide Owned, Locate, Grows, ScullDev.Linked, ScullDev.Slotted;
      list.ViewIsValid();
      ReadItem(View(), pos);
      dptr := list.FollowIn(item);
    }

    /** The end of scullp_read: up to `want` bytes of a slot from `at` on, cut at the end of the page. */
    method ReadPage(dptr: Qset, ghost item: nat, pos: nat, at: nat, want: nat) returns (got: seq<byte>)
      requires Valid() && item < |list.lay.nodes| && dptr == list.lay.nodes[item]
      requires pos < list.qset && at < list.quantum
      ensures got == var k := Slot(item, pos);
                     if k in list.blocks then list.blocks[k][at..at + Min(want, list.quantum - at)] else []
    {
      hide Owned;
      AllocatedItems(list.lay, list.mem.ledger, list.quantum, list.qset);
      assert list.lay.nodes[item].data == list.lay.arrays[item];
      if dptr.data == null {
        return [];
      }
      var q := dptr.data[pos];
      assert q == list.lay.QuantumAt(Slot(item, pos));
      if q == null {
        return [];
      }
      var n := if want > list.quantum - at then list.quantum - at else want;
      got := q[at..at + n];
      assert got == q[..][at..at + n];
    }

    /** The page of slot `pos` of slot array `a`, allocated and zeroed if need be. */
    method EnsurePage(a: SlotArray, ghost item: nat, pos: nat) returns (q: array?<byte>)
      requires Valid() && item < |list.lay.arrays| && a == list.lay.arrays[item] && pos < list.qset
      requires a.Length == list.qset
      modifies list`lay, list`blocks, a, list.mem
      ensures Valid() && PagesKept() && list.lay.nodes == old(list.lay).nodes && old(list.mem.calls) <= list.mem.calls
      ensures q == null ==> list.blocks == old(list.blocks) && list.Denied()
      ensures q != null ==> Slot(item, pos) in list.lay.quanta && q == list.lay.quanta[Slot(item, pos)]
      ensures q != null ==> fresh(q) || q in old(list.lay).quanta.Values
      ensures q != null ==> list.blocks == if Slot(item, pos) in old(list.blocks) then old(list.blocks)
                                           else old(list.blocks)[Slot(item, pos) := Zeros(list.quantum)]
    {
      hide Owned, Zeros, ScullDev.Linked;
      ghost var k := Slot(item, pos);
      assert a[pos] == list.lay.QuantumAt(k);
      var hole := a[pos] == null;
      q := list.EnsureQuantum(a, item, pos);
      if hole && q != null {
        ghost var junk := q[..];
        ZeroPage(q, k);
        list.FillTwice(old(list.blocks), k, junk, Zeros(list.quantum));
      }
    }

    /** memset. */
    method ZeroPage(q: Quantum, ghost k: Slot)
      requires Valid() && k in list.lay.quanta && q == list.lay.quanta[k]
      modifies q, list`blocks
      ensures Valid() && list.blocks == old(list.blocks)[k := Zeros(list.quantum)]
    {
      hide Owned, Zeros, Patched;
      AllocatedItems(list.lay, list.mem.ledger, list.quantum, list.qset);
      list.CopyTo(q, k, 0, Zeros(list.quantum));
      AllZero(old(list.blocks)[k], list.quantum);
    }

    static lemma AllZero(block: seq<byte>, n: nat)
      requires |block| == n
      ensures Patched(block, 0, Zeros(n)) == Zeros(n)
    {
    }

    /** The first half of scullp_write: find the page of a slot, allocating item, slot array and page on the way. */
    method Prepare(item: nat, pos: nat) returns (q: array?<byte>)
      requires Valid() && pos < list.qset
      modifies list`data, list`lay, list`blocks, list.mem, list.lay.nodes, list.lay.arrays
      ensures Valid() && PagesKept() && old(list.mem.calls) <= list.mem.calls
      ensures |old(list.lay).nodes| <= |list.lay.nodes|
      ensures |list.lay.nodes| <= (if |old(list.lay).nodes| <= item then item + 1 else |old(list.lay).nodes|)
      ensures q == null ==> list.blocks == old(list.blocks) && list.Denied()
      ensures q != null ==> item < |list.lay.nodes|
      ensures q != null ==> Slot(item, pos) in list.lay.quanta && q == list.lay.quanta[Slot(item, pos)]
      ensures q != null ==> fresh(q) || q in old(list.lay).quanta.Values
      ensures q != null ==> list.blocks == if Slot(item, pos) in old(list.blocks) then old(list.blocks)
                                           else old(list.blocks)[Slot(item, pos) := Zeros(list.quantum)]
    {
      hide Owned, Zeros, ScullDev.Linked, ScullDev.Slotted;
      q := null;
      var a := list.SlotsAt(item);
      if a != null {
        AllocatedItems(list.lay, list.mem.ledger, list.quantum, list.qset);
        q := EnsurePage(a, item, pos);
      }
    }

    /** The second half of scullp_write; `was` is what the page held before. */
    method FillSlot(item: nat, pos: nat, at: nat, data: seq<byte>) returns (ok: bool, ghost was: seq<byte>)
      requires Valid() && pos < list.qset && at + |data| <= list.quantum
      modifies list`data, list`lay, list`blocks, list.mem, list.lay.nodes, list.lay.arrays, list.lay.quanta.Values
      ensures Valid() && PagesKept() && |was| == list.quantum
      ensures |old(list.lay).nodes| <= |list.lay.nodes|
      ensures |list.lay.nodes| <= (if |old(list.lay).nodes| <= item then item + 1 else |old(list.lay).nodes|)
      ensures !ok ==> list.blocks == old(list.blocks) && list.Denied()
      ensures ok ==> was == if Slot(item, pos) in old(list.blocks) then old(list.blocks)[Slot(item, pos)]
                            else Zeros(list.quantum)
      ensures ok ==> item < |list.lay.nodes|
      ensures ok ==> list.blocks == old(list.blocks)[Slot(item, pos) := Patched(was, at, data)]
    {
      hide Owned, Patched, Zeros, ScullDev.Linked, ScullDev.Slotted;
      ok, was := false, Zeros(list.quantum);
      var q := Prepare(item, pos);
      if q != null {
        ghost var k := Slot(item, pos);
        OwnedFacts(list.lay, list.mem.ledger, list.quantum, list.qset);
        ok, was := true, list.blocks[k];
        list.CopyTo(q, k, at, data);
        list.FillTwice(old(list.blocks), k, was, Patched(was, at, data));
      }
    }

    /** scullp_write: the number of bytes accepted, or None for -ENOMEM.  Only empty slots are filled.
        The order of a list item but the first is 0, so that at another order the driver writes past the page
        there: that is the caller's to avoid. */
    method Write(pos: nat, data: seq<byte>) returns (result: Option<nat>)
      requires Valid() && (order == 0 || pos < ItemSize(list.quantum, list.qset))
      modifies list`data, list`lay, list`blocks, list`size, list.mem, list.lay.nodes, list.lay.arrays,
          list.lay.quanta.Values
      ensures Valid() && PagesKept() && old(View()).Valid()
      ensures result.None? ==> Refused(old(View()), pos, View()) && list.Denied()
      ensures result.Some? ==> result.value == Accepted(old(View()), pos, |data|)
      ensures result.Some? ==> View() == ScullSpec.Write(old(View()), pos, data, Zeros(list.quantum))
    {
      hide Owned, Patched, Zeros, ScullDev.Linked, ScullDev.Slotted, ScullDev.Held;
      list.ViewIsValid();
      var item, sPos, qPos := list.Split(pos);
      QuantumInItem(list.quantum, list.qset, pos);
      var count := Min(|data|, list.quantum - qPos);
      var ok, _ := FillSlot(item, sPos, qPos, data[..count]);
      if ok {
        list.RaiseSize(pos + count, item);
        result := Some(count);
      } else {
        result := None;
      }
    }

    // ---------- the two ways to a byte ----------

    /** Below the size, a read returns the byte that the page nopage finds holds at the same place, and nothing
        exactly where nopage finds no page. */
    lemma MappedByteIsReadByte(pos: nat)
      requires Valid() && order == 0 && pos < list.size
      ensures View().Valid()
      ensures var got, found := ScullSpec.Read(View(), pos, 1), PageAt(pos);
              if found == null then got == []
              else found.Length == page && pos % page < found.Length && got == [found[pos % page]]
    {
      list.ViewIsValid();
      AllocatedItems(list.lay, list.mem.ledger, list.quantum, list.qset);
      LocateIsLinear(page, list.qset, pos);
      hide Owned, ScullDev.Linked, ScullDev.Slotted, Locate;
      if PageAt(pos) != null {
        var k := Locate(page, list.qset, pos).slot;
        assert list.lay.quanta[k][..] == list.blocks[k];
      }
    }

    /** What a process sees at an address of a mapping, at order 0: where the page of the address has been faulted in,
        the byte that a read returns at the position the address stands for; and SIGBUS where a read returns nothing. */
    lemma MappedByteIsRead(vmPgoff: nat, k: nat)
      requires Valid() && order == 0 && MappedPos(page, vmPgoff, k) < list.size
      ensures View().Valid()
      ensures var found := list.lay.QuantumAt(WalkSlot(list.qset, MappedPage(page, vmPgoff, k)));
              if found == null then ScullSpec.Read(View(), MappedPos(page, vmPgoff, k), 1) == []
              else
                && found.Length == page && k % page < found.Length
                && ScullSpec.Read(View(), MappedPos(page, vmPgoff, k), 1) == [found[k % page]]
    {
      hide Owned, Locate, WalkSlot, ScullSpec.Read, ScullDev.Linked, ScullDev.Slotted, ScullDev.Held;
      var pos := MappedPos(page, vmPgoff, k);
      MappedSlot(page, list.qset, vmPgoff, k);
      PageInMapping(page, vmPgoff, k);
      DivInTwoSteps(page, list.qset, pos);
      MappedByteIsReadByte(pos);
      hide MappedPos, MappedPage, PageSlot;
    }

    /** All positions of a page below the size fault the same page in, whichever is touched. */
    lemma AnyByteOfThePage(pos: nat, other: nat)
      requires Valid() && order == 0 && pos < list.size && other < list.size
      ensures pos / page == other / page ==> PageAt(pos) == PageAt(other)
    {
      SameSlotIff(page, list.qset, pos, other);
    }
  }
}
