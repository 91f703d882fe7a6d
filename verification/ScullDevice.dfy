/** The bare scull device on the heap: a linked list of quantum sets, each an array of pointers to quanta. */
module ScullDevice {
  import opened Basics
  import opened Addressing
  import opened ScullSpec
  import opened ScullLayout

  /** kmalloc and kfree as one device uses them.  Call number `i` is granted exactly when `grant(i)`; only what
      is in the ledger may be freed. */
  class Kernel {
    const grant: nat -> bool
    var calls: nat
    ghost var ledger: Ledger

    constructor (grant: nat -> bool)
      ensures this.grant == grant && calls == 0 && ledger == Ledger(map[], map[], map[])
    {
      this.grant := grant;
      calls, ledger := 0, Ledger(map[], map[], map[]);
    }

    /** A zeroed list item, or null. */
    method NewNode(ghost place: nat) returns (n: Qset?)
      modifies this
      ensures calls == old(calls) + 1 && (n != null <==> grant(old(calls)))
      ensures n == null ==> ledger == old(ledger)
      ensures n != null ==> fresh(n) && n.data == null && n.next == null
      ensures n != null ==> ledger == old(ledger).(nodes := old(ledger).nodes[n := place])
    {
      n := null;
      if grant(calls) {
        n := new Qset();
        ledger := ledger.(nodes := ledger.nodes[n := place]);
      }
      calls := calls + 1;
    }

    /** A zeroed array of pointers, or null. */
    method NewSlots(length: nat, ghost place: nat) returns (a: array?<array?<byte>>)
      modifies this
      ensures calls == old(calls) + 1 && (a != null <==> grant(old(calls)))
      ensures a == null ==> ledger == old(ledger)
      ensures a != null ==> fresh(a) && a.Length == length && forall j :: 0 <= j < length ==> a[j] == null
      ensures a != null ==> ledger == old(ledger).(arrays := old(ledger).arrays[a := place])
    {
      a := null;
      if grant(calls) {
        a := new array?<byte>[length](_ => null);
        ledger := ledger.(arrays := ledger.arrays[a := place]);
      }
      calls := calls + 1;
    }

    /** A quantum whose bytes are whatever they were, or null. */
    method NewQuantum(length: nat, ghost place: Slot) returns (q: array?<byte>)
      modifies this
      ensures calls == old(calls) + 1 && (q != null <==> grant(old(calls)))
      ensures q == null ==> ledger == old(ledger)
      ensures q != null ==> fresh(q) && q.Length == length
      ensures q != null ==> ledger == old(ledger).(quanta := old(ledger).quanta[q := place])
    {
      q := null;
      if grant(calls) {
        q := new byte[length];
        ledger := ledger.(quanta := ledger.quanta[q := place]);
      }
      calls := calls + 1;
    }

    method FreeNode(n: Qset)
      requires n in ledger.nodes
      modifies this`ledger
      ensures ledger == old(ledger).(nodes := old(ledger).nodes - {n})
    {
      ledger := ledger.(nodes := ledger.nodes - {n});
    }

    method FreeSlots(a: SlotArray)
      requires a in ledger.arrays
      modifies this`ledger
      ensures ledger == old(ledger).(arrays := old(ledger).arrays - {a})
    {
      ledger := ledger.(arrays := ledger.arrays - {a});
    }

    /** kfree(NULL) does nothing. */
    method FreeQuantum(q: array?<byte>)
      requires q == null || q in ledger.quanta
      modifies this`ledger
      ensures ledger == if q == null then old(ledger) else old(ledger).(quanta := old(ledger).quanta - {q})
    {
      if q != null {
        ledger := ledger.(quanta := ledger.quanta - {q});
      }
    }
  }

  /** scull_quantum and scull_qset. */
  class Tunables {
    var quantum: nat
    var qset: nat

    constructor (quantum: nat, qset: nat)
      ensures this.quantum == quantum && this.qset == qset
    {
      this.quantum, this.qset := quantum, qset;
    }
  }

  /** struct scull_dev. */
  class ScullDev {
    const mem: Kernel
    var data: Qset?
    var quantum: nat
    var qset: nat
    var size: nat
    ghost var lay: Layout
    ghost var blocks: map<Slot, seq<byte>>  // the bytes of each quantum

    /** The list and the slot array pointers are as the layout says. */
    ghost predicate Linked()
      reads this`data, this`lay, lay.nodes
    {
      && |lay.arrays| == |lay.nodes|
      && data == lay.NodeAt(0)
      && (forall i {:trigger lay.nodes[i].next} :: 0 <= i < |lay.nodes| ==> lay.nodes[i].next == lay.NodeAt(i + 1))
      && (forall i {:trigger lay.nodes[i].data} :: 0 <= i < |lay.nodes| ==> lay.nodes[i].data == lay.arrays[i])
    }

    /** The slots point to the quanta. */
    ghost predicate Slotted()
      reads this`lay, lay.arrays
    {
      forall i, j :: 0 <= i < |lay.arrays| && lay.arrays[i] != null && 0 <= j < lay.arrays[i].Length ==>
        lay.arrays[i][j] == lay.QuantumAt(Slot(i, j))
    }

    /** The quanta hold `blocks`. */
    ghost predicate Held()
      reads this`lay, this`blocks, lay.quanta.Values
    {
      blocks.Keys == lay.quanta.Keys && forall k :: k in lay.quanta ==> lay.quanta[k][..] == blocks[k]
    }

    ghost predicate OwnedHere()
      reads this`lay, this`quantum, this`qset, mem`ledger
    {
      Owned(lay, mem.ledger, quantum, qset)
    }

    ghost predicate Valid()
      reads this, mem, lay.nodes, lay.arrays, lay.quanta.Values
    {
      && quantum > 0 && qset > 0 && size <= |lay.nodes| * ItemSize(quantum, qset)
      && OwnedHere() && Linked() && Slotted() && Held()
    }

    /** What the device holds. */
    ghost function View(): Store
      reads this
    {
      Store(quantum, qset, size, |lay.nodes|, blocks)
    }

    constructor (mem: Kernel, tunables: Tunables)
      requires tunables.quantum > 0 && tunables.qset > 0 && mem.ledger == Ledger(map[], map[], map[])
      ensures this.mem == mem && Valid() && View() == Trimmed(tunables.quantum, tunables.qset)
    {
      this.mem := mem;
      data, quantum, qset, size := null, tunables.quantum, tunables.qset, 0;
      lay, blocks := Layout([], [], map[]), map[];
    }

    /** Some kmalloc call since then has been refused. */
    twostate predicate Denied()
      reads mem`calls
    {
      exists c :: old(mem.calls) <= c < mem.calls && !mem.grant(c)
    }

    // ---------- following the list ----------

    /** Allocates a list item and hangs it after `last`, the end of the list. */
    method Append(last: Qset?) returns (item: Qset?)
      requires OwnedHere() && Linked() && last == lay.NodeAt(|lay.nodes| - 1)
      modifies this`data, this`lay, mem, lay.nodes`next
      ensures OwnedHere() && Linked() && mem.calls == old(mem.calls) + 1
      ensures item != null <==> mem.grant(old(mem.calls))
      ensures item == null ==> lay == old(lay) && mem.ledger == old(mem.ledger)
      ensures item != null ==> fresh(item) && lay == WithNode(old(lay), item)
    {
      hide Owned;
      item := mem.NewNode(|lay.nodes|);
      if item != null {
        OwnedFacts(lay, old(mem.ledger), quantum, qset);
        WithNodeOwned(lay, old(mem.ledger), quantum, qset, item);
        if last == null {
          data := item;
        } else {
          last.next := item;
        }
        lay := WithNode(lay, item);
      }
    }

    /** The list has grown by empty items. */
    twostate predicate Grown()
      reads this`lay
    {
      && old(lay).nodes <= lay.nodes && |lay.arrays| == |lay.nodes|
      && |old(lay).arrays| == |old(lay).nodes| && old(lay).arrays <= lay.arrays
      && (forall i :: |old(lay).nodes| <= i < |lay.nodes| ==> fresh(lay.nodes[i]) && lay.arrays[i] == null)
      && lay.quanta == old(lay).quanta
    }

    /** The body of the loop in scull_follow, at item `i`. */
    method NextItem(qs: Qset, ghost i: nat) returns (next: Qset?)
      requires OwnedHere() && Linked() && i < |lay.nodes| && qs == lay.nodes[i]
      modifies this`data, this`lay, mem, lay.nodes`next
      ensures OwnedHere() && Linked() && Grown()
      ensures i < |lay.nodes| <= (if |old(lay).nodes| <= i + 1 then i + 2 else |old(lay).nodes|)
      ensures if next == null then |lay.nodes| == i + 1 else i + 1 < |lay.nodes| && next == lay.nodes[i + 1]
      ensures i + 1 < |old(lay).nodes| ==> next != null && lay == old(lay) && mem.calls == old(mem.calls)
      ensures old(mem.calls) <= mem.calls && (next == null <==> Denied())
    {
      assert qs.next == lay.NodeAt(i + 1);
      next := qs.next;
      if next == null {
        next := Append(qs);
        assert next == null <==> !mem.grant(old(mem.calls));
      }
    }

    /** scull_follow: walks to item `n`, extending the list as it goes; null when memory runs out. */
    method Follow(n: nat) returns (qs: Qset?)
      requires OwnedHere() && Linked()
      modifies this`data, this`lay, mem, lay.nodes`next
      ensures OwnedHere() && Linked() && Grown()
      ensures |lay.nodes| <= (if |old(lay).nodes| <= n then n + 1 else |old(lay).nodes|)
      ensures if qs == null then |lay.nodes| <= n else n < |lay.nodes| && qs == lay.nodes[n]
      ensures n < |old(lay).nodes| ==> qs != null && lay == old(lay) && mem.calls == old(mem.calls)
      ensures old(mem.calls) <= mem.calls && (qs == null <==> Denied())
    {
      hide Owned;
      qs := data;
      if qs == null {
        qs := Append(null);
        if qs == null {
          assert !mem.grant(old(mem.calls));
          return;
        }
      }
      var i := 0;
      while i < n
        invariant 0 <= i <= n && i < |lay.nodes| && qs == lay.nodes[i]
        invariant OwnedHere() && Linked() && Grown()
        invariant |lay.nodes| <= (if |old(lay).nodes| <= i then i + 1 else |old(lay).nodes|)
        invariant i < |old(lay).nodes| ==> lay == old(lay) && mem.calls == old(mem.calls)
        invariant old(mem.calls) <= mem.calls && !Denied()
      {
        qs := NextItem(qs, i);
        if qs == null {
          return;
        }
        i := i + 1;
      }
    }

    /** scull_follow on a whole device: the contents stay as they are. */
    method FollowIn(n: nat) returns (qs: Qset?)
      requires Valid()
      modifies this`data, this`lay, mem, lay.nodes`next
      ensures Valid() && Grown()
      ensures |lay.nodes| <= (if |old(lay).nodes| <= n then n + 1 else |old(lay).nodes|)
      ensures if qs == null then |lay.nodes| <= n else n < |lay.nodes| && qs == lay.nodes[n]
      ensures n < |old(lay).nodes| ==> qs != null && lay == old(lay) && mem.calls == old(mem.calls)
      ensures old(mem.calls) <= mem.calls && (qs == null <==> Denied())
    {
      hide Owned;
      qs := Follow(n);
      MulLe(|old(lay).nodes|, |lay.nodes|, ItemSize(quantum, qset));
    }

    // ---------- filling slots ----------

    /** The slot array of list item `qs`, allocated if need be. */
    method EnsureSlots(qs: Qset, ghost i: nat) returns (ok: bool)
      requires Valid() && i < |lay.nodes| && qs == lay.nodes[i]
      modifies this`lay, qs`data, mem
      ensures Valid() && lay.nodes == old(lay).nodes && lay.quanta == old(lay).quanta
      ensures |lay.arrays| == |old(lay).arrays|
      ensures forall k :: 0 <= k < |lay.arrays| && k != i ==> lay.arrays[k] == old(lay).arrays[k]
      ensures i < |lay.arrays| && (lay.arrays[i] == old(lay).arrays[i] || fresh(lay.arrays[i]))
      ensures old(mem.calls) <= mem.calls && if ok then qs.data != null && qs.data == lay.arrays[i] else Denied()
      ensures !ok ==> lay == old(lay) && mem.ledger == old(mem.ledger)
    {
      hide Owned;
      if qs.data == null {
        var a := mem.NewSlots(qset, i);
        if a == null {
          assert !mem.grant(old(mem.calls));
          return false;
        }
        ItemApart(lay, old(mem.ledger), quantum, qset, i);
        WithArrayOwned(lay, old(mem.ledger), quantum, qset, i, a);
        AttachSlots(qs, i, a);
      }
      ok := true;
    }

    /** Stores the pointer to the new, empty slot array `a` in its list item. */
    method AttachSlots(qs: Qset, ghost i: nat, a: SlotArray)
      requires Linked() && Slotted() && i < |lay.nodes| && qs == lay.nodes[i] && lay.arrays[i] == null
      requires forall k :: 0 <= k < |lay.nodes| && k != i ==> lay.nodes[k] != lay.nodes[i]
      requires forall k :: k in lay.quanta ==> k.item != i
      requires forall j :: 0 <= j < a.Length ==> a[j] == null
      modifies this`lay, qs`data
      ensures Linked() && Slotted() && lay == WithArray(old(lay), i, a)
    {
      qs.data := a;
      lay := WithArray(lay, i, a);
    }

    /** The quantum of slot `pos` of slot array `a`, allocated if need be; its bytes are then whatever they were. */
    method EnsureQuantum(a: SlotArray, ghost item: nat, pos: nat) returns (q: array?<byte>)
      requires Valid() && item < |lay.arrays| && a == lay.arrays[item] && pos < qset && a.Length == qset
      modifies this`lay, this`blocks, a, mem
      ensures Valid() && lay.nodes == old(lay).nodes && lay.arrays == old(lay).arrays && old(mem.calls) <= mem.calls
      ensures q == null ==> lay == old(lay) && blocks == old(blocks) && Denied()
      ensures q != null ==> Slot(item, pos) in lay.quanta && q == lay.quanta[Slot(item, pos)]
      ensures q != null && Slot(item, pos) in old(lay).quanta ==> lay == old(lay) && blocks == old(blocks)
      ensures q != null && Slot(item, pos) !in old(lay).quanta ==> lay == WithQuantum(old(lay), Slot(item, pos), q)
      ensures q != null && Slot(item, pos) !in old(lay).quanta ==>
              fresh(q) && blocks == old(blocks)[Slot(item, pos) := q[..]]
    {
      hide Owned;
      ghost var k := Slot(item, pos);
      assert a[pos] == lay.QuantumAt(k);
      q := a[pos];
      if q == null {
        q := mem.NewQuantum(quantum, k);
        if q == null {
          assert !mem.grant(old(mem.calls));
          return;
        }
        OwnedFacts(lay, old(mem.ledger), quantum, qset);
        WithQuantumOwned(lay, old(mem.ledger), quantum, qset, k, q);
        AttachQuantum(a, k, pos, q);
      }
    }

    /** Stores the pointer to the new quantum `q` in its slot. */
    method AttachQuantum(a: SlotArray, ghost k: Slot, pos: nat, q: Quantum)
      requires Linked() && Slotted() && Held() && ArraysDistinct()
      requires k.item < |lay.arrays| && a == lay.arrays[k.item] && k.pos == pos < a.Length
      requires k !in lay.quanta
      modifies this`lay, this`blocks, a
      ensures Linked() && Slotted() && Held()
      ensures lay == WithQuantum(old(lay), k, q) && blocks == old(blocks)[k := q[..]]
    {
      a[pos] := q;
      lay := WithQuantum(lay, k, q);
      blocks := blocks[k := q[..]];
    }

    ghost predicate ArraysDistinct()
      reads this`lay
    {
      forall i, j :: 0 <= i < |lay.arrays| && 0 <= j < |lay.arrays| && i != j && lay.arrays[i] != null ==>
        lay.arrays[i] != lay.arrays[j]
    }

    /** The slot array of list item `item`, with item and array allocated on the way; null when memory runs out. */
    method SlotsAt(item: nat) returns (a: array?<array?<byte>>)
      requires Valid()
      modifies this`data, this`lay, mem, lay.nodes
      ensures Valid() && lay.quanta == old(lay).quanta && old(mem.calls) <= mem.calls
      ensures |old(lay).nodes| <= |lay.nodes| <= (if |old(lay).nodes| <= item then item + 1 else |old(lay).nodes|)
      ensures a == null ==> Denied()
      ensures a != null ==> item < |lay.arrays| && a == lay.arrays[item] && a.Length == qset
      ensures a != null ==> fresh(a) || a in old(lay).arrays
    {
      hide Owned;
      a := null;
      var dptr := FollowIn(item);
      if dptr == null {
        return;
      }
      var ok := EnsureSlots(dptr, item);
      if ok {
        AllocatedItems(lay, mem.ledger, quantum, qset);
        a := dptr.data;
      }
    }

    /** The first half of scull_write: find the quantum of a slot, allocating item, slot array and quantum on
        the way.  A quantum that was there keeps its bytes. */
    method Prepare(item: nat, pos: nat) returns (q: array?<byte>)
      requires Valid() && pos < qset
      modifies this`data, this`lay, this`blocks, mem, lay.nodes, lay.arrays
      ensures Valid() && old(mem.calls) <= mem.calls
      ensures |old(lay).nodes| <= |lay.nodes| <= (if |old(lay).nodes| <= item then item + 1 else |old(lay).nodes|)
      ensures q == null ==> blocks == old(blocks) && Denied()
      ensures q != null ==> item < |lay.nodes| && Slot(item, pos) in lay.quanta && q == lay.quanta[Slot(item, pos)]
      ensures q != null && Slot(item, pos) in old(blocks) ==> blocks == old(blocks)
      ensures q != null && Slot(item, pos) !in old(blocks) ==> blocks == old(blocks)[Slot(item, pos) := q[..]]
      ensures q != null ==> fresh(q) || q in old(lay).quanta.Values
    {
      hide Owned;
      q := null;
      var a := SlotsAt(item);
      if a != null {
        AllocatedItems(lay, mem.ledger, quantum, qset);
        q := EnsureQuantum(a, item, pos);
      }
    }

    /** copy_from_user. */
    method CopyIn(q: Quantum, at: nat, data: seq<byte>)
      requires at + |data| <= q.Length
      modifies q
      ensures q[..] == Patched(old(q[..]), at, data)
    {
      var i := 0;
      while i < |data|
        invariant 0 <= i <= |data|
        invariant forall k :: 0 <= k < q.Length ==> q[k] == if at <= k < at + i then data[k - at] else old(q[k])
      {
        q[at + i] := data[i];
        i := i + 1;
      }
    }

    /** Copies `data` into the quantum of slot `k`; no other quantum changes. */
    method Overwrite(q: Quantum, ghost k: Slot, at: nat, data: seq<byte>)
      requires Held() && k in lay.quanta && q == lay.quanta[k] && at + |data| <= q.Length
      requires forall x :: x in lay.quanta && x != k ==> lay.quanta[x] != q
      modifies q, this`blocks
      ensures Held() && |old(blocks)[k]| == q.Length && blocks == old(blocks)[k := Patched(old(blocks)[k], at, data)]
    {
      hide Patched;
      CopyIn(q, at, data);
      blocks := blocks[k := Patched(blocks[k], at, data)];
    }

    method CopyTo(q: Quantum, ghost k: Slot, at: nat, data: seq<byte>)
      requires Valid() && k in lay.quanta && q == lay.quanta[k] && at + |data| <= quantum
      modifies q, this`blocks
      ensures Valid() && |old(blocks)[k]| == quantum && blocks == old(blocks)[k := Patched(old(blocks)[k], at, data)]
    {
      hide Owned, Patched, Linked, Slotted;
      QuantumApart(lay, mem.ledger, quantum, qset, k);
      Overwrite(q, k, at, data);
    }

    // ---------- the calls ----------

    lemma ViewIsValid()
      requires Valid()
      ensures View().Valid()
    {
      OwnedFacts(lay, mem.ledger, quantum, qset);
    }

    /** List item, slot and offset of a position, as scull_read and scull_write compute them. */
    method Split(pos: nat) returns (item: nat, sPos: nat, qPos: nat)
      requires quantum > 0 && qset > 0
      ensures Locate(quantum, qset, pos) == Place(Slot(item, sPos), qPos) && sPos < qset && qPos < quantum
    {
      var itemsize := ItemSize(quantum, qset);
      item := pos / itemsize;
      var rest := pos % itemsize;
      sPos, qPos := rest / quantum, rest % quantum;
      LocateRebuilds(quantum, qset, pos);
    }

    /** Raises the size to `end` after a write that ends there. */
    method RaiseSize(end: nat, ghost item: nat)
      requires Valid() && item < |lay.nodes| && end <= (item + 1) * ItemSize(quantum, qset)
      modifies this`size
      ensures Valid() && size == if old(size) < end then end else old(size)
    {
      hide Owned;
      MulLe(item + 1, |lay.nodes|, ItemSize(quantum, qset));
      if size < end {
        size := end;
      }
    }

    lemma FillTwice(m: map<Slot, seq<byte>>, k: Slot, a: seq<byte>, b: seq<byte>)
      ensures m[k := a][k := b] == m[k := b]
    {
    }

    /** The second half of scull_write: with the slot's quantum at hand, copy the data in.  `junk` is what the
        quantum held before. */
    method FillSlot(item: nat, pos: nat, at: nat, data: seq<byte>) returns (ok: bool, ghost junk: seq<byte>)
      requires Valid() && pos < qset && at + |data| <= quantum
      modifies this`data, this`lay, this`blocks, mem, lay.nodes, lay.arrays, lay.quanta.Values
      ensures Valid() && |junk| == quantum
      ensures |old(lay).nodes| <= |lay.nodes| <= (if |old(lay).nodes| <= item then item + 1 else |old(lay).nodes|)
      ensures !ok ==> blocks == old(blocks) && Denied()
      ensures ok ==> item < |lay.nodes| && blocks == old(blocks)[Slot(item, pos) := Patched(junk, at, data)]
      ensures ok && Slot(item, pos) in old(blocks) ==> junk == old(blocks)[Slot(item, pos)]
    {
      hide Owned, Patched, Linked, Slotted;
      ok, junk := false, seq(quantum, _ => 0);
      var q := Prepare(item, pos);
      if q != null {
        ghost var k := Slot(item, pos);
        OwnedFacts(lay, mem.ledger, quantum, qset);
        ok, junk := true, blocks[k];
        CopyTo(q, k, at, data);
        FillTwice(old(blocks), k, junk, Patched(junk, at, data));
      }
    }

    /** scull_write: the number of bytes accepted, or None for -ENOMEM.  `junk` is what the quantum held before,
        if it had to be allocated. */
    method Write(pos: nat, data: seq<byte>) returns (result: Option<nat>, ghost junk: seq<byte>)
      requires Valid()
      modifies this`data, this`lay, this`blocks, this`size, mem, lay.nodes, lay.arrays, lay.quanta.Values
      ensures Valid() && old(View()).Valid() && |junk| == old(quantum)
      ensures result.None? ==> Refused(old(View()), pos, View()) && Denied()
      ensures result.Some? ==> result.value == Accepted(old(View()), pos, |data|)
      ensures result.Some? ==> View() == ScullSpec.Write(old(View()), pos, data, junk)
    {
      hide Owned, Patched, Linked, Slotted, Held;
      ViewIsValid();
      var item, sPos, qPos := Split(pos);
      QuantumInItem(quantum, qset, pos);
      var count := Min(|data|, quantum - qPos);
      var ok;
      ok, junk := FillSlot(item, sPos, qPos, data[..count]);
      if ok {
        RaiseSize(pos + count, item);
        result := Some(count);
      } else {
        result := None;
      }
    }

    /** The quantum of a slot in the list, if it has one; nothing is allocated. */
    method Find(item: nat, pos: nat) returns (q: array?<byte>)
      requires Valid() && item < |lay.nodes| && pos < qset
      modifies this`data, this`lay, mem, lay.nodes`next
      ensures Valid() && lay == old(lay) && mem.calls == old(mem.calls)
      ensures q == lay.QuantumAt(Slot(item, pos))
    {
      hide Owned;
      var dptr := FollowIn(item);
      q := null;
      AllocatedItems(lay, mem.ledger, quantum, qset);
      assert dptr.data == lay.arrays[item];
      if dptr != null && dptr.data != null {
        q := dptr.data[pos];
      }
    }

    /** scull_read: the bytes returned.  Nothing is allocated and nothing changes. */
    method Read(pos: nat, count: nat) returns (got: seq<byte>)
      requires Valid()
      modifies this`data, this`lay, mem, lay.nodes`next
      ensures Valid() && View() == old(View()) && View().Valid() && lay == old(lay) && mem.calls == old(mem.calls)
      ensures got == ScullSpec.Read(View(), pos, count)
    {
      hide Owned, Linked, Slotted;
      ViewIsValid();
      if pos >= size {
        return [];
      }
      var want := if pos + count > size then size - pos else count;
      var item, sPos, qPos := Split(pos);
      ItemInRange(quantum, qset, pos, |lay.nodes|);
      var q := Find(item, sPos);
      if q == null {
        return [];
      }
      AllocatedItems(lay, mem.ledger, quantum, qset);
      var n := if want > quantum - qPos then quantum - qPos else want;
      got := q[qPos..qPos + n];
      assert got == q[..][qPos..qPos + n];
    }

    /** The inner loop of scull_trim: frees the quanta of one slot array. */
    method FreeQuanta(slots: SlotArray, ghost i: nat, ghost g: Ledger)
      requires Slotted() && QuantaOk(lay, g, quantum, qset) && i < |lay.arrays|
      requires slots == lay.arrays[i] && slots.Length == qset && BlocksLeft(g, mem.ledger, i, Slot(i, 0))
      modifies mem`ledger
      ensures BlocksLeft(g, mem.ledger, i, Slot(i, qset)) && mem.ledger.nodes == old(mem.ledger).nodes
    {
      hide QuantaOk, BlocksLeft;
      var j := 0;
      while j < qset
        invariant 0 <= j <= qset
        invariant BlocksLeft(g, mem.ledger, i, Slot(i, j)) && mem.ledger.nodes == old(mem.ledger).nodes
      {
        assert slots[j] == lay.QuantumAt(Slot(i, j));
        QuantumFreed(lay, g, quantum, qset, mem.ledger, i, j);
        mem.FreeQuantum(slots[j]);
        j := j + 1;
      }
    }

    /** Frees the quanta and the slot array of one list item. */
    method FreeItem(dptr: Qset, ghost i: nat, ghost g: Ledger)
      requires Slotted() && Owned(lay, g, quantum, qset) && i < |lay.nodes| && |lay.arrays| == |lay.nodes|
      requires dptr.data == lay.arrays[i] && BlocksLeft(g, mem.ledger, i, Slot(i, 0))
      modifies mem`ledger, dptr`data
      ensures BlocksLeft(g, mem.ledger, i + 1, Slot(i + 1, 0)) && mem.ledger.nodes == old(mem.ledger).nodes
      ensures dptr.data == null
    {
      AllocatedItems(lay, g, quantum, qset);
      assert QuantaOk(lay, g, quantum, qset) && ArraysOk(lay, g, qset);
      hide Owned, QuantaOk, NodesOk, ArraysOk, BlocksLeft, Slotted;
      if dptr.data != null {
        FreeQuanta(dptr.data, i, g);
        ItemDone(lay, g, quantum, qset, mem.ledger, i, qset);
        ArrayFreed(lay, g, qset, mem.ledger, i);
        mem.FreeSlots(dptr.data);
        dptr.data := null;
      } else {
        ItemDone(lay, g, quantum, qset, mem.ledger, i, 0);
        ArrayFreed(lay, g, qset, mem.ledger, i);
        assert mem.ledger.(arrays := mem.ledger.arrays) == mem.ledger;
      }
    }

    /** kfree(dptr). */
    method FreeOne(dptr: Qset, ghost i: nat, ghost g: Ledger)
      requires Owned(lay, g, quantum, qset) && i < |lay.nodes| && dptr == lay.nodes[i]
      requires NodesLeft(g, mem.ledger, i)
      modifies mem`ledger
      ensures NodesLeft(g, mem.ledger, i + 1)
      ensures mem.ledger.arrays == old(mem.ledger.arrays) && mem.ledger.quanta == old(mem.ledger.quanta)
    {
      NodeFreed(lay, g, mem.ledger, i);
      mem.FreeNode(dptr);
    }

    /** The loop of scull_trim: every block is freed, each once. */
    method FreeAll(ghost g: Ledger)
      requires Linked() && Slotted() && Owned(lay, g, quantum, qset) && g == mem.ledger
      modifies mem`ledger, lay.nodes`data
      ensures NodesLeft(g, mem.ledger, |lay.nodes|) && BlocksLeft(g, mem.ledger, |lay.nodes|, Slot(|lay.nodes|, 0))
    {
      hide Owned;
      OwnedFacts(lay, g, quantum, qset);
      AllLeft(g);
      var dptr := data;
      ghost var i := 0;
      while dptr != null
        invariant 0 <= i <= |lay.nodes| && dptr == lay.NodeAt(i) && Slotted()
        invariant forall k {:trigger lay.nodes[k].next} :: 0 <= k < |lay.nodes| ==>
                  lay.nodes[k].next == lay.NodeAt(k + 1)
        invariant forall k {:trigger lay.nodes[k].data} :: i <= k < |lay.nodes| ==> lay.nodes[k].data == lay.arrays[k]
        invariant NodesLeft(g, mem.ledger, i) && BlocksLeft(g, mem.ledger, i, Slot(i, 0))
        decreases |lay.nodes| - i
      {
        FreeItem(dptr, i, g);
        var next := dptr.next;
        assert lay.nodes[i].next == lay.NodeAt(i + 1);
        FreeOne(dptr, i, g);
        dptr := next;
        i := i + 1;
      }
    }

    /** scull_trim: the device ends up empty, with no block allocated, and takes up the current tunables. */
    method Trim(tunables: Tunables)
      requires Valid() && tunables.quantum > 0 && tunables.qset > 0
      modifies this, mem`ledger, lay.nodes`data
      ensures Valid() && View() == Trimmed(tunables.quantum, tunables.qset)
      ensures quantum == tunables.quantum && qset == tunables.qset && size == 0 && data == null && blocks == map[]
      ensures mem.ledger == Ledger(map[], map[], map[])
    {
      hide Owned, NodesLeft, BlocksLeft;
      ghost var g := mem.ledger;
      FreeAll(g);
      EmptyOwned(tunables.quantum, tunables.qset);
      NothingLeft(lay, g, quantum, qset, mem.ledger);
      size, quantum, qset, data := 0, tunables.quantum, tunables.qset, null;
      lay, blocks := Layout([], [], map[]), map[];
    }
  }
}
