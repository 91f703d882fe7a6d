/** Which block of memory a scull device uses for what, apart from what the blocks contain. */
module ScullLayout {
  import opened Basics
  import opened Addressing

  type Quantum = array<byte>
  type SlotArray = array<array?<byte>>

  /** struct scull_qset. */
  class Qset {
    var data: array?<array?<byte>>
    var next: Qset?

    constructor ()
      ensures data == null && next == null
    {
      data, next := null, null;
    }
  }

  /** The list items in order, the slot array of each, and the quantum of each slot that has one. */
  datatype Layout = Layout(nodes: seq<Qset>, arrays: seq<array?<array?<byte>>>, quanta: map<Slot, Quantum>) {
    ghost function NodeAt(i: int): Qset? {
      if 0 <= i < |nodes| then nodes[i] else null
    }

    ghost function QuantumAt(k: Slot): array?<byte> {
      if k in quanta then quanta[k] else null
    }
  }

  /** What kmalloc has handed out and kfree not taken back, each block with the place it was allocated for. */
  datatype Ledger = Ledger(nodes: map<Qset, nat>, arrays: map<SlotArray, nat>, quanta: map<Quantum, Slot>)

  ghost predicate NodesOk(l: Layout, g: Ledger) {
    && (forall i :: 0 <= i < |l.nodes| ==> l.nodes[i] in g.nodes && g.nodes[l.nodes[i]] == i)
    && (forall n :: n in g.nodes ==> g.nodes[n] < |l.nodes| && l.nodes[g.nodes[n]] == n)
  }

  ghost predicate ArraysOk(l: Layout, g: Ledger, qset: nat) {
    && |l.arrays| == |l.nodes|
    && (forall i :: 0 <= i < |l.arrays| && l.arrays[i] != null ==>
          l.arrays[i] in g.arrays && g.arrays[l.arrays[i]] == i && l.arrays[i].Length == qset)
    && (forall a :: a in g.arrays ==> g.arrays[a] < |l.arrays| && l.arrays[g.arrays[a]] == a)
  }

  ghost predicate QuantaOk(l: Layout, g: Ledger, quantum: nat, qset: nat) {
    && (forall k :: k in l.quanta ==> l.quanta[k] in g.quanta && g.quanta[l.quanta[k]] == k)
    && (forall q :: q in g.quanta ==> g.quanta[q] in l.quanta && l.quanta[g.quanta[q]] == q)
    && (forall k :: k in l.quanta ==> k.item < |l.arrays| && l.arrays[k.item] != null)
    && (forall k :: k in l.quanta ==> k.pos < qset && l.quanta[k].Length == quantum)
  }

  /** The blocks in use are exactly the blocks in the ledger, and each is in use at one place only: nothing
      leaks, nothing dangles, nothing is shared. */
  ghost predicate Owned(l: Layout, g: Ledger, quantum: nat, qset: nat) {
    NodesOk(l, g) && ArraysOk(l, g, qset) && QuantaOk(l, g, quantum, qset)
  }

  ghost function WithNode(l: Layout, n: Qset): Layout {
    l.(nodes := l.nodes + [n], arrays := l.arrays + [null])
  }

  ghost function WithArray(l: Layout, i: nat, a: SlotArray): Layout
    requires i < |l.arrays|
  {
    l.(arrays := l.arrays[i := a])
  }

  ghost function WithQuantum(l: Layout, k: Slot, q: Quantum): Layout {
    l.(quanta := l.quanta[k := q])
  }

  lemma WithNodeOwned(l: Layout, g: Ledger, quantum: nat, qset: nat, n: Qset)
    requires Owned(l, g, quantum, qset) && n !in g.nodes
    ensures Owned(WithNode(l, n), g.(nodes := g.nodes[n := |l.nodes|]), quantum, qset)
  {
  }

  lemma WithArrayOwned(l: Layout, g: Ledger, quantum: nat, qset: nat, i: nat, a: SlotArray)
    requires Owned(l, g, quantum, qset) && a !in g.arrays && a.Length == qset
    requires i < |l.arrays| && l.arrays[i] == null
    ensures Owned(WithArray(l, i, a), g.(arrays := g.arrays[a := i]), quantum, qset)
  {
  }

  lemma WithQuantumOwned(l: Layout, g: Ledger, quantum: nat, qset: nat, k: Slot, q: Quantum)
    requires Owned(l, g, quantum, qset) && q !in g.quanta && q.Length == quantum && k !in l.quanta
    requires k.item < |l.arrays| && l.arrays[k.item] != null && k.pos < qset
    ensures Owned(WithQuantum(l, k, q), g.(quanta := g.quanta[q := k]), quantum, qset)
  {
  }

  lemma OwnedFacts(l: Layout, g: Ledger, quantum: nat, qset: nat)
    requires Owned(l, g, quantum, qset)
    ensures |l.arrays| == |l.nodes|
    ensures forall i, j :: 0 <= i < |l.nodes| && 0 <= j < |l.nodes| && i != j ==> l.nodes[i] != l.nodes[j]
    ensures forall i, j :: 0 <= i < |l.arrays| && 0 <= j < |l.arrays| && i != j && l.arrays[i] != null ==>
              l.arrays[i] != l.arrays[j]
    ensures forall i :: 0 <= i < |l.arrays| && l.arrays[i] != null ==> l.arrays[i].Length == qset
    ensures forall k, k' :: k in l.quanta && k' in l.quanta && k != k' ==> l.quanta[k] != l.quanta[k']
    ensures forall k :: k in l.quanta ==> l.quanta[k].Length == quantum && k.pos < qset
    ensures forall k :: k in l.quanta ==> k.item < |l.arrays| && l.arrays[k.item] != null
  {
  }

  lemma AllocatedItems(l: Layout, g: Ledger, quantum: nat, qset: nat)
    requires Owned(l, g, quantum, qset)
    ensures |l.arrays| == |l.nodes|
    ensures forall i :: 0 <= i < |l.arrays| && l.arrays[i] != null ==> l.arrays[i].Length == qset
    ensures forall k :: k in l.quanta ==>
            l.quanta[k].Length == quantum && k.item < |l.arrays| && l.arrays[k.item] != null
  {
  }

  lemma ItemApart(l: Layout, g: Ledger, quantum: nat, qset: nat, i: nat)
    requires Owned(l, g, quantum, qset) && i < |l.nodes|
    ensures |l.arrays| == |l.nodes|
    ensures forall k :: 0 <= k < |l.nodes| && k != i ==> l.nodes[k] != l.nodes[i]
    ensures l.arrays[i] == null ==> forall k :: k in l.quanta ==> k.item != i
  {
  }

  lemma QuantumApart(l: Layout, g: Ledger, quantum: nat, qset: nat, k: Slot)
    requires Owned(l, g, quantum, qset) && k in l.quanta
    ensures l.quanta[k].Length == quantum
    ensures forall x :: x in l.quanta && x != k ==> l.quanta[x] != l.quanta[k]
  {
  }

  lemma EmptyOwned(quantum: nat, qset: nat)
    ensures Owned(Layout([], [], map[]), Ledger(map[], map[], map[]), quantum, qset)
  {
  }

  // ---------- freeing it all ----------

  ghost predicate Precedes(s: Slot, k: Slot) {
    s.item < k.item || (s.item == k.item && s.pos < k.pos)
  }

  /** Of the blocks in `g`, `h` still has the slot arrays from place `arraysFrom` on and the quanta from slot `k` on. */
  ghost predicate BlocksLeft(g: Ledger, h: Ledger, arraysFrom: nat, k: Slot) {
    && h.arrays.Keys == (set a | a in g.arrays && g.arrays[a] >= arraysFrom)
    && h.quanta.Keys == (set q | q in g.quanta && !Precedes(g.quanta[q], k))
  }

  /** Of the list items in `g`, `h` still has those from place `from` on. */
  ghost predicate NodesLeft(g: Ledger, h: Ledger, from: nat) {
    h.nodes.Keys == (set n | n in g.nodes && g.nodes[n] >= from)
  }

  ghost function WithoutQuantum(h: Ledger, q: array?<byte>): Ledger {
    if q == null then h else h.(quanta := h.quanta - {q})
  }

  lemma QuantumFreed(l: Layout, g: Ledger, quantum: nat, qset: nat, h: Ledger, i: nat, j: nat)
    requires QuantaOk(l, g, quantum, qset) && BlocksLeft(g, h, i, Slot(i, j))
    ensures l.QuantumAt(Slot(i, j)) == null || l.QuantumAt(Slot(i, j)) in h.quanta
    ensures BlocksLeft(g, WithoutQuantum(h, l.QuantumAt(Slot(i, j))), i, Slot(i, j + 1))
  {
    var q, k := l.QuantumAt(Slot(i, j)), Slot(i, j + 1);
    assert forall x :: x in g.quanta && x != q ==> g.quanta[x] != Slot(i, j);
    assert forall x :: x in g.quanta ==> (!Precedes(g.quanta[x], k) <==> !Precedes(g.quanta[x], Slot(i, j)) && x != q);
  }

  /** Past the last slot of an item is before the first slot of the next. */
  lemma ItemDone(l: Layout, g: Ledger, quantum: nat, qset: nat, h: Ledger, i: nat, j: nat)
    requires QuantaOk(l, g, quantum, qset) && BlocksLeft(g, h, i, Slot(i, j))
    requires j == qset || (i < |l.arrays| && l.arrays[i] == null)
    ensures BlocksLeft(g, h, i, Slot(i + 1, 0))
  {
    assert forall x :: x in g.quanta ==> g.quanta[x] in l.quanta && l.quanta[g.quanta[x]] == x;
    assert forall x :: x in g.quanta ==>
        (!Precedes(g.quanta[x], Slot(i + 1, 0)) <==> !Precedes(g.quanta[x], Slot(i, j)));
  }

  lemma ArrayFreed(l: Layout, g: Ledger, qset: nat, h: Ledger, i: nat)
    requires ArraysOk(l, g, qset) && BlocksLeft(g, h, i, Slot(i + 1, 0)) && i < |l.arrays|
    ensures l.arrays[i] != null ==> l.arrays[i] in h.arrays
    ensures BlocksLeft(g, h.(arrays := if l.arrays[i] == null then h.arrays else h.arrays - {l.arrays[i]}), i + 1,
            Slot(i + 1, 0))
  {
    var a := l.arrays[i];
    assert forall x :: x in g.arrays ==> (g.arrays[x] >= i + 1 <==> g.arrays[x] >= i && x != a);
  }

  lemma NodeFreed(l: Layout, g: Ledger, h: Ledger, i: nat)
    requires NodesOk(l, g) && NodesLeft(g, h, i) && i < |l.nodes|
    ensures l.nodes[i] in h.nodes
    ensures NodesLeft(g, h.(nodes := h.nodes - {l.nodes[i]}), i + 1)
  {
    var n := l.nodes[i];
    assert forall x :: x in g.nodes ==> (g.nodes[x] >= i + 1 <==> g.nodes[x] >= i && x != n);
  }

  lemma AllLeft(g: Ledger)
    ensures NodesLeft(g, g, 0) && BlocksLeft(g, g, 0, Slot(0, 0))
  {
  }

  lemma NoBlocksLeft(l: Layout, g: Ledger, quantum: nat, qset: nat, h: Ledger)
    requires Owned(l, g, quantum, qset) && BlocksLeft(g, h, |l.nodes|, Slot(|l.nodes|, 0))
    ensures h.arrays == map[] && h.quanta == map[]
  {
    assert h.arrays.Keys == {} && h.quanta.Keys == {};
  }

  lemma NothingLeft(l: Layout, g: Ledger, quantum: nat, qset: nat, h: Ledger)
    requires Owned(l, g, quantum, qset) && NodesLeft(g, h, |l.nodes|) && BlocksLeft(g, h, |l.nodes|, Slot(|l.nodes|, 0))
    ensures h == Ledger(map[], map[], map[])
  {
    NoBlocksLeft(l, g, quantum, qset, h);
    assert h.nodes.Keys == {};
    assert h.nodes == map[];
  }
}
