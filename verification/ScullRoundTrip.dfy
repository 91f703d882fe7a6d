/** Callers that repeat scull_write, or scull_read, until everything has been moved. */
module ScullRoundTrip {
  import opened Basics
  import opened Addressing
  import opened ScullSpec

  datatype Written = Written(st: Store, calls: nat)
  datatype Got = Got(bytes: seq<byte>, calls: nat)

  /** Write `data` at `p`, each call going on where the last one stopped; memory is always granted, and call
      number k finds junk(k) in a new quantum. */
  function WriteAll(st: Store, p: nat, data: seq<byte>, junk: nat -> seq<byte>, k: nat): Written
    requires st.Valid() && forall i :: |junk(i)| == st.quantum
    decreases |data|
  {
    if data == [] then Written(st, 0)
    else
      LocateRebuilds(st.quantum, st.qset, p);
      WriteKeepsValid(st, p, data, junk(k));
      var n := Accepted(st, p, |data|);
      var rest := WriteAll(Write(st, p, data, junk(k)), p + n, data[n..], junk, k + 1);
      rest.(calls := rest.calls + 1)
  }

  /** Read `count` bytes from `p` the same way, giving up at the first call that returns nothing. */
  function ReadAll(st: Store, p: nat, count: nat): Got
    requires st.Valid()
    decreases count
  {
    if count == 0 then Got([], 0)
    else
      ReadIsFlat(st, p, count);
      var got := Read(st, p, count);
      if got == [] then Got([], 1)
      else
        var rest := ReadAll(st, p + |got|, count - |got|);
        Got(got + rest.bytes, rest.calls + 1)
  }

  /** The number of quanta that `n` bytes from `p` touch. */
  function Touched(quantum: nat, p: nat, n: nat): int
    requires quantum > 0 && n > 0
  {
    (p + n - 1) / quantum - p / quantum + 1
  }

  lemma OneQuantum(quantum: nat, p: nat, n: nat)
    requires quantum > 0 && 0 < n <= quantum - p % quantum
    ensures Touched(quantum, p, n) == 1
  {
    assert p == (p / quantum) * quantum + p % quantum;
    DivModUnique(p + n - 1, quantum, p / quantum, p % quantum + n - 1);
  }

  lemma NextQuantum(quantum: nat, p: nat, n: nat)
    requires quantum > 0 && n > quantum - p % quantum
    ensures var a := quantum - p % quantum;
            a > 0 && Touched(quantum, p, n) == Touched(quantum, p + a, n - a) + 1
  {
    var a := quantum - p % quantum;
    assert p + a == (p / quantum + 1) * quantum;
    DivModUnique(p + a, quantum, p / quantum + 1, 0);
  }

  /** How many calls a transfer takes when each call stops at the end of a quantum. */
  lemma CallsAddUp(quantum: nat, p: nat, n: nat, a: nat)
    requires quantum > 0 && n > 0 && a == Min(n, quantum - p % quantum)
    ensures 0 < a <= n
    ensures Touched(quantum, p, n) == if a == n then 1 else Touched(quantum, p + a, n - a) + 1
  {
    if a == n {
      OneQuantum(quantum, p, n);
    } else {
      NextQuantum(quantum, p, n);
    }
  }

  lemma AcceptedToQuantumEnd(st: Store, p: nat, count: nat)
    requires st.Valid()
    ensures Accepted(st, p, count) == Min(count, st.quantum - p % st.quantum)
  {
    LocateIsLinear(st.quantum, st.qset, p);
  }

  /** What repeated writes leave behind, and in how many calls. */
  ghost predicate HoldsData(st: Store, p: nat, data: seq<byte>)
    requires st.Valid()
  {
    p + |data| <= st.size && forall i :: 0 <= i < |data| ==> st.ByteAt(p + i) == Some(data[i])
  }

  lemma {:induction false} WriteAllKeeps(st: Store, p: nat, data: seq<byte>, junk: nat -> seq<byte>, k: nat, x: nat)
    requires st.Valid() && (forall i :: |junk(i)| == st.quantum)
    ensures var w := WriteAll(st, p, data, junk, k).st;
            && w.Valid() && w.quantum == st.quantum && st.size <= w.size
            && (!(p <= x < p + |data|) && st.ByteAt(x).Some? ==> w.ByteAt(x) == st.ByteAt(x))
    decreases |data|
  {
    hide Write, Accepted, Store.ByteAt;
    if data != [] {
      AcceptedToQuantumEnd(st, p, |data|);
      CallsAddUp(st.quantum, p, |data|, Accepted(st, p, |data|));
      var n := Accepted(st, p, |data|);
      WriteKeepsValid(st, p, data, junk(k));
      WriteIsFlat(st, p, data, junk(k), x);
      WriteAllKeeps(Write(st, p, data, junk(k)), p + n, data[n..], junk, k + 1, x);
    }
  }

  lemma {:induction false} WriteAllHolds(st: Store, p: nat, data: seq<byte>, junk: nat -> seq<byte>, k: nat)
    requires st.Valid() && (forall i :: |junk(i)| == st.quantum) && data != []
    ensures var w := WriteAll(st, p, data, junk, k);
            w.st.Valid() && HoldsData(w.st, p, data) && w.calls == Touched(st.quantum, p, |data|)
    decreases |data|
  {
    hide Write, Accepted, Store.ByteAt, Touched;
    AcceptedToQuantumEnd(st, p, |data|);
    var n := Accepted(st, p, |data|);
    CallsAddUp(st.quantum, p, |data|, n);
    var t := Write(st, p, data, junk(k));
    WriteKeepsValid(st, p, data, junk(k));
    if n < |data| {
      WriteAllHolds(t, p + n, data[n..], junk, k + 1);
    }
    var w := WriteAll(st, p, data, junk, k).st;
    WriteAllKeeps(t, p + n, data[n..], junk, k + 1, p);
    forall i | 0 <= i < |data| ensures w.ByteAt(p + i) == Some(data[i]) {
      if i < n {
        WriteIsFlat(st, p, data, junk(k), p + i);
        WriteAllKeeps(t, p + n, data[n..], junk, k + 1, p + i);
      } else {
        assert w.ByteAt((p + n) + (i - n)) == Some(data[n..][i - n]);
      }
    }
  }

  lemma {:induction false} ReadAllReturns(st: Store, p: nat, data: seq<byte>)
    requires st.Valid() && HoldsData(st, p, data) && data != []
    ensures ReadAll(st, p, |data|).bytes == data
    ensures ReadAll(st, p, |data|).calls == Touched(st.quantum, p, |data|)
    decreases |data|
  {
    hide Read, Store.ByteAt, Touched;
    var got := Read(st, p, |data|);
    var n := |got|;
    ReadIsFlat(st, p, |data|);
    assert st.ByteAt(p + 0) == Some(data[0]);
    CallsAddUp(st.quantum, p, |data|, n);
    assert got == data[..n] by {
      assert forall i :: 0 <= i < n ==> st.ByteAt(p + i) == Some(got[i]) && st.ByteAt(p + i) == Some(data[i]);
    }
    if n < |data| {
      forall i | 0 <= i < |data[n..]| ensures st.ByteAt((p + n) + i) == Some(data[n..][i]) {
        assert st.ByteAt(p + (n + i)) == Some(data[n + i]);
      }
      ReadAllReturns(st, p + n, data[n..]);
    }
    assert data == data[..n] + data[n..];
  }

  /** Writing `data` at `p` call by call and reading it back call by call returns it, and each side takes exactly
      as many calls as quanta are touched. */
  lemma RoundTrip(st: Store, p: nat, data: seq<byte>, junk: nat -> seq<byte>)
    requires st.Valid() && (forall i :: |junk(i)| == st.quantum) && data != []
    ensures var w := WriteAll(st, p, data, junk, 0);
            && w.st.Valid()
            && w.calls == (p + |data| - 1) / st.quantum - p / st.quantum + 1
            && ReadAll(w.st, p, |data|) == Got(data, w.calls)
  {
    WriteAllHolds(st, p, data, junk, 0);
    WriteAllKeeps(st, p, data, junk, 0, p);
    ReadAllReturns(WriteAll(st, p, data, junk, 0).st, p, data);
  }
}
