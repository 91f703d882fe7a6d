/** The single-open device of scull: an atomic counter that starts at 1.

    The decrement and the increment of a failing open are separate atomic operations, so a failing opener is
    in transit between them. */
module SingleOpen {
  import opened Basics
  import opened Runs

  datatype Status = InTransit | Holder

  /** scull_s_available, and the processes between a decrement and the increment that undoes it. */
  datatype State = State(available: int, procs: map<Pid, Status>)

  datatype Action =
    | Open(p: Pid)     // atomic_dec_and_test
    | GiveUp(p: Pid)   // atomic_inc on the way to -EBUSY
    | Release(p: Pid)

  const Init: State := State(1, map[])

  function Step(s: State, a: Action): Option<State> {
    match a
    case Open(p) =>
      if p in s.procs then None
      else Some(State(s.available - 1, s.procs[p := if s.available - 1 == 0 then Holder else InTransit]))
    case GiveUp(p) =>
      if p in s.procs && s.procs[p].InTransit? then Some(State(s.available + 1, s.procs - {p})) else None
    case Release(p) =>
      if p in s.procs && s.procs[p].Holder? then Some(State(s.available + 1, s.procs - {p})) else None
  }

  function With(s: State, status: Status): set<Pid> {
    set p | p in s.procs && s.procs[p] == status
  }

  predicate Inv(s: State) {
    && s.available + |s.procs| == 1
    && (forall p, q :: p in s.procs && q in s.procs && s.procs[p].Holder? && s.procs[q].Holder? ==> p == q)
  }

  lemma StepKeepsInv(s: State, a: Action)
    requires Inv(s) && Step(s, a).Some?
    ensures Inv(Step(s, a).value)
  {
    var t := Step(s, a).value;
    if a.Open? {
      assert t.procs.Keys == s.procs.Keys + {a.p};
    } else {
      assert t.procs.Keys == s.procs.Keys - {a.p};
    }
    assert |t.procs| == |t.procs.Keys| && |s.procs| == |s.procs.Keys|;
  }

  lemma RunKeepsInv(run: seq<Action>)
    requires Exec(Step, Init, run).Some?
    ensures Inv(Exec(Step, Init, run).value)
  {
    forall x, a | Inv(x) && Step(x, a).Some? ensures Inv(Step(x, a).value) {
      StepKeepsInv(x, a);
    }
    InvariantOverRun(Step, Inv, Init, run);
  }

  lemma {:induction false} AtMostOne<T>(s: set<T>)
    requires forall x, y :: x in s && y in s ==> x == y
    ensures |s| <= 1
  {
    if x :| x in s {
      assert s == {x};
    }
  }

  /** The counter, the holders and the openers in transit always add up to one, and there is never a second holder. */
  lemma NeverTwoHolders(run: seq<Action>, s: State)
    requires Exec(Step, Init, run) == Some(s)
    ensures s.available + |With(s, Holder)| + |With(s, InTransit)| == 1
    ensures |With(s, Holder)| <= 1
  {
    RunKeepsInv(run);
    AtMostOne(With(s, Holder));
    assert s.procs.Keys == With(s, Holder) + With(s, InTransit);
    assert |s.procs| == |s.procs.Keys|;
  }

  /** An open succeeds exactly when nobody holds the device and nobody is in transit: a failing opener can make
      another one fail although the device is free. */
  lemma OpenSucceedsIff(run: seq<Action>, s: State, p: Pid, t: State)
    requires Exec(Step, Init, run) == Some(s) && Step(s, Open(p)) == Some(t)
    ensures t.procs[p].Holder? <==> With(s, Holder) == {} && With(s, InTransit) == {}
  {
    NeverTwoHolders(run, s);
  }
}
