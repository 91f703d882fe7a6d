/** When exactly a writer asleep on a scull pipe can be lost: an open empties the ring and wakes nobody. */
module PipeSleepers {
  import opened Basics
  import opened Runs
  import opened PipeRing
  import opened Pipe

  // ---------- the step that loses a writer ----------

  /** Every writer on outq that sleeps, or is about to, has a full ring to wait for or a reader about to wake it. */
  predicate Covered(s: State)
    requires s.ring.Valid()
  {
    ReaderOwes(s.procs) || forall p :: p in s.q.outq ==> p in s.procs && WriterKnows(s.procs[p].pc, s.ring)
  }

  /** A writer whose way to sleep, or whose sleep, rests on the ring as it was before it is emptied. */
  predicate Trusting(pc: Pc, n: nat) {
    pc.WSleep? || (pc.WLook4? && Wrap(n, pc.r2) != 0)
  }

  /** An open while such a writer is on outq and no reader is about to wake it. */
  predicate Careless(s: State, a: Action) {
    && a.Open? && !ReaderOwes(s.procs)
    && exists p :: p in s.q.outq && p in s.procs && Trusting(s.procs[p].pc, |s.ring.buf|)
  }

  /** The state as if no open had ever passed over a writer. */
  function Plain(s: State): State {
    s.(q := s.q.(overrun := {}))
  }

  lemma CoveredIsPlain(s: State)
    requires OutqOk(s.procs, s.q, s.ring)
    ensures Covered(s) <==> OutqOk(s.procs, Plain(s).q, s.ring)
  {
  }

  lemma GoIgnoresOverrun(s: State, p: Pid)
    requires p in s.procs && s.ring.Valid() && GoStep(s, p).Some?
    ensures GoStep(Plain(s), p) == Some(Plain(GoStep(s, p).value))
  {
    assert Plain(s).q.overrun - {p} == {};
  }

  lemma StepIgnoresOverrun(s: State, a: Action)
    requires Step(s, a).Some? && !a.Open?
    ensures Step(Plain(s), a) == Some(Plain(Step(s, a).value))
  {
    hide GoStep;
    if a.Go? {
      GoIgnoresOverrun(s, a.p);
    } else {
      assert Plain(s).q.overrun - {a.p} == {};
    }
  }

  lemma OtherStepKeepsCovered(s: State, a: Action)
    requires Inv(s) && Covered(s) && Step(s, a).Some? && !a.Open?
    ensures Step(s, a).value.ring.Valid() && Covered(Step(s, a).value)
  {
    var t := Step(s, a).value;
    CoveredIsPlain(s);
    StepIgnoresOverrun(s, a);
    StepKeepsOutq(s, a);
    hide Step, SemOk, InqOk, CountsOk, Covered;
    StepKeepsOutq(Plain(s), a);
    CoveredIsPlain(t);
  }

  lemma OpenKeepsCoveredIff(s: State, a: Action)
    requires OutqOk(s.procs, s.q, s.ring) && a.Open? && OpenStep(s, a).Some?
    ensures OpenStep(s, a).value.ring.Valid()
    ensures Covered(OpenStep(s, a).value) <==> !Careless(s, a)
  {
    var t := OpenStep(s, a).value;
    assert ReaderOwes(t.procs) <==> ReaderOwes(s.procs) by { OpenOwes(s, a); }
    assert !Full(t.ring);
    assert forall p :: p in s.q.outq ==> t.procs[p] == s.procs[p];
    assert forall p :: p in s.q.outq ==>
        (WriterKnows(t.procs[p].pc, t.ring) <==> !Trusting(s.procs[p].pc, |s.ring.buf|));
  }

  lemma OpenOwes(s: State, a: Action)
    requires a.Open? && OpenStep(s, a).Some?
    ensures ReaderOwes(OpenStep(s, a).value.procs) <==> ReaderOwes(s.procs)
  {
    var t := OpenStep(s, a).value;
    if ReaderOwes(s.procs) {
      var w :| w in s.procs && (s.procs[w].pc.RMoved? || s.procs[w].pc.ROwe?);
      assert w in t.procs && t.procs[w] == s.procs[w];
    }
  }

  /** Every step keeps the writers covered, if and only if it is not a careless open. */
  lemma StepKeepsCoveredIff(s: State, a: Action)
    requires Inv(s) && Covered(s) && Step(s, a).Some?
    ensures Inv(Step(s, a).value)
    ensures Covered(Step(s, a).value) <==> !Careless(s, a)
  {
    StepKeepsInv(s, a);
    if a.Open? {
      OpenKeepsCoveredIff(s, a);
    } else {
      OtherStepKeepsCovered(s, a);
    }
  }

  // ---------- runs without careless opens ----------

  function CarefulStep(s: State, a: Action): Option<State> {
    if Careless(s, a) then None else Step(s, a)
  }

  /** Asleep in schedule(), and still on the queue. */
  predicate Asleep(s: State, p: Pid) {
    p in s.procs && s.procs[p].pc.WSleep? && p in s.q.outq
  }

  /** Asleep with room in the ring, and nobody is about to wake it. */
  predicate Lost(s: State, p: Pid) {
    Asleep(s, p) && s.ring.Valid() && !Full(s.ring) && !ReaderOwes(s.procs)
  }

  predicate InvCovered(s: State) {
    Inv(s) && Covered(s)
  }

  /** With no careless open in the run, no sleeping writer is ever lost: if there is room, a wake-up is on its way. */
  lemma CarefulOpensLoseNobody(buf: seq<byte>, run: seq<Action>, s: State, p: Pid)
    requires 2 <= |buf| && Exec(CarefulStep, Init(buf), run) == Some(s)
    ensures !Lost(s, p)
  {
    InitInv(buf);
    forall x, a | InvCovered(x) && CarefulStep(x, a).Some? ensures InvCovered(CarefulStep(x, a).value) {
      StepKeepsCoveredIff(x, a);
    }
    assert InvCovered(Init(buf));
    hide CarefulStep, InvCovered;
    InvariantOverRun(CarefulStep, InvCovered, Init(buf), run);
    CoveredIsNotLost(s, p);
  }

  lemma CoveredIsNotLost(s: State, p: Pid)
    requires InvCovered(s)
    ensures !Lost(s, p)
  {
  }

  // ---------- what a careless open leads to ----------

  lemma {:induction false} Above(s: set<Pid>) returns (m: Pid)
    ensures forall x :: x in s ==> x < m
    decreases |s|
  {
    m := 0;
    if x :| x in s {
      var rest := Above(s - {x});
      m := if rest <= x then x + 1 else rest;
      assert forall y :: y in s ==> y == x || y in s - {x};
    }
  }

  /** Every careless open loses a writer: at once, or in a run that another writer brings about. */
  lemma CarelessOpenLoses(s: State, a: Action) returns (u: State, p: Pid)
    requires Inv(s) && Step(s, a).Some? && Careless(s, a)
    ensures Leads(Step, Step(s, a).value, u) && Lost(u, p)
  {
    var t := Step(s, a).value;
    p :| p in s.q.outq && p in s.procs && Trusting(s.procs[p].pc, |s.ring.buf|);
    LeadsToItself(Step, t);
    OpenOwes(s, a);
    if s.procs[p].pc.WSleep? {
      u := t;
    } else {
      u := FillAhead(t, p);
    }
  }

  /** Another process opens the pipe and writes just so much that the rest of the writer's look tells it the pipe is
      full. */
  lemma FillAhead(s: State, p: Pid) returns (u: State)
    requires s.ring.Valid() && s.ring.rp == 0 == s.ring.wp && s.sem.None? && !ReaderOwes(s.procs)
    requires p in s.procs && p in s.q.outq && s.procs[p].pc.WLook4? && 0 < s.procs[p].pc.r2 < |s.ring.buf|
    ensures Leads(Step, s, u) && Lost(u, p)
  {
    var r2 := s.procs[p].pc.r2;
    var q := Above(s.procs.Keys);
    var more := seq(r2 - 1, _ => 0 as byte);
    LeadsToItself(Step, s);
    LeadsOn(Step, s, s, Open(q, false, true, false));
    u := Step(s, Open(q, false, true, false)).value;
    OpenOwes(s, Open(q, false, true, false));
    LeadsOn(Step, s, u, Write(q, more));
    var t := Step(u, Write(q, more)).value;
    SameOwes(u.procs, q, t.procs[q].pc);
    u := WriteSome(s, t, p, q, more);
    u := FallAsleep(s, u, p);
  }

  lemma SameOwes(procs: map<Pid, Proc>, p: Pid, pc: Pc)
    requires p in procs && !ReaderOwes(procs) && !pc.RMoved? && !pc.ROwe?
    ensures !ReaderOwes(At(procs, p, pc))
  {
  }

  lemma WriteSome(init: State, s: State, p: Pid, q: Pid, data: seq<byte>) returns (u: State)
    requires Leads(Step, init, s) && s.ring.Valid() && s.ring.rp == 0 == s.ring.wp && s.sem.None?
    requires !ReaderOwes(s.procs) && p in s.procs && q in s.procs && p != q
    requires s.procs[q].pc == WWant(data) && |data| < |s.ring.buf|
    ensures Leads(Step, init, u) && u.ring.Valid() && u.ring.rp == 0 && u.ring.wp == |data|
    ensures |u.ring.buf| == |s.ring.buf|
    ensures p in u.procs && u.procs[p] == s.procs[p] && u.q == s.q && !ReaderOwes(u.procs)
  {
    LeadsOn(Step, init, s, Go(q));
    var t := Step(s, Go(q)).value;
    SameOwes(s.procs, q, t.procs[q].pc);
    assert data[..|data|] == data;
    assert WriteCount(|t.ring.buf|, 0, 0, |data|) == |data|;
    LeadsOn(Step, init, t, Go(q));
    u := Step(t, Go(q)).value;
    SameOwes(t.procs, q, u.procs[q].pc);
  }

  lemma FallAsleep(init: State, s: State, p: Pid) returns (u: State)
    requires Leads(Step, init, s) && s.ring.Valid() && s.ring.rp == 0 && !ReaderOwes(s.procs)
    requires p in s.procs && p in s.q.outq && s.procs[p].pc.WLook4?
    requires s.procs[p].pc.r2 == s.ring.wp + 1 < |s.ring.buf|
    ensures Leads(Step, init, u) && Lost(u, p)
  {
    ModOnce(|s.ring.buf|, |s.ring.buf| + 1);
    LeadsOn(Step, init, s, Go(p));
    u := Step(s, Go(p)).value;
    SameOwes(s.procs, p, u.procs[p].pc);
  }

  // ---------- how long a lost writer sleeps ----------

  /** A sleeping writer is woken by a reader that has moved bytes, or by a signal, and by nothing else. */
  lemma StaysAsleepIff(s: State, a: Action, p: Pid)
    requires Asleep(s, p) && Step(s, a).Some?
    ensures Asleep(Step(s, a).value, p) <==> !(a == Signal(p) || (a.Go? && s.procs[a.p].pc.ROwe?))
  {
  }

  /** The run holds no signal to `p` and no state in which a reader has moved bytes. */
  predicate Unhelped(s: State, run: seq<Action>, p: Pid)
    decreases |run|
  {
    && !ReaderOwes(s.procs)
    && (run != [] ==> run[0] != Signal(p) && (Step(s, run[0]).Some? ==> Unhelped(Step(s, run[0]).value, run[1..], p)))
  }

  /** So a lost writer sleeps on until a reader moves bytes or it gets a signal, whatever else happens. */
  lemma {:induction false} LostWriterSleepsOn(s: State, run: seq<Action>, p: Pid)
    requires Asleep(s, p) && Exec(Step, s, run).Some? && Unhelped(s, run, p)
    ensures Asleep(Exec(Step, s, run).value, p)
    decreases |run|
  {
    if run != [] {
      assert run[0].Go? ==> !s.procs[run[0].p].pc.ROwe?;
      StaysAsleepIff(s, run[0], p);
      LostWriterSleepsOn(Step(s, run[0]).value, run[1..], p);
    }
  }

  // ---------- a run that gets there, for every buffer size ----------

  /** A lone writer fills the ring and falls asleep. */
  lemma FillAndSleep(buf: seq<byte>) returns (u: State)
    requires 2 <= |buf|
    ensures Leads(Step, Init(buf), u)
    ensures u.ring.rp == 0 && u.ring.wp == |buf| - 1 && |u.ring.buf| == |buf|
    ensures u.procs.Keys == {1} && u.procs[1].pc.WSleep? && u.sem.None? && u.q.outq == {1}
  {
    var init := Init(buf);
    var all := seq(|buf| - 1, _ => 0 as byte);
    LeadsToItself(Step, init);
    LeadsOn(Step, init, init, Open(1, false, true, false));
    u := Step(init, Open(1, false, true, false)).value;
    LeadsOn(Step, init, u, Write(1, all));
    u := Step(u, Write(1, all)).value;
    u := FullWrite(init, u, all);
    LeadsOn(Step, init, u, Write(1, [0]));
    u := Step(u, Write(1, [0])).value;
    u := SleepyWrite(init, u);
  }

  /** One more step of process 1, to the state it is known to reach. */
  lemma GoTo(init: State, s: State, t: State)
    requires Leads(Step, init, s) && Step(s, Go(1)) == Some(t)
    ensures Leads(Step, init, t)
  {
    LeadsOn(Step, init, s, Go(1));
  }

  lemma FullWrite(init: State, s: State, all: seq<byte>) returns (u: State)
    requires Leads(Step, init, s) && s.ring.Valid() && s.ring.rp == 0 == s.ring.wp && |all| == |s.ring.buf| - 1
    requires s.procs == map[1 := Proc(false, true, false, WWant(all))] && s.sem.None?
    ensures Leads(Step, init, u) && u.ring.rp == 0 && u.ring.wp == |all| && |u.ring.buf| == |s.ring.buf|
    ensures u.procs == map[1 := Proc(false, true, false, Idle)] && u.sem.None? && u.q.outq == s.q.outq
  {
    var s1 := s.(sem := Some(1), procs := At(s.procs, 1, WTest(all)));
    GoTo(init, s, s1);
    MoveAll(s1, all);
    var s2 := s1.(ring := Ring(Patched(s.ring.buf, 0, all), 0, |all|), procs := At(s1.procs, 1, WMoved(all)));
    GoTo(init, s1, s2);
    u := FinishWrite(init, s2);
  }

  lemma FinishWrite(init: State, s: State) returns (u: State)
    requires Leads(Step, init, s) && s.ring.AtRest() && s.procs.Keys == {1} && s.procs[1].pc.WMoved?
    ensures Leads(Step, init, u) && u.ring == s.ring && u.sem.None? && u.q.outq == s.q.outq
    ensures u.procs == map[1 := s.procs[1].(pc := Idle)]
  {
    hide ReadStep, ReadWaitStep, WriteWaitStep;
    var t := s.(sem := None, procs := At(s.procs, 1, WOwe(s.procs[1].pc.sent)));
    GoTo(init, s, t);
    u := t.(q := t.q.(inq := {}), procs := At(t.procs, 1, Idle));
    GoTo(init, t, u);
  }

  lemma MoveAll(s: State, all: seq<byte>)
    requires s.ring.Valid() && s.ring.rp == 0 == s.ring.wp && |all| == |s.ring.buf| - 1
    requires 1 in s.procs && s.procs[1].pc == WTest(all)
    ensures var ring := Ring(Patched(s.ring.buf, 0, all), 0, |all|);
            Step(s, Go(1)) == Some(s.(ring := ring, procs := At(s.procs, 1, WMoved(all))))
  {
    assert all[..|all|] == all;
    assert WriteCount(|s.ring.buf|, 0, 0, |all|) == |all|;
  }

  lemma SleepyWrite(init: State, s: State) returns (u: State)
    requires Leads(Step, init, s) && s.ring.Valid() && s.ring.rp == 0 && s.ring.wp == |s.ring.buf| - 1
    requires s.procs == map[1 := Proc(false, true, false, WWant([0]))] && s.sem.None? && s.q.outq == {}
    ensures Leads(Step, init, u) && u.ring == s.ring
    ensures u.procs.Keys == {1} && u.procs[1].pc.WSleep? && u.sem.None? && u.q.outq == {1}
  {
    var s1 := s.(sem := Some(1), procs := At(s.procs, 1, WTest([0])));
    GoTo(init, s, s1);
    SpaceFreeIsRoom(s.ring.buf, 0, s.ring.wp);
    u := s1.(sem := None, procs := At(s1.procs, 1, WJoin([0])));
    GoTo(init, s1, u);
    u := JoinAndSleep(init, u);
  }

  lemma JoinAndSleep(init: State, s: State) returns (u: State)
    requires Leads(Step, init, s) && s.ring.Valid() && s.ring.rp == 0 && s.ring.wp == |s.ring.buf| - 1
    requires s.procs == map[1 := Proc(false, true, false, WJoin([0]))] && s.sem.None? && s.q.outq == {}
    ensures Leads(Step, init, u) && u.ring == s.ring
    ensures u.procs.Keys == {1} && u.procs[1].pc.WSleep? && u.sem.None? && u.q.outq == {1}
  {
    var t := s.(procs := At(s.procs, 1, WLook1([0])), q := s.q.(outq := s.q.outq + {1}, overrun := s.q.overrun - {1}));
    GoTo(init, s, t);
    u := LookAndSleep(init, t);
  }

  lemma LookAndSleep(init: State, s: State) returns (u: State)
    requires Leads(Step, init, s) && s.ring.Valid() && s.ring.rp == 0 && s.ring.wp == |s.ring.buf| - 1
    requires s.procs == map[1 := Proc(false, true, false, WLook1([0]))]
    ensures Leads(Step, init, u) && u.ring == s.ring && u.sem == s.sem && u.q == s.q
    ensures u.procs == map[1 := Proc(false, true, false, WSleep([0]))]
  {
    hide ReadStep, ReadWaitStep, WriteStep;
    var t := s.(procs := At(s.procs, 1, WLook2([0], 0)));
    GoTo(init, s, t);
    u := t.(procs := At(t.procs, 1, WLook3([0])));
    GoTo(init, t, u);
    u := LookAgainAndSleep(init, u);
  }

  lemma LookAgainAndSleep(init: State, s: State) returns (u: State)
    requires Leads(Step, init, s) && s.ring.Valid() && s.ring.rp == 0 && s.ring.wp == |s.ring.buf| - 1
    requires s.procs == map[1 := Proc(false, true, false, WLook3([0]))]
    ensures Leads(Step, init, u) && u.ring == s.ring && u.sem == s.sem && u.q == s.q
    ensures u.procs == map[1 := Proc(false, true, false, WSleep([0]))]
  {
    hide ReadStep, ReadWaitStep, WriteStep;
    var t := s.(procs := At(s.procs, 1, WLook4([0], 0)));
    GoTo(init, s, t);
    u := t.(procs := At(t.procs, 1, WSleep([0])));
    ModOnce(|s.ring.buf|, 1);
    GoTo(init, t, u);
  }

  /** For every buffer size a second open loses a writer, on an empty ring. */
  lemma OpenForgetsWriter(buf: seq<byte>)
    requires 2 <= |buf|
    ensures exists s :: Leads(Step, Init(buf), s) && Lost(s, 1) && Empty(s.ring)
  {
    var s := FillAndSleep(buf);
    var a := Open(2, true, false, false);
    LeadsOn(Step, Init(buf), s, a);
    assert Lost(Step(s, a).value, 1);
  }
}
