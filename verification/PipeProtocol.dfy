/** The scullpipe device as a step machine over any number of processes.

    A critical section is cut where `rp` or `wp` changes, because sleepers look at these without the
    semaphore; between an advance and the "wrapped" store a pointer stands on the end of the buffer.
    Wait queues hold the processes that have been put on them and not yet been woken or taken off.
  */
module Pipe {
  import opened Basics
  import opened PipeRing
  import opened Runs

  datatype Pc =
    | Idle
    // scull_p_read
    | RWant(count: nat)                          // at down_interruptible
    | RTest(count: nat)                          // semaphore held, at the loop test
    | RLook(count: nat, joined: bool)            // lock-free condition: about to read rp
    | RLook2(count: nat, joined: bool, r0: nat)  // about to read wp
    | RJoin(count: nat)                          // about to join inq
    | RSleep(count: nat)                         // in schedule()
    | RMoved(got: seq<byte>)                     // semaphore held, rp advanced but not wrapped
    | ROwe(got: seq<byte>)                       // semaphore released, about to wake outq
    // scull_p_write and scull_getwritespace
    | WWant(data: seq<byte>)
    | WTest(data: seq<byte>)                     // semaphore held, at the loop test
    | WJoin(data: seq<byte>)                     // about to join outq
    | WLook1(data: seq<byte>)                    // lock-free spacefree: reads rp, wp, and again rp, wp
    | WLook2(data: seq<byte>, r1: nat)
    | WLook3(data: seq<byte>)
    | WLook4(data: seq<byte>, r2: nat)
    | WSleep(data: seq<byte>)                    // in schedule()
    | WFinish(data: seq<byte>)                   // at finish_wait
    | WMoved(sent: seq<byte>)                    // semaphore held, wp advanced but not wrapped
    | WOwe(sent: seq<byte>)                      // semaphore released, about to wake inq

  /** A process with the device open. */
  datatype Proc = Proc(forRead: bool, forWrite: bool, nonblock: bool, pc: Pc)

  datatype Ring = Ring(buf: seq<byte>, rp: nat, wp: nat) {
    predicate Valid() { 2 <= |buf| && rp <= |buf| && wp <= |buf| }
    predicate AtRest() { Valid() && rp < |buf| && wp < |buf| }
    function Bytes(): seq<byte>
      requires Valid()
    {
      Contents(buf, rp, wp)
    }
  }

  /** nreaders, nwriters, and whether `dev->buffer` is allocated. */
  datatype Counts = Counts(nreaders: int, nwriters: int, hasBuffer: bool)

  datatype Queues = Queues(
    inq: set<Pid>, outq: set<Pid>,
    overrun: set<Pid>  // those on outq that a later open has passed over without waking
  )

  datatype State = State(ring: Ring, procs: map<Pid, Proc>, sem: Option<Pid>, q: Queues, counts: Counts)

  datatype Action =
    | Open(p: Pid, forRead: bool, forWrite: bool, nonblock: bool) | Close(p: Pid)
    | Read(p: Pid, count: nat) | Write(p: Pid, data: seq<byte>)
    | Go(p: Pid) | Signal(p: Pid)

  function Init(buf: seq<byte>): State {
    State(Ring(buf, 0, 0), map[], None, Queues({}, {}, {}), Counts(0, 0, false))
  }

  function At(procs: map<Pid, Proc>, p: Pid, pc: Pc): map<Pid, Proc>
    requires p in procs
  {
    procs[p := procs[p].(pc := pc)]
  }

  function OpenStep(s: State, a: Action): Option<State>
    requires a.Open?
  {
    if a.p in s.procs || s.sem.Some? || !(a.forRead || a.forWrite) then None
    else
      var c := s.counts;
      Some(State(Ring(s.ring.buf, 0, 0), s.procs[a.p := Proc(a.forRead, a.forWrite, a.nonblock, Idle)], None,
                 s.q.(overrun := s.q.outq),
                 Counts(if a.forRead then c.nreaders + 1 else c.nreaders,
                        if a.forWrite then c.nwriters + 1 else c.nwriters, true)))
  }

  function CloseStep(s: State, p: Pid): Option<State> {
    if p !in s.procs || s.sem.Some? || !s.procs[p].pc.Idle? then None
    else
      var r := if s.procs[p].forRead then s.counts.nreaders - 1 else s.counts.nreaders;
      var w := if s.procs[p].forWrite then s.counts.nwriters - 1 else s.counts.nwriters;
      Some(s.(procs := s.procs - {p}, counts := Counts(r, w, s.counts.hasBuffer && r + w != 0)))
  }

  function ReadStep(s: State, p: Pid): Option<State>
    requires p in s.procs && s.ring.Valid()
  {
    var Ring(buf, rp, wp) := s.ring;
    match s.procs[p].pc
    case RWant(count) =>
      if s.sem.Some? then None else Some(s.(sem := Some(p), procs := At(s.procs, p, RTest(count))))
    case RTest(count) =>
      if rp == wp then
        Some(s.(sem := None, procs := At(s.procs, p, if s.procs[p].nonblock then Idle else RLook(count, false))))
      else if !s.ring.AtRest() then None
      else
        var c := ReadCount(|buf|, rp, wp, count);
        Some(s.(procs := At(s.procs, p, RMoved(buf[rp..rp + c])), ring := s.ring.(rp := rp + c)))
    case RMoved(got) =>
      Some(s.(ring := s.ring.(rp := Wrap(|buf|, rp)), sem := None, procs := At(s.procs, p, ROwe(got))))
    case ROwe(_) =>
      Some(s.(q := s.q.(outq := {}, overrun := {}), procs := At(s.procs, p, Idle)))
    case _ => None
  }

  /** wait_event_interruptible(dev->inq, dev->rp != dev->wp). */
  function ReadWaitStep(s: State, p: Pid): Option<State>
    requires p in s.procs && s.ring.Valid()
  {
    match s.procs[p].pc
    case RLook(count, joined) =>
      Some(s.(procs := At(s.procs, p, RLook2(count, joined, s.ring.rp))))
    case RLook2(count, joined, r0) =>
      if r0 != s.ring.wp then
        Some(s.(procs := At(s.procs, p, RWant(count)), q := s.q.(inq := s.q.inq - {p})))
      else
        Some(s.(procs := At(s.procs, p, if joined then RSleep(count) else RJoin(count))))
    case RJoin(count) =>
      Some(s.(procs := At(s.procs, p, RLook(count, true)), q := s.q.(inq := s.q.inq + {p})))
    case RSleep(count) =>
      if p in s.q.inq then None else Some(s.(procs := At(s.procs, p, RJoin(count))))
    case _ => None
  }

  function WriteStep(s: State, p: Pid): Option<State>
    requires p in s.procs && s.ring.Valid()
  {
    var Ring(buf, rp, wp) := s.ring;
    match s.procs[p].pc
    case WWant(data) =>
      if s.sem.Some? then None else Some(s.(sem := Some(p), procs := At(s.procs, p, WTest(data))))
    case WTest(data) =>
      if !s.ring.AtRest() then None
      else if SpaceFree(|buf|, rp, wp) == 0 then
        Some(s.(sem := None, procs := At(s.procs, p, if s.procs[p].nonblock then Idle else WJoin(data))))
      else if SpaceFree(|buf|, rp, wp) < 0 then None
      else
        var sent := data[..WriteCount(|buf|, rp, wp, |data|)];
        Some(s.(procs := At(s.procs, p, WMoved(sent)), ring := Ring(Patched(buf, wp, sent), rp, wp + |sent|)))
    case WMoved(sent) =>
      Some(s.(ring := s.ring.(wp := Wrap(|buf|, wp)), sem := None, procs := At(s.procs, p, WOwe(sent))))
    case WOwe(_) =>
      Some(s.(q := s.q.(inq := {}), procs := At(s.procs, p, Idle)))
    case _ => None
  }

  /** The body of the loop in scull_getwritespace, once the semaphore is released. */
  function WriteWaitStep(s: State, p: Pid): Option<State>
    requires p in s.procs && s.ring.Valid()
  {
    var Ring(buf, rp, wp) := s.ring;
    match s.procs[p].pc
    case WJoin(data) =>
      Some(s.(procs := At(s.procs, p, WLook1(data)),
      q := s.q.(outq := s.q.outq + {p}, overrun := s.q.overrun - {p})))
    case WLook1(data) =>
      Some(s.(procs := At(s.procs, p, WLook2(data, rp))))
    case WLook2(data, r1) =>
      Some(s.(procs := At(s.procs, p, if r1 == wp then WFinish(data) else WLook3(data))))
    case WLook3(data) =>
      Some(s.(procs := At(s.procs, p, WLook4(data, rp))))
    case WLook4(data, r2) =>
      if r2 + |buf| < wp then None
      else Some(s.(procs := At(s.procs, p, if (r2 + |buf| - wp) % |buf| - 1 == 0 then WSleep(data) else WFinish(data))))
    case WSleep(data) =>
      if p in s.q.outq then None else Some(s.(procs := At(s.procs, p, WFinish(data))))
    case WFinish(data) =>
      Some(s.(procs := At(s.procs, p, WWant(data)), q := s.q.(outq := s.q.outq - {p}, overrun := s.q.overrun - {p})))
    case _ => None
  }

  /** A signal ends a wait for the semaphore or a sleep with -ERESTARTSYS. */
  function SignalStep(s: State, p: Pid): Option<State>
    requires p in s.procs
  {
    match s.procs[p].pc
    case RWant(_) => Some(s.(procs := At(s.procs, p, Idle)))
    case WWant(_) => Some(s.(procs := At(s.procs, p, Idle)))
    case RSleep(_) => Some(s.(procs := At(s.procs, p, Idle), q := s.q.(inq := s.q.inq - {p})))
    case WSleep(data) => Some(s.(procs := At(s.procs, p, WFinish(data))))
    case WFinish(_) =>
      Some(s.(procs := At(s.procs, p, Idle), q := s.q.(outq := s.q.outq - {p}, overrun := s.q.overrun - {p})))
    case _ => None
  }

  predicate InRead(pc: Pc) { pc.RWant? || pc.RTest? || pc.RMoved? || pc.ROwe? }
  predicate InReadWait(pc: Pc) { pc.RLook? || pc.RLook2? || pc.RJoin? || pc.RSleep? }
  predicate InWrite(pc: Pc) { pc.WWant? || pc.WTest? || pc.WMoved? || pc.WOwe? }

  function GoStep(s: State, p: Pid): Option<State>
    requires p in s.procs && s.ring.Valid()
  {
    var pc := s.procs[p].pc;
    if InRead(pc) then ReadStep(s, p)
    else if InReadWait(pc) then ReadWaitStep(s, p)
    else if InWrite(pc) then WriteStep(s, p)
    else WriteWaitStep(s, p)
  }

  function Step(s: State, a: Action): Option<State> {
    if !s.ring.Valid() then None
    else if a.Open? then OpenStep(s, a)
    else if a.Close? then CloseStep(s, a.p)
    else if a.p !in s.procs then None
    else
      match a
      case Read(p, count) =>
        if s.procs[p].pc.Idle? && s.procs[p].forRead then Some(s.(procs := At(s.procs, p, RWant(count)))) else None
      case Write(p, data) =>
        if s.procs[p].pc.Idle? && s.procs[p].forWrite then Some(s.(procs := At(s.procs, p, WWant(data)))) else None
      case Go(p) => GoStep(s, p)
      case Signal(p) => SignalStep(s, p)
  }

  // ---------- invariants ----------

  predicate Holding(pc: Pc) {
    pc.RTest? || pc.RMoved? || pc.WTest? || pc.WMoved?
  }

  predicate WriterOwes(procs: map<Pid, Proc>) {
    exists p :: p in procs && (procs[p].pc.WMoved? || procs[p].pc.WOwe?)
  }

  predicate ReaderOwes(procs: map<Pid, Proc>) {
    exists p :: p in procs && (procs[p].pc.RMoved? || procs[p].pc.ROwe?)
  }

  predicate Empty(ring: Ring)
    requires ring.Valid()
  {
    Wrap(|ring.buf|, ring.rp) == Wrap(|ring.buf|, ring.wp)
  }

  predicate Full(ring: Ring)
    requires ring.Valid()
  {
    |ring.Bytes()| == |ring.buf| - 1
  }

  /** The semaphore is held exactly by the process inside, and only it may leave a pointer on the end. */
  predicate SemOk(procs: map<Pid, Proc>, sem: Option<Pid>, ring: Ring) {
    && ring.Valid()
    && (forall p :: p in procs ==> (Holding(procs[p].pc) <==> sem == Some(p)))
    && (sem.Some? ==> sem.value in procs)
    && (ring.rp == |ring.buf| ==> sem.Some? && procs[sem.value].pc.RMoved?)
    && (ring.wp == |ring.buf| ==> sem.Some? && procs[sem.value].pc.WMoved?)
  }

  predicate InqOk(procs: map<Pid, Proc>, inq: set<Pid>, ring: Ring) {
    && ring.Valid()
    && (forall p :: p in inq ==> p in procs && WaitsToRead(procs[p].pc))
    && (WriterOwes(procs) || forall p :: p in inq ==> p in procs && ReaderKnows(procs[p].pc, ring))
  }

  predicate WaitsToRead(pc: Pc) {
    (pc.RLook? && pc.joined) || (pc.RLook2? && pc.joined) || pc.RSleep?
  }

  /** What a reader on inq can rely on while no writer owes it a wake-up. */
  predicate ReaderKnows(pc: Pc, ring: Ring)
    requires ring.Valid()
  {
    && (pc.RLook2? && pc.r0 == ring.wp ==> Empty(ring))
    && (pc.RSleep? ==> Empty(ring))
  }

  predicate OutqOk(procs: map<Pid, Proc>, q: Queues, ring: Ring) {
    && ring.Valid()
    && q.overrun <= q.outq
    && (forall p :: p in q.outq ==> p in procs && WaitsToWrite(procs[p].pc))
    && (forall p :: p in procs && procs[p].pc.WLook4? ==> procs[p].pc.r2 <= |ring.buf|)
    && (ReaderOwes(procs) ||
        forall p :: p in q.outq && p !in q.overrun ==> p in procs && WriterKnows(procs[p].pc, ring))
  }

  predicate WaitsToWrite(pc: Pc) {
    pc.WLook1? || pc.WLook2? || pc.WLook3? || pc.WLook4? || pc.WSleep? || pc.WFinish?
  }

  predicate WriterKnows(pc: Pc, ring: Ring)
    requires ring.Valid()
  {
    && (pc.WLook4? ==> Wrap(|ring.buf|, pc.r2) == Wrap(|ring.buf|, ring.rp))
    && (pc.WSleep? ==> Full(ring))
  }

  function Readers(procs: map<Pid, Proc>): set<Pid> {
    set p | p in procs && procs[p].forRead
  }

  function Writers(procs: map<Pid, Proc>): set<Pid> {
    set p | p in procs && procs[p].forWrite
  }

  predicate CountsOk(procs: map<Pid, Proc>, c: Counts) {
    && c.nreaders == |Readers(procs)|
    && c.nwriters == |Writers(procs)|
    && (forall p :: p in procs ==> procs[p].forRead || procs[p].forWrite)
    && (c.hasBuffer <==> procs != map[])
  }

  predicate Inv(s: State) {
    && SemOk(s.procs, s.sem, s.ring)
    && InqOk(s.procs, s.q.inq, s.ring)
    && OutqOk(s.procs, s.q, s.ring)
    && CountsOk(s.procs, s.counts)
  }

  lemma InitInv(buf: seq<byte>)
    requires 2 <= |buf|
    ensures Inv(Init(buf))
  {
  }

  // The semaphore.

  lemma ReadKeepsSem(s: State, p: Pid)
    requires SemOk(s.procs, s.sem, s.ring) && p in s.procs && ReadStep(s, p).Some?
    ensures var t := ReadStep(s, p).value; SemOk(t.procs, t.sem, t.ring)
  {
  }

  lemma WriteKeepsSem(s: State, p: Pid)
    requires SemOk(s.procs, s.sem, s.ring) && p in s.procs && WriteStep(s, p).Some?
    ensures var t := WriteStep(s, p).value; SemOk(t.procs, t.sem, t.ring)
  {
    var t := WriteStep(s, p).value;
    assert |t.ring.buf| == |s.ring.buf|;
  }

  /** A process outside may move about outside. */
  lemma SemFrame(procs: map<Pid, Proc>, sem: Option<Pid>, ring: Ring, p: Pid, pc: Pc)
    requires SemOk(procs, sem, ring) && p in procs && !Holding(procs[p].pc) && !Holding(pc)
    ensures SemOk(At(procs, p, pc), sem, ring)
  {
  }

  predicate MovesOutside(s: State, p: Pid, t: State) {
    && p in s.procs && p in t.procs && t.procs == At(s.procs, p, t.procs[p].pc) && t.sem == s.sem && t.ring == s.ring
    && !Holding(s.procs[p].pc) && !Holding(t.procs[p].pc)
  }

  lemma ReadWaitsOutside(s: State, p: Pid)
    requires p in s.procs && s.ring.Valid() && ReadWaitStep(s, p).Some?
    ensures MovesOutside(s, p, ReadWaitStep(s, p).value)
  {
  }

  lemma WriteWaitsOutside(s: State, p: Pid)
    requires p in s.procs && s.ring.Valid() && WriteWaitStep(s, p).Some?
    ensures MovesOutside(s, p, WriteWaitStep(s, p).value)
  {
  }

  lemma SignalsOutside(s: State, p: Pid)
    requires p in s.procs && SignalStep(s, p).Some?
    ensures MovesOutside(s, p, SignalStep(s, p).value)
  {
  }

  lemma OutsideKeepsSem(s: State, p: Pid, t: State)
    requires SemOk(s.procs, s.sem, s.ring) && MovesOutside(s, p, t)
    ensures SemOk(t.procs, t.sem, t.ring)
  {
    SemFrame(s.procs, s.sem, s.ring, p, t.procs[p].pc);
  }

  lemma GoKeepsSem(s: State, p: Pid)
    requires SemOk(s.procs, s.sem, s.ring) && p in s.procs && GoStep(s, p).Some?
    ensures var t := GoStep(s, p).value; SemOk(t.procs, t.sem, t.ring)
  {
    var pc := s.procs[p].pc;
    hide ReadStep, WriteStep, ReadWaitStep, WriteWaitStep, MovesOutside;
    if InRead(pc) {
      ReadKeepsSem(s, p);
    } else if InWrite(pc) {
      WriteKeepsSem(s, p);
    } else if InReadWait(pc) {
      ReadWaitsOutside(s, p);
      OutsideKeepsSem(s, p, GoStep(s, p).value);
    } else {
      WriteWaitsOutside(s, p);
      OutsideKeepsSem(s, p, GoStep(s, p).value);
    }
  }

  lemma StepKeepsSem(s: State, a: Action)
    requires SemOk(s.procs, s.sem, s.ring) && Step(s, a).Some?
    ensures var t := Step(s, a).value; SemOk(t.procs, t.sem, t.ring)
  {
    hide GoStep, SignalStep, MovesOutside;
    match a
    case Go(p) => GoKeepsSem(s, p);
    case Signal(p) =>
      SignalsOutside(s, p);
      OutsideKeepsSem(s, p, Step(s, a).value);
    case Read(p, count) => SemFrame(s.procs, s.sem, s.ring, p, RWant(count));
    case Write(p, data) => SemFrame(s.procs, s.sem, s.ring, p, WWant(data));
    case _ =>
  }

  // The readers on inq.

  lemma OwingWriterStays(procs: map<Pid, Proc>, p: Pid, pc: Pc)
    requires p in procs && WriterOwes(procs)
    requires procs[p].pc.WMoved? || procs[p].pc.WOwe? ==> pc.WMoved? || pc.WOwe?
    ensures WriterOwes(At(procs, p, pc))
  {
    var w :| w in procs && (procs[w].pc.WMoved? || procs[w].pc.WOwe?);
    var after := At(procs, p, pc);
    assert w in after && (after[w].pc.WMoved? || after[w].pc.WOwe?);
  }

  /** A process that is not on inq may move on without disturbing those that are. */
  lemma InqFrame(procs: map<Pid, Proc>, inq: set<Pid>, ring: Ring, p: Pid, pc: Pc)
    requires InqOk(procs, inq, ring) && p in procs && p !in inq
    requires procs[p].pc.WMoved? || procs[p].pc.WOwe? ==> pc.WMoved? || pc.WOwe?
    ensures InqOk(At(procs, p, pc), inq, ring)
  {
    if WriterOwes(procs) {
      OwingWriterStays(procs, p, pc);
    }
  }

  /** Once a writer owes the wake-up, the sleepers on inq are covered whatever the ring does. */
  lemma InqOwed(procs: map<Pid, Proc>, inq: set<Pid>, ring: Ring, p: Pid, pc: Pc, ring': Ring)
    requires InqOk(procs, inq, ring) && p in procs && p !in inq && (pc.WMoved? || pc.WOwe?)
    requires ring'.Valid()
    ensures InqOk(At(procs, p, pc), inq, ring')
  {
    var after := At(procs, p, pc);
    assert p in after && (after[p].pc.WMoved? || after[p].pc.WOwe?);
  }

  /** A read can only run when the ring is not empty, so it never meets a sleeper that relies on emptiness. */
  lemma ReadKeepsInq(s: State, p: Pid)
    requires SemOk(s.procs, s.sem, s.ring) && InqOk(s.procs, s.q.inq, s.ring)
    requires p in s.procs && ReadStep(s, p).Some?
    ensures var t := ReadStep(s, p).value; InqOk(t.procs, t.q.inq, t.ring)
  {
    var t := ReadStep(s, p).value;
    InqFrame(s.procs, s.q.inq, s.ring, p, t.procs[p].pc);
  }

  /** A reader may join, leave or stay on inq with what it knows. */
  lemma InqMoves(procs: map<Pid, Proc>, inq: set<Pid>, ring: Ring, p: Pid, pc: Pc, inq': set<Pid>)
    requires InqOk(procs, inq, ring) && p in procs && !procs[p].pc.WMoved? && !procs[p].pc.WOwe?
    requires inq' <= inq + {p}
    requires p in inq' ==> WaitsToRead(pc) && (WriterOwes(procs) || ReaderKnows(pc, ring))
    ensures InqOk(At(procs, p, pc), inq', ring)
  {
    if WriterOwes(procs) {
      OwingWriterStays(procs, p, pc);
    }
  }

  lemma ReadWaitKeepsInq(s: State, p: Pid)
    requires SemOk(s.procs, s.sem, s.ring) && InqOk(s.procs, s.q.inq, s.ring)
    requires p in s.procs && ReadWaitStep(s, p).Some?
    ensures var t := ReadWaitStep(s, p).value; InqOk(t.procs, t.q.inq, t.ring)
  {
    var t := ReadWaitStep(s, p).value;
    ReadWaitsOutside(s, p);
    ReadWaitKnows(s, p);
    hide ReadWaitStep, WaitsToRead, ReaderKnows;
    InqMoves(s.procs, s.q.inq, s.ring, p, t.procs[p].pc, t.q.inq);
  }

  lemma ReadWaitKnows(s: State, p: Pid)
    requires InqOk(s.procs, s.q.inq, s.ring) && p in s.procs && ReadWaitStep(s, p).Some?
    ensures var t := ReadWaitStep(s, p).value;
            && t.q.inq <= s.q.inq + {p} && !s.procs[p].pc.WMoved? && !s.procs[p].pc.WOwe?
            && (p in t.q.inq ==> WaitsToRead(t.procs[p].pc))
            && (p in t.q.inq ==> WriterOwes(s.procs) || ReaderKnows(t.procs[p].pc, s.ring))
  {
    hide WriterOwes;
  }

  lemma StepKeepsInq(s: State, a: Action)
    requires SemOk(s.procs, s.sem, s.ring) && InqOk(s.procs, s.q.inq, s.ring) && Step(s, a).Some?
    ensures var t := Step(s, a).value; InqOk(t.procs, t.q.inq, t.ring)
  {
    if a.Go? {
      GoKeepsInq(s, a.p);
    } else if a.Signal? {
      SignalKeepsInq(s, a.p);
    } else if a.Read? || a.Write? {
      hide OpenStep, CloseStep, GoStep;
      InqFrame(s.procs, s.q.inq, s.ring, a.p, Step(s, a).value.procs[a.p].pc);
    } else {
      OpenCloseKeepsInq(s, a);
    }
  }

  lemma SignalKeepsInq(s: State, p: Pid)
    requires InqOk(s.procs, s.q.inq, s.ring) && p in s.procs && SignalStep(s, p).Some?
    ensures var t := SignalStep(s, p).value; InqOk(t.procs, t.q.inq, t.ring)
  {
    if WriterOwes(s.procs) {
      OwingWriterStays(s.procs, p, SignalStep(s, p).value.procs[p].pc);
    }
  }

  /** An open empties the ring; a close is of a process that waits for nothing. */
  lemma OpenCloseKeepsInq(s: State, a: Action)
    requires InqOk(s.procs, s.q.inq, s.ring) && Step(s, a).Some? && (a.Open? || a.Close?)
    ensures var t := Step(s, a).value; InqOk(t.procs, t.q.inq, t.ring)
  {
    if WriterOwes(s.procs) {
      var w :| w in s.procs && (s.procs[w].pc.WMoved? || s.procs[w].pc.WOwe?);
      assert w in Step(s, a).value.procs && Step(s, a).value.procs[w] == s.procs[w];
    }
  }

  lemma GoKeepsInq(s: State, p: Pid)
    requires SemOk(s.procs, s.sem, s.ring) && InqOk(s.procs, s.q.inq, s.ring)
    requires p in s.procs && GoStep(s, p).Some?
    ensures var t := GoStep(s, p).value; InqOk(t.procs, t.q.inq, t.ring)
  {
    var pc, t := s.procs[p].pc, GoStep(s, p).value;
    if InRead(pc) {
      ReadKeepsInq(s, p);
    } else if InReadWait(pc) {
      ReadWaitKeepsInq(s, p);
    } else if InWrite(pc) {
      WriteKeepsInq(s, p);
    } else {
      InqFrame(s.procs, s.q.inq, s.ring, p, t.procs[p].pc);
    }
  }

  lemma WriteKeepsInq(s: State, p: Pid)
    requires SemOk(s.procs, s.sem, s.ring) && InqOk(s.procs, s.q.inq, s.ring)
    requires p in s.procs && WriteStep(s, p).Some?
    ensures var t := WriteStep(s, p).value; InqOk(t.procs, t.q.inq, t.ring)
  {
    var pc, t := s.procs[p].pc, WriteStep(s, p).value;
    if t.procs[p].pc.WMoved? || t.procs[p].pc.WOwe? {
      InqOwed(s.procs, s.q.inq, s.ring, p, t.procs[p].pc, t.ring);
    } else if !pc.WOwe? {
      InqFrame(s.procs, s.q.inq, s.ring, p, t.procs[p].pc);
    }
  }

  // The writers on outq.

  lemma OwingReaderStays(procs: map<Pid, Proc>, p: Pid, pc: Pc)
    requires p in procs && ReaderOwes(procs)
    requires procs[p].pc.RMoved? || procs[p].pc.ROwe? ==> pc.RMoved? || pc.ROwe?
    ensures ReaderOwes(At(procs, p, pc))
  {
    var w :| w in procs && (procs[w].pc.RMoved? || procs[w].pc.ROwe?);
    var after := At(procs, p, pc);
    assert w in after && (after[w].pc.RMoved? || after[w].pc.ROwe?);
  }

  lemma OutqFrame(procs: map<Pid, Proc>, q: Queues, ring: Ring, p: Pid, pc: Pc)
    requires OutqOk(procs, q, ring) && p in procs && p !in q.outq
    requires procs[p].pc.RMoved? || procs[p].pc.ROwe? ==> pc.RMoved? || pc.ROwe?
    requires pc.WLook4? ==> pc.r2 <= |ring.buf|
    ensures OutqOk(At(procs, p, pc), q, ring)
  {
    if ReaderOwes(procs) {
      OwingReaderStays(procs, p, pc);
    }
  }

  lemma OutqOwed(procs: map<Pid, Proc>, q: Queues, ring: Ring, p: Pid, pc: Pc, ring': Ring)
    requires OutqOk(procs, q, ring) && p in procs && p !in q.outq && (pc.RMoved? || pc.ROwe?)
    requires ring'.Valid() && |ring'.buf| == |ring.buf|
    ensures OutqOk(At(procs, p, pc), q, ring')
  {
    var after := At(procs, p, pc);
    assert p in after && (after[p].pc.RMoved? || after[p].pc.ROwe?);
  }

  /** Filling the ring leaves `rp` alone, and while there is room no sleeper relies on fullness. */
  lemma OutqFilled(procs: map<Pid, Proc>, q: Queues, ring: Ring, ring': Ring)
    requires OutqOk(procs, q, ring) && !Full(ring)
    requires ring'.Valid() && |ring'.buf| == |ring.buf| && ring'.rp == ring.rp
    ensures OutqOk(procs, q, ring')
  {
  }

  /** Wrapping `wp` changes neither the bytes held nor `rp`. */
  lemma OutqWrapped(procs: map<Pid, Proc>, q: Queues, ring: Ring)
    requires OutqOk(procs, q, ring)
    ensures OutqOk(procs, q, ring.(wp := Wrap(|ring.buf|, ring.wp)))
  {
  }

  lemma ReadKeepsOutq(s: State, p: Pid)
    requires SemOk(s.procs, s.sem, s.ring) && OutqOk(s.procs, s.q, s.ring)
    requires p in s.procs && ReadStep(s, p).Some?
    ensures var t := ReadStep(s, p).value; OutqOk(t.procs, t.q, t.ring)
  {
    var t := ReadStep(s, p).value;
    var pc := t.procs[p].pc;
    if pc.RMoved? || pc.ROwe? {
      assert t.ring.Valid() && |t.ring.buf| == |s.ring.buf|;
      OutqOwed(s.procs, s.q, s.ring, p, pc, t.ring);
    } else if !s.procs[p].pc.ROwe? {
      OutqFrame(s.procs, s.q, s.ring, p, pc);
    }
  }

  lemma WriteKeepsOutq(s: State, p: Pid)
    requires SemOk(s.procs, s.sem, s.ring) && OutqOk(s.procs, s.q, s.ring)
    requires p in s.procs && WriteStep(s, p).Some?
    ensures var t := WriteStep(s, p).value; OutqOk(t.procs, t.q, t.ring)
  {
    var t := WriteStep(s, p).value;
    OutqFrame(s.procs, s.q, s.ring, p, t.procs[p].pc);
    if t.procs[p].pc.WMoved? {
      SpaceFreeIsRoom(s.ring.buf, s.ring.rp, s.ring.wp);
      OutqFilled(t.procs, s.q, s.ring, t.ring);
    } else if s.procs[p].pc.WMoved? {
      OutqWrapped(t.procs, s.q, s.ring);
    }
  }

  /** A process on outq may move on to anything it can back up. */
  lemma OutqMoves(procs: map<Pid, Proc>, q: Queues, ring: Ring, p: Pid, pc: Pc)
    requires OutqOk(procs, q, ring) && p in procs && WaitsToWrite(procs[p].pc) && WaitsToWrite(pc)
    requires pc.WLook4? ==> pc.r2 <= |ring.buf|
    requires ReaderOwes(procs) || p !in q.outq || p in q.overrun || WriterKnows(pc, ring)
    ensures OutqOk(At(procs, p, pc), q, ring)
  {
    if ReaderOwes(procs) {
      OwingReaderStays(procs, p, pc);
    }
  }

  lemma OutqJoinsOrLeaves(s: State, p: Pid)
    requires OutqOk(s.procs, s.q, s.ring)
    requires p in s.procs && (s.procs[p].pc.WJoin? || s.procs[p].pc.WFinish?) && WriteWaitStep(s, p).Some?
    ensures var t := WriteWaitStep(s, p).value; OutqOk(t.procs, t.q, t.ring)
  {
    var t := WriteWaitStep(s, p).value;
    if ReaderOwes(s.procs) {
      OwingReaderStays(s.procs, p, t.procs[p].pc);
    }
  }

  /** A writer that decides to sleep has seen a full ring. */
  lemma WriteWaitKeepsOutq(s: State, p: Pid)
    requires SemOk(s.procs, s.sem, s.ring) && OutqOk(s.procs, s.q, s.ring)
    requires p in s.procs && WriteWaitStep(s, p).Some?
    ensures var t := WriteWaitStep(s, p).value; OutqOk(t.procs, t.q, t.ring)
  {
    if s.procs[p].pc.WJoin? || s.procs[p].pc.WFinish? {
      OutqJoinsOrLeaves(s, p);
    } else {
      var pc := WriteWaitStep(s, p).value.procs[p].pc;
      if pc.WSleep? {
        LockFreeZeroMeansFull(s.ring.buf, s.procs[p].pc.r2, s.ring.wp);
      }
      OutqMoves(s.procs, s.q, s.ring, p, pc);
    }
  }

  lemma GoKeepsOutq(s: State, p: Pid)
    requires SemOk(s.procs, s.sem, s.ring) && OutqOk(s.procs, s.q, s.ring)
    requires p in s.procs && GoStep(s, p).Some?
    ensures var t := GoStep(s, p).value; OutqOk(t.procs, t.q, t.ring)
  {
    var pc := s.procs[p].pc;
    if InRead(pc) {
      ReadKeepsOutq(s, p);
    } else if InReadWait(pc) {
      OutqFrame(s.procs, s.q, s.ring, p, ReadWaitStep(s, p).value.procs[p].pc);
    } else if InWrite(pc) {
      WriteKeepsOutq(s, p);
    } else {
      WriteWaitKeepsOutq(s, p);
    }
  }

  lemma OpenKeepsOutq(s: State, a: Action)
    requires SemOk(s.procs, s.sem, s.ring) && OutqOk(s.procs, s.q, s.ring) && a.Open? && OpenStep(s, a).Some?
    ensures var t := OpenStep(s, a).value; OutqOk(t.procs, t.q, t.ring)
  {
  }

  lemma CloseKeepsOutq(s: State, p: Pid)
    requires OutqOk(s.procs, s.q, s.ring) && CloseStep(s, p).Some?
    ensures var t := CloseStep(s, p).value; OutqOk(t.procs, t.q, t.ring)
  {
    if ReaderOwes(s.procs) {
      var w :| w in s.procs && (s.procs[w].pc.RMoved? || s.procs[w].pc.ROwe?);
      assert w in s.procs - {p};
    }
  }

  lemma OutqLeaves(procs: map<Pid, Proc>, q: Queues, ring: Ring, p: Pid)
    requires OutqOk(procs, q, ring) && p in procs && procs[p].pc.WFinish?
    ensures OutqOk(At(procs, p, Idle), q.(outq := q.outq - {p}, overrun := q.overrun - {p}), ring)
  {
    if ReaderOwes(procs) {
      OwingReaderStays(procs, p, Idle);
    }
  }

  lemma SignalKeepsOutq(s: State, p: Pid)
    requires OutqOk(s.procs, s.q, s.ring) && p in s.procs && SignalStep(s, p).Some?
    ensures var t := SignalStep(s, p).value; OutqOk(t.procs, t.q, t.ring)
  {
    if s.procs[p].pc.WSleep? {
      OutqMoves(s.procs, s.q, s.ring, p, WFinish(s.procs[p].pc.data));
    } else if s.procs[p].pc.WFinish? {
      OutqLeaves(s.procs, s.q, s.ring, p);
    } else {
      OutqFrame(s.procs, s.q, s.ring, p, Idle);
    }
  }

  lemma StepKeepsOutq(s: State, a: Action)
    requires SemOk(s.procs, s.sem, s.ring) && OutqOk(s.procs, s.q, s.ring) && Step(s, a).Some?
    ensures var t := Step(s, a).value; OutqOk(t.procs, t.q, t.ring)
  {
    var t := Step(s, a).value;
    match a
    case Go(p) => GoKeepsOutq(s, p);
    case Open(_, _, _, _) => OpenKeepsOutq(s, a);
    case Read(p, _) => OutqFrame(s.procs, s.q, s.ring, p, t.procs[p].pc);
    case Write(p, _) => OutqFrame(s.procs, s.q, s.ring, p, t.procs[p].pc);
    case Close(p) => CloseKeepsOutq(s, p);
    case Signal(p) => SignalKeepsOutq(s, p);
  }

  // The open counts.

  predicate OnlyPc(s: State, p: Pid, t: State)
    requires p in s.procs
  {
    p in t.procs && t.counts == s.counts && t.procs == At(s.procs, p, t.procs[p].pc)
  }

  lemma ReadKeepsModes(s: State, p: Pid)
    requires p in s.procs && s.ring.Valid()
    ensures ReadStep(s, p).Some? ==> OnlyPc(s, p, ReadStep(s, p).value)
    ensures ReadWaitStep(s, p).Some? ==> OnlyPc(s, p, ReadWaitStep(s, p).value)
  {
  }

  lemma WriteKeepsModes(s: State, p: Pid)
    requires p in s.procs && s.ring.Valid()
    ensures WriteStep(s, p).Some? ==> OnlyPc(s, p, WriteStep(s, p).value)
    ensures WriteWaitStep(s, p).Some? ==> OnlyPc(s, p, WriteWaitStep(s, p).value)
  {
  }

  lemma InsideKeepsModes(s: State, a: Action)
    requires Step(s, a).Some? && !a.Open? && !a.Close?
    ensures var t := Step(s, a).value;
            a.p in s.procs && OnlyPc(s, a.p, t)
  {
    if a.Go? {
      ReadKeepsModes(s, a.p);
      WriteKeepsModes(s, a.p);
    }
  }

  lemma NewProc(procs: map<Pid, Proc>, p: Pid, x: Proc)
    requires p !in procs
    ensures Readers(procs[p := x]) == if x.forRead then Readers(procs) + {p} else Readers(procs)
    ensures Writers(procs[p := x]) == if x.forWrite then Writers(procs) + {p} else Writers(procs)
    ensures procs[p := x] != map[]
  {
    assert p in procs[p := x];
  }

  lemma LostProc(procs: map<Pid, Proc>, p: Pid)
    ensures Readers(procs - {p}) == Readers(procs) - {p}
    ensures Writers(procs - {p}) == Writers(procs) - {p}
  {
  }

  lemma SameModes(procs: map<Pid, Proc>, p: Pid, pc: Pc)
    requires p in procs
    ensures Readers(At(procs, p, pc)) == Readers(procs) && Writers(At(procs, p, pc)) == Writers(procs)
    ensures At(procs, p, pc) != map[]
  {
    assert p in At(procs, p, pc);
  }

  /** Someone counted is someone there, and nobody there is nobody counted. */
  lemma NobodyLeft(procs: map<Pid, Proc>)
    requires forall p :: p in procs ==> procs[p].forRead || procs[p].forWrite
    ensures |Readers(procs)| + |Writers(procs)| == 0 <==> procs == map[]
  {
    if procs != map[] {
      var p :| p in procs;
      assert p in Readers(procs) || p in Writers(procs);
    } else {
      assert Readers(procs) == {} && Writers(procs) == {};
    }
  }

  lemma OpenKeepsCounts(s: State, a: Action)
    requires CountsOk(s.procs, s.counts) && a.Open? && OpenStep(s, a).Some?
    ensures var t := OpenStep(s, a).value; CountsOk(t.procs, t.counts)
  {
    NewProc(s.procs, a.p, Proc(a.forRead, a.forWrite, a.nonblock, Idle));
  }

  lemma CloseKeepsCounts(s: State, p: Pid)
    requires CountsOk(s.procs, s.counts) && CloseStep(s, p).Some?
    ensures var t := CloseStep(s, p).value; CountsOk(t.procs, t.counts)
  {
    LostProc(s.procs, p);
    NobodyLeft(s.procs - {p});
  }

  lemma StepKeepsCounts(s: State, a: Action)
    requires CountsOk(s.procs, s.counts) && Step(s, a).Some?
    ensures var t := Step(s, a).value; CountsOk(t.procs, t.counts)
  {
    if a.Open? {
      OpenKeepsCounts(s, a);
    } else if a.Close? {
      CloseKeepsCounts(s, a.p);
    } else {
      InsideKeepsModes(s, a);
      hide Step, Readers, Writers;
      SameModes(s.procs, a.p, Step(s, a).value.procs[a.p].pc);
    }
  }

  lemma StepKeepsInv(s: State, a: Action)
    requires Inv(s) && Step(s, a).Some?
    ensures Inv(Step(s, a).value)
  {
    StepKeepsSem(s, a);
    StepKeepsInq(s, a);
    StepKeepsOutq(s, a);
    StepKeepsCounts(s, a);
  }

  /** The invariants hold in every state of every run, whatever the processes and their interleaving. */
  lemma RunKeepsInv(buf: seq<byte>, run: seq<Action>)
    requires 2 <= |buf| && Exec(Step, Init(buf), run).Some?
    ensures Inv(Exec(Step, Init(buf), run).value)
  {
    InitInv(buf);
    forall s, a | Inv(s) && Step(s, a).Some? ensures Inv(Step(s, a).value) {
      StepKeepsInv(s, a);
    }
    InvariantOverRun(Step, Inv, Init(buf), run);
  }
}
