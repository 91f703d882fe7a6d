/** What every run of the scullpipe device keeps, for any number of processes and any interleaving. */
module PipeTheorems {
  import opened Basics
  import opened Runs
  import opened PipeRing
  import opened Pipe

  // ---------- first in, first out ----------

  /** Bytes accepted by writes and returned by reads since the last open, in the order of the semaphore. */
  datatype Log = Log(accepted: seq<byte>, delivered: seq<byte>)

  /** The machine with an observer, who sees only opens and what the calls move. */
  datatype Observed = Observed(s: State, log: Log)

  function Observe(log: Log, a: Action, after: State): Log {
    if a.Open? then Log([], [])
    else if a.Go? && a.p in after.procs && after.procs[a.p].pc.RMoved? then
      log.(delivered := log.delivered + after.procs[a.p].pc.got)
    else if a.Go? && a.p in after.procs && after.procs[a.p].pc.WMoved? then
      log.(accepted := log.accepted + after.procs[a.p].pc.sent)
    else log
  }

  function Watch(o: Observed, a: Action): Option<Observed> {
    match Step(o.s, a)
    case None => None
    case Some(t) => Some(Observed(t, Observe(o.log, a, t)))
  }

  predicate FifoOk(o: Observed) {
    Inv(o.s) && o.log.accepted == o.log.delivered + o.s.ring.Bytes()
  }

  lemma ReadKeepsFifo(s: State, p: Pid, log: Log)
    requires FifoOk(Observed(s, log)) && p in s.procs && ReadStep(s, p).Some?
    ensures var t := ReadStep(s, p).value;
            t.ring.Valid() && Observe(log, Go(p), t).accepted == Observe(log, Go(p), t).delivered + t.ring.Bytes()
  {
    if ReadStep(s, p).value.procs[p].pc.RMoved? {
      ReadMoveKeepsFifo(s, p, log);
    }
  }

  lemma ReadMoveKeepsFifo(s: State, p: Pid, log: Log)
    requires s.ring.Valid() && log.accepted == log.delivered + s.ring.Bytes()
    requires p in s.procs && s.procs[p].pc.RTest? && ReadStep(s, p).Some? && ReadStep(s, p).value.procs[p].pc.RMoved?
    ensures var t := ReadStep(s, p).value;
            t.ring.Valid() && log.accepted == log.delivered + t.procs[p].pc.got + t.ring.Bytes()
  {
    ReadMoveIs(s, p);
    hide ReadStep, Contents;
    var t := ReadStep(s, p).value;
    Assoc(log.delivered, t.procs[p].pc.got, t.ring.Bytes());
  }

  lemma ReadMoveIs(s: State, p: Pid)
    requires s.ring.Valid()
    requires p in s.procs && s.procs[p].pc.RTest? && ReadStep(s, p).Some? && ReadStep(s, p).value.procs[p].pc.RMoved?
    ensures var t := ReadStep(s, p).value; t.ring.Valid() && s.ring.Bytes() == t.procs[p].pc.got + t.ring.Bytes()
  {
    hide ReadStep, Contents, ReadCount;
    ReadMovesTo(s, p);
    ReadTakesPrefix(s.ring.buf, s.ring.rp, s.ring.wp, s.procs[p].pc.count);
  }

  lemma ReadMovesTo(s: State, p: Pid)
    requires s.ring.Valid()
    requires p in s.procs && s.procs[p].pc.RTest? && ReadStep(s, p).Some? && ReadStep(s, p).value.procs[p].pc.RMoved?
    ensures s.ring.AtRest() && s.ring.rp != s.ring.wp
    ensures var Ring(buf, rp, wp) := s.ring;
            var c := ReadCount(|buf|, rp, wp, s.procs[p].pc.count);
            var t := ReadStep(s, p).value;
            t.procs[p].pc.got == buf[rp..rp + c] && t.ring == Ring(buf, rp + c, wp)
  {
    hide ReadCount;
  }

  lemma WriteMoveKeepsFifo(s: State, p: Pid, log: Log)
    requires s.ring.Valid() && log.accepted == log.delivered + s.ring.Bytes()
    requires p in s.procs && s.procs[p].pc.WTest? && WriteStep(s, p).Some? && WriteStep(s, p).value.procs[p].pc.WMoved?
    ensures var t := WriteStep(s, p).value;
            t.ring.Valid() && log.accepted + t.procs[p].pc.sent == log.delivered + t.ring.Bytes()
  {
    var Ring(buf, rp, wp) := s.ring;
    var data := s.procs[p].pc.data;
    var c := WriteCount(|buf|, rp, wp, |data|);
    WriteAppends(buf, rp, wp, data);
    Assoc(log.delivered, Contents(buf, rp, wp), data[..c]);
    hide Contents, WriteCount, Patched;
  }

  lemma WriteKeepsFifo(s: State, p: Pid, log: Log)
    requires FifoOk(Observed(s, log)) && p in s.procs && WriteStep(s, p).Some?
    ensures var t := WriteStep(s, p).value;
            t.ring.Valid() && Observe(log, Go(p), t).accepted == Observe(log, Go(p), t).delivered + t.ring.Bytes()
  {
    var t := WriteStep(s, p).value;
    if t.procs[p].pc.WMoved? {
      WriteMoveKeepsFifo(s, p, log);
    } else {
      assert t.ring.Bytes() == s.ring.Bytes();
    }
  }

  lemma WaitsMoveNothing(s: State, p: Pid)
    requires p in s.procs && s.ring.Valid()
    ensures ReadWaitStep(s, p).Some? ==>
              var t := ReadWaitStep(s, p).value; t.ring == s.ring && !t.procs[p].pc.RMoved? && !t.procs[p].pc.WMoved?
    ensures WriteWaitStep(s, p).Some? ==>
              var t := WriteWaitStep(s, p).value; t.ring == s.ring && !t.procs[p].pc.RMoved? && !t.procs[p].pc.WMoved?
  {
  }

  lemma WatchKeepsFifo(o: Observed, a: Action)
    requires FifoOk(o) && Watch(o, a).Some?
    ensures FifoOk(Watch(o, a).value)
  {
    StepKeepsInv(o.s, a);
    if a.Go? {
      var pc := o.s.procs[a.p].pc;
      if InRead(pc) {
        ReadKeepsFifo(o.s, a.p, o.log);
      } else if InWrite(pc) {
        WriteKeepsFifo(o.s, a.p, o.log);
      } else {
        WaitsMoveNothing(o.s, a.p);
      }
    }
  }

  /** Over every run: what the reads returned since the last open, followed by the ring contents, is what the
      writes accepted since, although each call moves one contiguous chunk only. */
  lemma PipeIsFifo(buf: seq<byte>, run: seq<Action>, o: Observed)
    requires 2 <= |buf| && Exec(Watch, Observed(Init(buf), Log([], [])), run) == Some(o)
    ensures o.s.ring.Valid() && o.log.accepted == o.log.delivered + o.s.ring.Bytes()
    ensures |o.log.accepted| - |o.log.delivered| <= |o.s.ring.buf| - 1
  {
    InitInv(buf);
    forall x, a | FifoOk(x) && Watch(x, a).Some? ensures FifoOk(Watch(x, a).value) {
      WatchKeepsFifo(x, a);
    }
    InvariantOverRun(Watch, FifoOk, Observed(Init(buf), Log([], [])), run);
  }

  // ---------- the semaphore ----------

  /** Mutual exclusion: two processes inside are the same process, and none stays inside after its call. */
  lemma SemaphoreDiscipline(buf: seq<byte>, run: seq<Action>, s: State)
    requires 2 <= |buf| && Exec(Step, Init(buf), run) == Some(s)
    ensures forall p, q :: p in s.procs && q in s.procs && Holding(s.procs[p].pc) && Holding(s.procs[q].pc) ==> p == q
    ensures (exists p :: p in s.procs && Holding(s.procs[p].pc)) <==> s.sem.Some?
    ensures forall p :: p in s.procs && s.procs[p].pc.Idle? ==> s.sem != Some(p)
  {
    RunKeepsInv(buf, run);
  }

  /** The ring changes only in an open, or by the hand of the process holding the semaphore. */
  lemma RingChangesUnderSemaphore(s: State, a: Action, t: State)
    requires Inv(s) && Step(s, a) == Some(t) && t.ring != s.ring
    ensures a.Open? || (a.Go? && s.sem == Some(a.p))
  {
    if a.Go? {
      WaitsMoveNothing(s, a.p);
      var pc := s.procs[a.p].pc;
      assert InRead(pc) ==> Holding(pc);
      assert InWrite(pc) ==> Holding(pc);
    }
  }

  /** nreaders and nwriters count the open files, and the buffer exists exactly while one is open. */
  lemma CountsMatchOpens(buf: seq<byte>, run: seq<Action>, s: State)
    requires 2 <= |buf| && Exec(Step, Init(buf), run) == Some(s)
    ensures s.counts.nreaders == |Readers(s.procs)| && s.counts.nwriters == |Writers(s.procs)|
    ensures s.counts.hasBuffer <==> s.procs != map[]
  {
    RunKeepsInv(buf, run);
  }

  /** The routines stop nowhere else: in every reachable state a process inside a call can take its next step
      unless it is at a taken semaphore, or asleep and not woken. */
  lemma StopsOnlyToWait(buf: seq<byte>, run: seq<Action>, s: State, p: Pid)
    requires 2 <= |buf| && Exec(Step, Init(buf), run) == Some(s) && p in s.procs
    ensures var pc := s.procs[p].pc;
            Step(s, Go(p)).None? <==>
            || pc.Idle? || ((pc.RWant? || pc.WWant?) && s.sem.Some?)
            || (pc.RSleep? && p in s.q.inq) || (pc.WSleep? && p in s.q.outq)
  {
    RunKeepsInv(buf, run);
    NextStepIs(s, p);
  }

  lemma NextStepIs(s: State, p: Pid)
    requires SemOk(s.procs, s.sem, s.ring) && p in s.procs
    ensures var pc := s.procs[p].pc;
            Step(s, Go(p)).None? <==>
            || pc.Idle? || ((pc.RWant? || pc.WWant?) && s.sem.Some?)
            || (pc.RSleep? && p in s.q.inq) || (pc.WSleep? && p in s.q.outq)
  {
    if s.procs[p].pc.WTest? {
      SpaceFreeIsRoom(s.ring.buf, s.ring.rp, s.ring.wp);
    }
  }

  // ---------- wake-ups ----------

  /** A reader asleep on inq while there is something to read: some writer has advanced wp and not yet woken inq. */
  lemma SleepingReaderIsWoken(buf: seq<byte>, run: seq<Action>, s: State, p: Pid)
    requires 2 <= |buf| && Exec(Step, Init(buf), run) == Some(s)
    requires p in s.q.inq && p in s.procs && s.procs[p].pc.RSleep? && s.ring.Valid() && !Empty(s.ring)
    ensures WriterOwes(s.procs)
  {
    RunKeepsInv(buf, run);
  }

  /** A writer asleep on outq while there is room: some reader has advanced rp and not yet woken outq, unless an
      open has emptied the ring over the writer's head. */
  lemma SleepingWriterIsWoken(buf: seq<byte>, run: seq<Action>, s: State, p: Pid)
    requires 2 <= |buf| && Exec(Step, Init(buf), run) == Some(s)
    requires p in s.q.outq && p in s.procs && s.procs[p].pc.WSleep? && s.ring.Valid() && !Full(s.ring)
    ensures ReaderOwes(s.procs) || p in s.q.overrun
  {
    RunKeepsInv(buf, run);
  }
}
