/** The shortprint engine as its callers see it: the data of the write actions against what comes out of the port. */
module PrinterCalls {
  import opened Basics
  import opened Runs
  import opened PrinterRing
  import opened Printer

  /** A shortp_write: the data it was called with, and how much of it has been accepted. */
  datatype Job = Job(data: seq<byte>, accepted: nat)

  /** The machine with an observer, who keeps the jobs in the order of the write actions. */
  datatype Watched = Watched(s: State, jobs: seq<Job>)

  function Part(job: Job): seq<byte> {
    if job.accepted <= |job.data| then job.data[..job.accepted] else []
  }

  /** The accepted parts of the jobs, joined. */
  function Flatten(jobs: seq<Job>): seq<byte>
    decreases |jobs|
  {
    if jobs == [] then [] else Flatten(jobs[..|jobs| - 1]) + Part(jobs[|jobs| - 1])
  }

  function Accept(jobs: seq<Job>, n: nat): seq<Job> {
    if jobs == [] then [] else jobs[..|jobs| - 1] + [jobs[|jobs| - 1].(accepted := n)]
  }

  /** A write action opens a job; what it has accepted is what shortp_write counts as written, its return value. */
  function Observe(jobs: seq<Job>, a: Action, t: State): seq<Job> {
    if a.Write? && a.w.Acquire? then jobs + [Job(a.w.data, 0)]
    else if a.Write? && a.w.Publish? then Accept(jobs, t.prod.written)
    else jobs
  }

  function Watch(w: Watched, a: Action): Option<Watched> {
    match Step(w.s, a)
    case None => None
    case Some(t) => Some(Watched(t, Observe(w.jobs, a, t)))
  }

  /** The writer inside works on the latest job, and found the earlier ones published. */
  predicate JobOk(p: Producer, jobs: seq<Job>) {
    !p.writer.Free? ==>
      && jobs != [] && jobs[|jobs| - 1] == Job(p.data, p.written)
      && p.base == Flatten(jobs[..|jobs| - 1])
  }

  predicate CallsOk(w: Watched) {
    Inv(w.s) && JobOk(w.s.prod, w.jobs) && w.s.log.published == Flatten(w.jobs)
  }

  lemma AcquireIs(s: State, a: Action)
    requires Step(s, a).Some? && a.Write? && a.w.Acquire?
    ensures var t := Step(s, a).value;
            && !t.prod.writer.Free? && t.prod.data == a.w.data && t.prod.written == 0
            && t.prod.base == s.log.published && t.log.published == s.log.published
  {
    hide Incr, FreeMeasure, SpaceSplit, EngineStep, ReleaseStep;
  }

  lemma AcquireKeepsOk(w: Watched, a: Action)
    requires CallsOk(w) && Watch(w, a).Some? && a.Write? && a.w.Acquire?
    ensures CallsOk(Watch(w, a).value)
  {
    StepKeepsInv(w.s, a);
    AcquireIs(w.s, a);
    hide Inv, Step, Flatten;
    NewJob(w.jobs, a.w.data);
  }

  lemma NewJob(jobs: seq<Job>, data: seq<byte>)
    ensures var more := jobs + [Job(data, 0)];
            && more != [] && more[|more| - 1] == Job(data, 0) && more[..|more| - 1] == jobs
            && Flatten(more) == Flatten(jobs)
  {
    var more := jobs + [Job(data, 0)];
    assert more[..|more| - 1] == jobs && Part(more[|more| - 1]) == [];
  }

  lemma PublishKeepsOk(w: Watched, a: Action)
    requires CallsOk(w) && Watch(w, a).Some? && a.Write? && a.w.Publish?
    ensures CallsOk(Watch(w, a).value)
  {
    StepKeepsInv(w.s, a);
    PublishIs(w.s);
    var t := Step(w.s, a).value;
    assert StreamOk(t.page, t.prod, t.log);
    hide Inv, Step, Contents, Incr, StreamOk, Flatten, Part;
    AcceptedPart(w.jobs, t.prod.written);
  }

  lemma AcceptedPart(jobs: seq<Job>, n: nat)
    requires jobs != []
    ensures var more, last := Accept(jobs, n), jobs[|jobs| - 1].(accepted := n);
            && more != [] && more[|more| - 1] == last && more[..|more| - 1] == jobs[..|jobs| - 1]
            && Flatten(more) == Flatten(jobs[..|jobs| - 1]) + Part(last)
  {
    var more := Accept(jobs, n);
    assert more[..|more| - 1] == jobs[..|jobs| - 1];
  }

  lemma OtherKeepsOk(w: Watched, a: Action)
    requires CallsOk(w) && Watch(w, a).Some? && !(a.Write? && (a.w.Acquire? || a.w.Publish?))
    ensures CallsOk(Watch(w, a).value)
  {
    StepKeepsInv(w.s, a);
    KeepsJob(w.s, a);
    hide Inv, Step, Flatten;
  }

  /** The other steps publish nothing, and leave the job of the writer inside alone. */
  lemma KeepsJob(s: State, a: Action)
    requires Step(s, a).Some? && !(a.Write? && (a.w.Acquire? || a.w.Publish?))
    ensures var t := Step(s, a).value;
            && t.log.published == s.log.published && t.prod.data == s.prod.data && t.prod.written == s.prod.written
            && t.prod.base == s.prod.base && (s.prod.writer.Free? ==> t.prod.writer.Free?)
  {
    hide Incr, FreeMeasure, SpaceSplit, EngineStep, ReleaseStep;
  }

  lemma WatchKeepsOk(w: Watched, a: Action)
    requires CallsOk(w) && Watch(w, a).Some?
    ensures CallsOk(Watch(w, a).value)
  {
    hide CallsOk, Watch;
    if a.Write? && a.w.Acquire? {
      AcquireKeepsOk(w, a);
    } else if a.Write? && a.w.Publish? {
      PublishKeepsOk(w, a);
    } else {
      OtherKeepsOk(w, a);
    }
  }

  lemma WatchRunOk(buf: seq<byte>, run: seq<Action>)
    requires 4 <= |buf| && Exec(Watch, Watched(Init(buf), []), run).Some?
    ensures CallsOk(Exec(Watch, Watched(Init(buf), []), run).value)
  {
    InitInv(buf);
    assert CallsOk(Watched(Init(buf), []));
    forall x, a | CallsOk(x) && Watch(x, a).Some? ensures CallsOk(Watch(x, a).value) {
      WatchKeepsOk(x, a);
    }
    hide CallsOk, Watch;
    InvariantOverRun(Watch, CallsOk, Watched(Init(buf), []), run);
  }

  /** The jobs of a run hold the data of its write actions, in order. */
  function Acquired(run: seq<Action>): seq<seq<byte>>
    decreases |run|
  {
    if run == [] then []
    else (if run[0].Write? && run[0].w.Acquire? then [run[0].w.data] else []) + Acquired(run[1..])
  }

  function DataOf(jobs: seq<Job>): seq<seq<byte>> {
    seq(|jobs|, i requires 0 <= i < |jobs| => jobs[i].data)
  }

  lemma ObserveData(jobs: seq<Job>, a: Action, t: State)
    ensures DataOf(Observe(jobs, a, t)) == DataOf(jobs) + (if a.Write? && a.w.Acquire? then [a.w.data] else [])
  {
  }

  lemma {:induction false} JobsAreActions(w: Watched, run: seq<Action>)
    requires Exec(Watch, w, run).Some?
    ensures DataOf(Exec(Watch, w, run).value.jobs) == DataOf(w.jobs) + Acquired(run)
    decreases |run|
  {
    if run != [] {
      var v := Watch(w, run[0]).value;
      ObserveData(w.jobs, run[0], v.s);
      JobsAreActions(v, run[1..]);
      Assoc(DataOf(w.jobs), if run[0].Write? && run[0].w.Acquire? then [run[0].w.data] else [], Acquired(run[1..]));
    }
  }

  // ---------- main results ----------

  /** Over every run: the bytes strobed to the port, then the page contents, are the data of the write actions in
      order, of each so much as it had accepted.  Only the writer inside may yet accept more. */
  lemma PortGetsWhatWasWritten(buf: seq<byte>, run: seq<Action>, w: Watched)
    requires 4 <= |buf| && Exec(Watch, Watched(Init(buf), []), run) == Some(w)
    ensures w.s.page.Valid() && DataOf(w.jobs) == Acquired(run)
    ensures w.s.log.strobed + Contents(w.s.page.buf, w.s.page.head, w.s.page.tail) == Flatten(w.jobs)
    ensures !w.s.prod.writer.Free? ==>
              && w.jobs != [] && w.jobs[|w.jobs| - 1] == Job(w.s.prod.data, w.s.prod.written)
              && w.s.prod.written <= |w.s.prod.data|
  {
    WatchRunOk(buf, run);
    JobsAreActions(Watched(Init(buf), []), run);
    hide Watch;
  }

  /** A shortp_write ends when all that it was called with has been accepted, or on a signal while it sleeps, and in no
      other way. */
  lemma WriteEndsIff(buf: seq<byte>, run: seq<Action>, w: Watched, a: Action)
    requires 4 <= |buf| && Exec(Watch, Watched(Init(buf), []), run) == Some(w) && Step(w.s, a).Some?
    requires !w.s.prod.writer.Free?
    ensures w.jobs != []
    ensures Step(w.s, a).value.prod.writer.Free? <==>
            || (a == Write(LoopTest) && w.jobs[|w.jobs| - 1].accepted == |w.jobs[|w.jobs| - 1].data|)
            || (a == Write(Signal) && w.s.prod.writer.Asleep?)
  {
    hide Watch, Flatten, Step, StreamOk, StallOk, SleepOk, ReleaseOk;
    WatchRunOk(buf, run);
    FreeIff(w.s, a);
  }

  lemma FreeIff(s: State, a: Action)
    requires s.prod.written <= |s.prod.data| && !s.prod.writer.Free? && Step(s, a).Some?
    ensures Step(s, a).value.prod.writer.Free? <==>
            || (a == Write(LoopTest) && s.prod.written == |s.prod.data|)
            || (a == Write(Signal) && s.prod.writer.Asleep?)
  {
    hide Incr, FreeMeasure, SpaceSplit, EngineStep, ReleaseStep;
  }

  /** With the two reads of the tail back to back, a writer takes on as much as is left of its job, fits before the end
      of the page, and leaves one slot free; and waits exactly when the page is full. */
  lemma ChunkIsExact(buf: seq<byte>, run: seq<Action>, w: Watched)
    requires 4 <= |buf| && Exec(Watch, Watched(Init(buf), []), run) == Some(w) && w.s.prod.writer.Read?
    ensures w.s.page.Valid() && w.jobs != []
    ensures Step(w.s, Write(ReadTail)).Some?
    ensures Step(Step(w.s, Write(ReadTail)).value, Write(ReadTailAgain)).Some?
    ensures var t := Step(Step(w.s, Write(ReadTail)).value, Write(ReadTailAgain)).value;
            var job, n := w.jobs[|w.jobs| - 1], |w.s.page.buf|;
            var room := Min(n - w.s.page.head, n - 1 - w.s.page.Used());
            && (t.prod.writer.Copy? <==> w.s.page.Used() < n - 1)
            && (t.prod.writer.Copy? ==> t.prod.writer.space == Min(room, |job.data| - job.accepted))
  {
    WatchRunOk(buf, run);
    hide Inv, Flatten, Watch;
    ChunkIs(w.s);
  }

  lemma ChunkIs(s: State)
    requires s.page.Valid() && s.prod.written <= |s.prod.data| && s.prod.writer.Read?
    ensures Step(s, Write(ReadTail)).Some? && Step(Step(s, Write(ReadTail)).value, Write(ReadTailAgain)).Some?
    ensures var t := Step(Step(s, Write(ReadTail)).value, Write(ReadTailAgain)).value;
            var n := |s.page.buf|;
            var room := Min(n - s.page.head, n - 1 - s.page.Used());
            && (t.prod.writer.Copy? <==> s.page.Used() < n - 1)
            && (t.prod.writer.Copy? ==> t.prod.writer.space == Min(room, |s.prod.data| - s.prod.written))
  {
  }

  /** A sleeping writer is woken when the work item leaves the page with something in it and less than half full, or by
      a signal, and by nothing else. */
  lemma WriterStaysAsleepIff(s: State, a: Action)
    requires s.prod.writer.Asleep? && s.prod.onQueue && s.page.Valid() && Step(s, a).Some?
    ensures var t := Step(s, a).value;
            (t.prod.writer.Asleep? && t.prod.onQueue) <==>
            !(a == Write(Signal)
              || (a == Work(WorkMeasure) && 0 < s.page.Used() < |s.page.buf| - |s.page.buf| / 2))
  {
    FreeMeasureIs(|s.page.buf|, s.page.head, s.page.tail);
    hide FreeMeasure, EngineStep, ReleaseStep, Incr;
  }

  /** A process leaves shortp_release when it finds the engine inactive, or on a signal, and in no other way. */
  lemma ReleaseEndsIff(s: State, a: Action, p: Pid)
    requires p in s.closers.pc && Step(s, a).Some?
    ensures p !in Step(s, a).value.closers.pc <==>
            || (a == Release(Advance(p)) && !s.eng.active && (s.closers.pc[p].Entry? || s.closers.pc[p].Check?))
            || (a == Release(Interrupted(p)) && s.closers.pc[p].Sleeping?)
  {
    hide FreeMeasure, EngineStep, Incr, SpaceSplit;
  }

  /** A process asleep in shortp_release is woken when the work item has found the page empty, or by a signal, and by
      nothing else. */
  lemma ReleaserStaysAsleepIff(s: State, a: Action, p: Pid)
    requires p in s.closers.pc && s.closers.pc[p].Sleeping? && p in s.closers.queue && Step(s, a).Some?
    ensures var t := Step(s, a).value;
            (p in t.closers.pc && t.closers.pc[p].Sleeping? && p in t.closers.queue) <==>
            !(a == Work(WorkWake) || a == Release(Interrupted(p)))
  {
    hide FreeMeasure, EngineStep, Incr, SpaceSplit;
  }

  /** Every run of the machine is observed. */
  lemma EveryRunIsWatched(w: Watched, run: seq<Action>)
    requires Exec(Step, w.s, run).Some?
    ensures Exec(Watch, w, run).Some? && Exec(Watch, w, run).value.s == Exec(Step, w.s, run).value
  {
    hide Step;
    ObserverFollows(Step, Watch, (x: Watched) => x.s, w, run);
  }
}
