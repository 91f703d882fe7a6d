/** What every run of the shortprint engine keeps, and the one case in which a sleeping writer is lost. */
module PrinterTheorems {
  import opened Basics
  import opened Runs
  import opened PrinterRing
  import opened Printer

  /** Bytes strobed to the port, then the page contents, are the bytes published by head advances; a writer's
      bytes stand together; and the chunk being filled is clear of every published byte. */
  lemma RingSafety(buf: seq<byte>, run: seq<Action>, s: State)
    requires 4 <= |buf| && Exec(Step, Init(buf), run) == Some(s)
    ensures s.page.Valid() && s.prod.written <= |s.prod.data|
    ensures s.log.published == s.log.strobed + Contents(s.page.buf, s.page.head, s.page.tail)
    ensures !s.prod.writer.Free? ==> s.log.published == s.prod.base + s.prod.data[..s.prod.written]
    ensures s.prod.writer.Copy? ==>
              var end := Incr(|s.page.buf|, s.page.head, Min(s.prod.writer.space, |s.page.buf|));
              end != s.page.tail && s.prod.writer.space <= |s.page.buf| - 1 - s.page.Used()
  {
    InitInv(buf);
    RunKeepsInv(Init(buf), run);
    if s.prod.writer.Copy? {
      PublishAppends(s.page.buf, s.page.head, s.page.tail, s.prod.writer.space);
    }
  }

  lemma StepGrowsHistory(s: State, a: Action)
    requires Inv(s) && Step(s, a).Some?
    ensures s.log.published <= Step(s, a).value.log.published
    ensures s.log.strobed <= Step(s, a).value.log.strobed
  {
    if a.Write? && a.w.Publish? {
      PublishIs(s);
      hide WriterStep;
    } else if a.Work? && a.k.WorkStrobe? {
      StrobeIs(s);
      hide WorkerStep;
    } else {
      hide Inv, EngineStep, ReleaseStep, Incr, FreeMeasure, SpaceSplit;
      assert Step(s, a).value.log == s.log;
    }
  }

  lemma {:induction false} HistoryGrows(s: State, run: seq<Action>)
    requires Inv(s) && Exec(Step, s, run).Some?
    ensures s.log.published <= Exec(Step, s, run).value.log.published
    ensures s.log.strobed <= Exec(Step, s, run).value.log.strobed
    decreases |run|
  {
    if run != [] {
      var t := Step(s, run[0]).value;
      StepKeepsInv(s, run[0]);
      StepGrowsHistory(s, run[0]);
      HistoryGrows(t, run[1..]);
    }
  }

  /** Whatever happens later, the bytes published so far are the next ones to come out, in that order. */
  lemma PublishedBytesComeOutFirst(s: State, run: seq<Action>)
    requires Inv(s) && Exec(Step, s, run).Some?
    ensures var t := Exec(Step, s, run).value;
            t.page.Valid() && s.log.published <= t.log.strobed + Contents(t.page.buf, t.page.head, t.page.tail)
  {
    HistoryGrows(s, run);
    RunKeepsInv(s, run);
  }

  /** No stalled printer: bytes with nobody printing them belong to a writer about to start the engine, and an
      active engine always has a timer, a work item or a handler that will look at it again. */
  lemma NoStall(buf: seq<byte>, run: seq<Action>, s: State)
    requires 4 <= |buf| && Exec(Step, Init(buf), run) == Some(s)
    ensures s.page.head != s.page.tail && !s.eng.active ==> s.prod.writer.MustStart?
    ensures s.eng.active ==> s.eng.Driven()
  {
    InitInv(buf);
    RunKeepsInv(Init(buf), run);
  }

  /** An uninterrupted shortp_release that returns while no writer is past its head advance has drained
      everything that was ever published. */
  lemma ReleaseDrains(buf: seq<byte>, run: seq<Action>, s: State, p: Pid, t: State)
    requires 4 <= |buf| && Exec(Step, Init(buf), run) == Some(s)
    requires Step(s, Release(Advance(p))) == Some(t) && p in s.closers.pc && p !in t.closers.pc
    requires !s.prod.writer.MustStart?
    ensures t.log.strobed == t.log.published
  {
    NoStall(buf, run, s);
    RingSafety(buf, run, s);
  }

  /** A process asleep in shortp_release while output is inactive is about to be woken. */
  lemma ReleaserIsWoken(buf: seq<byte>, run: seq<Action>, s: State, p: Pid)
    requires 4 <= |buf| && Exec(Step, Init(buf), run) == Some(s)
    requires p in s.closers.queue && p in s.closers.pc && s.closers.pc[p].Sleeping? && !s.eng.active
    ensures s.eng.worker.Cleared? && Step(s, Work(WorkWake)).Some?
    ensures p !in Step(s, Work(WorkWake)).value.closers.queue
  {
    InitInv(buf);
    RunKeepsInv(Init(buf), run);
  }

  /** What the text of shortp_write does next. */
  function WriterNext(p: Producer): WriterAction {
    match p.writer
    case Free => Acquire([])
    case Top => LoopTest
    case Read(_) => ReadTail
    case ReadAgain(_, _) => ReadTailAgain
    case Enqueue => JoinQueue
    case Asleep => Resume
    case Copy(space, done) => if done < space then CopyByte else Publish
    case MustStart => StartCheck
  }

  /** The writer stops nowhere else: in every reachable state its next step is possible unless it is at the taken
      spinlock, or asleep and not woken. */
  lemma WriterStopsOnlyToWait(buf: seq<byte>, run: seq<Action>, s: State)
    requires 4 <= |buf| && Exec(Step, Init(buf), run) == Some(s)
    ensures Step(s, Write(WriterNext(s.prod))).None? <==>
            (s.prod.writer.MustStart? && s.eng.Locked()) || (s.prod.writer.Asleep? && s.prod.onQueue)
  {
    InitInv(buf);
    RunKeepsInv(Init(buf), run);
  }

  // ---------- the sleeping writer ----------

  /** Both reads of the tail happen back to back. */
  predicate AtomicReads(run: seq<Action>) {
    forall i :: 0 <= i < |run| && run[i] == Write(ReadTail) ==> i + 1 < |run| && run[i + 1] == Write(ReadTailAgain)
  }

  /** A writer that sleeps unwoken still has the waking threshold ahead of it. */
  predicate Wakeable(s: State)
    requires s.page.Valid()
  {
    s.prod.writer.Asleep? && s.prod.onQueue ==> WakeToCome(s.page, s.eng.worker.Measure?)
  }

  lemma WriteKeepsWakeable(s: State, w: WriterAction)
    requires WriterOk(s.page, s.prod) && Wakeable(s) && !s.prod.writer.ReadAgain?
    requires w != ReadTail && WriterStep(s, w).Some?
    ensures WriterStep(s, w).value.page.Valid() ==> Wakeable(WriterStep(s, w).value)
    ensures !WriterStep(s, w).value.prod.writer.ReadAgain?
  {
    hide WakeToCome, CopyOk;
  }

  lemma WorkKeepsWakeable(s: State, k: WorkerAction)
    requires s.page.Valid() && Wakeable(s) && !s.prod.writer.ReadAgain? && WorkerStep(s, k).Some?
    requires s.eng.worker.FoundData? ==> s.page.head != s.page.tail
    ensures WorkerStep(s, k).value.page.Valid() && Wakeable(WorkerStep(s, k).value)
    ensures !WorkerStep(s, k).value.prod.writer.ReadAgain?
  {
    hide Contents, FreeMeasure, Occupied, Incr, Wakeable;
    match k
    case WorkStrobe => StrobeKeepsWakeable(s);
    case WorkMeasure => MeasureKeepsWakeable(s);
    case _ => LookKeepsWakeable(s, k);
  }

  lemma StrobeKeepsWakeable(s: State)
    requires s.page.Valid() && Wakeable(s) && WorkerStep(s, WorkStrobe).Some? && s.page.head != s.page.tail
    ensures WorkerStep(s, WorkStrobe).value.page.Valid() && Wakeable(WorkerStep(s, WorkStrobe).value)
  {
    hide Contents, FreeMeasure, Occupied, Incr;
    StrobeLeavesOneFewer(s.page.buf, s.page.head, s.page.tail);
  }

  lemma StrobeLeavesOneFewer(buf: seq<byte>, head: nat, tail: nat)
    requires head < |buf| && tail < |buf| && head != tail
    ensures Incr(|buf|, tail, 1) < |buf|
    ensures Occupied(|buf|, head, Incr(|buf|, tail, 1)) == Occupied(|buf|, head, tail) - 1
  {
  }

  lemma MeasureKeepsWakeable(s: State)
    requires s.page.Valid() && Wakeable(s) && WorkerStep(s, WorkMeasure).Some?
    ensures Wakeable(WorkerStep(s, WorkMeasure).value)
  {
    FreeMeasureIs(|s.page.buf|, s.page.head, s.page.tail);
    hide Contents, FreeMeasure;
  }

  lemma LookKeepsWakeable(s: State, k: WorkerAction)
    requires s.page.Valid() && Wakeable(s) && WorkerStep(s, k).Some? && !k.WorkStrobe? && !k.WorkMeasure?
    ensures WorkerStep(s, k).value.page.Valid() && Wakeable(WorkerStep(s, k).value)
  {
    hide Contents, FreeMeasure, Occupied;
  }

  lemma IdleStepKeepsWakeable(s: State, a: Action)
    requires s.page.Valid() && Wakeable(s) && !s.prod.writer.ReadAgain? && Step(s, a).Some? && (a.Irq? || a.Release?)
    ensures Step(s, a).value.page.Valid() && Wakeable(Step(s, a).value) && !Step(s, a).value.prod.writer.ReadAgain?
  {
    if a.Irq? {
      assert EngineStep(s.eng, a.e).value.worker == s.eng.worker;
    }
    hide WakeToCome, ReleaseStep;
  }

  lemma OtherStepKeepsWakeable(s: State, a: Action)
    requires Inv(s) && Wakeable(s) && !s.prod.writer.ReadAgain? && Step(s, a).Some? && a != Write(ReadTail)
    ensures Inv(Step(s, a).value) && Wakeable(Step(s, a).value) && !Step(s, a).value.prod.writer.ReadAgain?
  {
    StepKeepsInv(s, a);
    hide StreamOk, SleepOk, ReleaseOk, WriterStep, WorkerStep, EngineStep, ReleaseStep, Wakeable;
    match a {
      case Write(w) => WriteKeepsWakeable(s, w);
      case Work(k) => WorkKeepsWakeable(s, k);
      case _ => IdleStepKeepsWakeable(s, a);
    }
  }

  lemma BothReadsAre(s: State)
    requires Step(s, Write(ReadTail)).Some? && Step(Step(s, Write(ReadTail)).value, Write(ReadTailAgain)).Some?
    ensures s.page.Valid() && s.prod.written <= |s.prod.data| && s.prod.writer.Read?
    ensures var t := Step(Step(s, Write(ReadTail)).value, Write(ReadTailAgain)).value;
            var space := SpaceSplit(|s.page.buf|, s.page.head, s.page.tail, s.page.tail);
            && t.page == s.page && t.eng == s.eng && !t.prod.writer.ReadAgain?
            && (t.prod.writer.Asleep? ==> space <= 0)
  {
    hide SpaceSplit;
  }

  lemma BothReadsKeepWakeable(s: State)
    requires Inv(s) && Wakeable(s) && Step(s, Write(ReadTail)).Some?
    requires Step(Step(s, Write(ReadTail)).value, Write(ReadTailAgain)).Some?
    ensures var t := Step(Step(s, Write(ReadTail)).value, Write(ReadTailAgain)).value;
            Inv(t) && Wakeable(t) && !t.prod.writer.ReadAgain?
  {
    BothReadsAre(s);
    StepKeepsInv(s, Write(ReadTail));
    StepKeepsInv(Step(s, Write(ReadTail)).value, Write(ReadTailAgain));
    AtomicSpaceZeroIffFull(|s.page.buf|, s.page.head, s.page.tail);
    hide Step, Inv, SpaceSplit;
  }

  /** With the two reads back to back, for every run: a sleeping writer's page is at least half full, or its
      wake-up is on its way.  So it cannot sleep through the page running empty. */
  lemma {:induction false} AtomicReadsAlwaysWoken(s: State, run: seq<Action>)
    requires Inv(s) && Wakeable(s) && !s.prod.writer.ReadAgain?
    requires AtomicReads(run) && Exec(Step, s, run).Some?
    ensures Inv(Exec(Step, s, run).value) && Wakeable(Exec(Step, s, run).value)
    decreases |run|
  {
    if run == [] {
    } else if run[0] == Write(ReadTail) {
      assert run[1] == Write(ReadTailAgain) && run[1..][0] == run[1] && run[1..][1..] == run[2..];
      var r := Step(s, run[0]).value;
      var t := Step(r, run[1]).value;
      BothReadsKeepWakeable(s);
      hide Inv, Wakeable, Step;
      assert forall i :: 0 <= i < |run[2..]| ==> run[2..][i] == run[i + 2];
      AtomicReadsAlwaysWoken(t, run[2..]);
    } else {
      OtherStepKeepsWakeable(s, run[0]);
      hide Inv, Wakeable, Step;
      assert forall i :: 0 <= i < |run[1..]| ==> run[1..][i] == run[i + 1];
      AtomicReadsAlwaysWoken(Step(s, run[0]).value, run[1..]);
    }
  }

  /** With the reads apart, the same holds whenever the head is not at the start of the page. */
  lemma WokenUnlessHeadAtStart(buf: seq<byte>, run: seq<Action>, s: State)
    requires 4 <= |buf| && Exec(Step, Init(buf), run) == Some(s)
    requires s.prod.writer.Asleep? && s.prod.onQueue
    ensures s.page.Valid()
    ensures s.page.head != 0 ==> WakeToCome(s.page, s.eng.worker.Measure?)
    ensures !WakeToCome(s.page, s.eng.worker.Measure?) <==> Stranded(s)
  {
    InitInv(buf);
    RunKeepsInv(Init(buf), run);
  }

  /** The writer sleeps, holding the semaphore, on a page that has already been printed. */
  predicate Stranded(s: State) {
    && s.page.Valid() && s.prod.written < |s.prod.data|
    && s.prod.writer.Asleep? && s.prod.onQueue
    && s.page.head == 0 == s.page.tail
    && !s.eng.worker.FoundData?
  }

  lemma StaysStranded(s: State, a: Action)
    requires Stranded(s) && Step(s, a).Some? && a != Write(Signal)
    ensures Stranded(Step(s, a).value)
  {
    match a
    case Work(k) => FreeMeasureIs(|s.page.buf|, 0, 0);
    case _ =>
  }

  /** Nothing but a signal ends it: no interrupt, timer, work item or other process wakes the writer. */
  lemma {:induction false} StrandedForGood(s: State, run: seq<Action>)
    requires Stranded(s) && Exec(Step, s, run).Some?
    requires forall i :: 0 <= i < |run| ==> run[i] != Write(Signal)
    ensures Stranded(Exec(Step, s, run).value)
    decreases |run|
  {
    if run != [] {
      StaysStranded(s, run[0]);
      assert forall i :: 0 <= i < |run[1..]| ==> run[1..][i] == run[i + 1];
      hide Stranded, Step;
      StrandedForGood(Step(s, run[0]).value, run[1..]);
    }
  }

  // ---------- a run that gets there, for every page size ----------

  lemma {:induction false} CopyAll(s: State, t: State) returns (u: State)
    requires Leads(Step, s, t) && t.page.Valid() && t.prod.writer.Copy?
    requires t.prod.writer.done <= t.prod.writer.space <= |t.page.buf| - t.page.head
    requires t.prod.written + t.prod.writer.space <= |t.prod.data|
    ensures Leads(Step, s, u) && |u.page.buf| == |t.page.buf|
    ensures var space := t.prod.writer.space;
            u == t.(page := t.page.(buf := u.page.buf), prod := t.prod.(writer := Copy(space, space)))
    decreases t.prod.writer.space - t.prod.writer.done
  {
    if t.prod.writer.done == t.prod.writer.space {
      u := t;
    } else {
      LeadsOn(Step, s, t, Write(CopyByte));
      u := CopyAll(s, Step(t, Write(CopyByte)).value);
    }
  }

  /** An interrupt and one run of the work item print one byte. */
  lemma PrintOne(s: State, t: State) returns (u: State)
    requires Leads(Step, s, t) && t.page.Valid() && t.prod.written <= |t.prod.data|
    requires t.eng.worker.Idle? && t.eng.active && t.page.head != t.page.tail
    ensures Leads(Step, s, u)
    ensures u.page == t.page.(tail := Incr(|t.page.buf|, t.page.tail, 1))
    ensures var crowded := FreeMeasure(|t.page.buf|, t.page.head, u.page.tail) <= t.page.MinSpace();
            u.prod == t.prod.(onQueue := t.prod.onQueue && crowded)
    ensures u.eng.worker.Idle? && u.eng.active
  {
    var t3 := QueueByInterrupt(s, t);
    LeadsOn(Step, s, t3, Work(WorkStart));
    var t4 := Step(t3, Work(WorkStart)).value;
    LeadsOn(Step, s, t4, Work(WorkLock));
    var t5 := Step(t4, Work(WorkLock)).value;
    LeadsOn(Step, s, t5, Work(WorkStrobe));
    var t6 := Step(t5, Work(WorkStrobe)).value;
    LeadsOn(Step, s, t6, Work(WorkMeasure));
    u := Step(t6, Work(WorkMeasure)).value;
  }

  lemma QueueByInterrupt(s: State, t: State) returns (u: State)
    requires Leads(Step, s, t) && t.page.Valid() && t.prod.written <= |t.prod.data| && t.eng.active
    ensures Leads(Step, s, u) && u == t.(eng := t.eng.(queued := true))
  {
    LeadsOn(Step, s, t, Irq(Interrupt));
    u := Step(t, Irq(Interrupt)).value;
    LeadsOn(Step, s, u, Irq(HandlerTest));
    u := Step(u, Irq(HandlerTest)).value;
    LeadsOn(Step, s, u, Irq(HandlerQueue));
    u := Step(u, Irq(HandlerQueue)).value;
  }

  /** Print until only the byte in the last slot of the page is left. */
  lemma {:induction false} PrintToLastSlot(s: State, t: State) returns (u: State)
    requires Leads(Step, s, t) && t.page.Valid() && t.prod.written <= |t.prod.data|
    requires t.eng.worker.Idle? && t.eng.active && t.page.head == 0 < t.page.tail && !t.prod.onQueue
    ensures Leads(Step, s, u) && u.page == t.page.(tail := |t.page.buf| - 1) && u.prod == t.prod
    ensures u.eng.worker.Idle? && u.eng.active
    decreases |t.page.buf| - t.page.tail
  {
    if t.page.tail == |t.page.buf| - 1 {
      u := t;
    } else {
      u := PrintOne(s, t);
      u := PrintToLastSlot(s, u);
    }
  }

  /** A first write fills the page up to its last slot, and one byte is printed. */
  lemma FillToLastSlot(buf: seq<byte>, data: seq<byte>) returns (u: State)
    requires 4 <= |buf| && |data| == |buf| + 1
    ensures Leads(Step, Init(buf), u) && |u.page.buf| == |buf| && u.page.head == |buf| - 1 && u.page.tail == 1
    ensures u.prod == Producer(Top, data, |buf| - 1, false, [])
    ensures u.eng.worker.Idle? && u.eng.active
  {
    var s := Init(buf);
    LeadsToItself(Step, s);
    LeadsOn(Step, s, s, Write(Acquire(data)));
    var s1 := Step(s, Write(Acquire(data))).value;
    LeadsOn(Step, s, s1, Write(LoopTest));
    var s2 := Step(s1, Write(LoopTest)).value;
    LeadsOn(Step, s, s2, Write(ReadTail));
    var s3 := Step(s2, Write(ReadTail)).value;
    LeadsOn(Step, s, s3, Write(ReadTailAgain));
    var s4 := Step(s3, Write(ReadTailAgain)).value;
    u := PublishFirstChunk(s, s4);
  }

  lemma PublishFirstChunk(s: State, t: State) returns (u: State)
    requires Leads(Step, s, t) && t.page.Valid() && t.page.head == 0 == t.page.tail && |t.prod.data| == |t.page.buf| + 1
    requires t.prod.writer == Copy(|t.page.buf| - 1, 0) && t.prod.written == 0 && !t.prod.onQueue
    requires t.eng == Init([]).eng
    ensures Leads(Step, s, u) && |u.page.buf| == |t.page.buf| && u.page.head == |t.page.buf| - 1 && u.page.tail == 1
    ensures u.prod == t.prod.(writer := Top, written := |t.page.buf| - 1)
    ensures u.eng.worker.Idle? && u.eng.active
  {
    u := CopyAll(s, t);
    LeadsOn(Step, s, u, Write(Publish));
    u := Step(u, Write(Publish)).value;
    LeadsOn(Step, s, u, Write(StartCheck));
    u := Step(u, Write(StartCheck)).value;
    u := PrintOne(s, u);
  }

  /** The next byte wraps the head to the start of the full page, and the writer decides to wait. */
  lemma FillAndDecideToWait(s: State, t: State) returns (u: State)
    requires Leads(Step, s, t) && t.page.Valid() && t.page.head == |t.page.buf| - 1 && t.page.tail == 1
    requires t.prod.writer.Top? && t.prod.written == |t.page.buf| - 1 && |t.prod.data| == |t.page.buf| + 1
    requires !t.prod.onQueue && t.eng.worker.Idle? && t.eng.active
    ensures Leads(Step, s, u) && |u.page.buf| == |t.page.buf| && u.page.head == 0 && u.page.tail == 1
    ensures u.prod == t.prod.(writer := Enqueue, written := |t.page.buf|)
    ensures u.eng.worker.Idle? && u.eng.active
  {
    LeadsOn(Step, s, t, Write(LoopTest));
    var t1 := Step(t, Write(LoopTest)).value;
    LeadsOn(Step, s, t1, Write(ReadTail));
    var t2 := Step(t1, Write(ReadTail)).value;
    LeadsOn(Step, s, t2, Write(ReadTailAgain));
    var t3 := Step(t2, Write(ReadTailAgain)).value;
    var t4 := CopyAll(s, t3);
    LeadsOn(Step, s, t4, Write(Publish));
    var t5 := Step(t4, Write(Publish)).value;
    LeadsOn(Step, s, t5, Write(StartCheck));
    var t6 := Step(t5, Write(StartCheck)).value;
    LeadsOn(Step, s, t6, Write(LoopTest));
    var t7 := Step(t6, Write(LoopTest)).value;
    u := FailedEvaluation(s, t7);
    u := FailedEvaluation(s, u);
  }

  lemma FailedEvaluation(s: State, t: State) returns (u: State)
    requires Leads(Step, s, t) && t.page.Valid() && t.page.head == 0 && t.page.tail == 1
    requires t.prod.writer == Read(First) || t.prod.writer == Read(Precheck)
    requires t.prod.written <= |t.prod.data|
    ensures Leads(Step, s, u)
    ensures u == t.(prod := t.prod.(writer := if t.prod.writer == Read(First) then Read(Precheck) else Enqueue))
  {
    LeadsOn(Step, s, t, Write(ReadTail));
    u := Step(t, Write(ReadTail)).value;
    LeadsOn(Step, s, u, Write(ReadTailAgain));
    u := Step(u, Write(ReadTailAgain)).value;
  }

  /** For every page size there is a run in which the last byte is printed between the two reads of the tail
      and the writer is stranded. */
  lemma StrandedReachable(buf: seq<byte>)
    requires 4 <= |buf|
    ensures exists s :: Leads(Step, Init(buf), s) && Stranded(s)
  {
    var data := seq(|buf| + 1, _ => 0 as byte);
    var init := Init(buf);
    var s := FillToLastSlot(buf, data);
    s := FillAndDecideToWait(init, s);
    s := PrintToLastSlot(init, s);
    LeadsOn(Step, init, s, Write(JoinQueue));
    s := Step(s, Write(JoinQueue)).value;
    LeadsOn(Step, init, s, Write(ReadTail));
    s := Step(s, Write(ReadTail)).value;
    s := PrintOne(init, s);
    FreeMeasureIs(|buf|, 0, 0);
    LeadsOn(Step, init, s, Write(ReadTailAgain));
    s := Step(s, Write(ReadTailAgain)).value;
    assert Stranded(s);
  }
}
