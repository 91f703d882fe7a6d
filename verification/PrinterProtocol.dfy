/** The shortprint output engine as a step machine.

    Writers are serialised by `shortp_out_sem`, so one program counter describes the writer inside; the
    rest of the processes wait at the semaphore and carry no state.  The work item, the timeout handler and
    the interrupt handlers run beside it.  Sections under `shortp_out_lock` are cut wherever another party
    may look without the lock: at the head, at the tail, at `shortp_output_active` and at the wait queues.
  */
module Printer {
  import opened Basics
  import opened PrinterRing
  import opened Runs

  /** Where shortp_out_space is being evaluated: at the loop top, in the first test of
      wait_event_interruptible, or in the test made after joining the wait queue. */
  datatype Site = First | Precheck | Queued

  datatype Writer =
    | Free                           // nobody holds shortp_out_sem
    | Top                            // at `while (written < count)`
    | Read(site: Site)               // about to read the tail for the branch
    | ReadAgain(site: Site, t1: nat) // branch taken on t1, about to read the tail for the value
    | Enqueue                        // about to join shortp_out_queue
    | Asleep                         // in schedule()
    | Copy(space: nat, done: nat)    // copy_from_user under way
    | MustStart                      // head advanced, about to look at shortp_output_active under the lock

  datatype Worker =
    | Idle
    | Ready                          // running, not yet holding the lock
    | FoundEmpty | Cleared           // lock held, empty branch: before and after clearing the flag
    | FoundData                      // lock held, about to strobe a byte
    | Measure                        // lock held, about to compare the free measure with SP_MIN_SPACE

  datatype Releaser = Entry | Join | Check | Sleeping

  /** shortp_out_buffer with its head and tail. */
  datatype Page = Page(buf: seq<byte>, head: nat, tail: nat) {
    predicate Valid() { 4 <= |buf| && head < |buf| && tail < |buf| }

    function Used(): nat
      requires Valid()
    {
      Occupied(|buf|, head, tail)
    }

    /** SP_MIN_SPACE. */
    function MinSpace(): nat { |buf| / 2 }
  }

  /** The writer inside the semaphore; `base` is what had been published when it came in. */
  datatype Producer = Producer(writer: Writer, data: seq<byte>, written: nat, onQueue: bool, base: seq<byte>)

  datatype Engine = Engine(
    active: bool, timer: bool, queued: bool, worker: Worker,
    fired: nat,     // timeout handlers before their test of the flag
    timeouts: nat,  // timeout handlers past that test, before their locked section
    entered: nat,   // interrupt handlers before their test of the flag
    stamped: nat    // interrupt handlers past it, before queue_work
  ) {
    predicate Locked() { worker.FoundEmpty? || worker.Cleared? || worker.FoundData? || worker.Measure? }

    /** Something will look at the page, or re-arm the timer, without anybody's help. */
    predicate Driven() {
      || timer || queued || worker.Ready? || worker.FoundEmpty? || worker.FoundData?
      || fired > 0 || timeouts > 0 || entered > 0 || stamped > 0
    }
  }

  /** Processes in shortp_release, and shortp_empty_queue. */
  datatype Closers = Closers(pc: map<Pid, Releaser>, queue: set<Pid>)

  /** Bytes the head has advanced over, and bytes sent to the port, since start-up. */
  datatype Log = Log(published: seq<byte>, strobed: seq<byte>)

  datatype State = State(page: Page, prod: Producer, eng: Engine, closers: Closers, log: Log)

  datatype Action = Write(w: WriterAction) | Irq(e: EngineAction) | Work(k: WorkerAction) | Release(r: ReleaseAction)
  datatype WriterAction =
    | Acquire(data: seq<byte>) | LoopTest | ReadTail | ReadTailAgain | JoinQueue | Resume | Signal
    | CopyByte | Publish | StartCheck
  datatype EngineAction =
    | TimerFires | TimeoutTest | TimeoutLocked(rearm: bool) | Interrupt | HandlerTest | HandlerQueue
  datatype WorkerAction = WorkStart | WorkLock | WorkClear | WorkWake | WorkStrobe | WorkMeasure
  datatype ReleaseAction = Enter(p: Pid) | Advance(p: Pid) | Interrupted(p: Pid)

  function Init(buf: seq<byte>): State {
    State(Page(buf, 0, 0), Producer(Free, [], 0, false, []),
          Engine(false, false, false, Idle, 0, 0, 0, 0), Closers(map[], {}), Log([], []))
  }

  /** Both outcomes of a finished evaluation of shortp_out_space. */
  function Evaluated(prod: Producer, site: Site, space: int): Producer
    requires prod.written <= |prod.data|
  {
    if space > 0 then
      prod.(writer := Copy(Min(space, |prod.data| - prod.written), 0), onQueue := false)
    else
      prod.(writer := match site case First => Read(Precheck) case Precheck => Enqueue case Queued => Asleep)
  }

  function WriterStep(s: State, a: WriterAction): Option<State>
    requires s.page.Valid() && s.prod.written <= |s.prod.data|
  {
    var Page(buf, head, tail) := s.page;
    var p := s.prod;
    match (a, p.writer)
    case (Acquire(data), Free) =>
      Some(s.(prod := Producer(Top, data, 0, false, s.log.published)))
    case (LoopTest, Top) =>
      Some(s.(prod := p.(writer := if p.written < |p.data| then Read(First) else Free)))
    case (ReadTail, Read(site)) =>
      Some(s.(prod := p.(writer := ReadAgain(site, tail))))
    case (ReadTailAgain, ReadAgain(site, t1)) =>
      Some(s.(prod := Evaluated(p, site, SpaceSplit(|buf|, head, t1, tail))))
    case (JoinQueue, Enqueue) =>
      Some(s.(prod := p.(writer := Read(Queued), onQueue := true)))
    case (Resume, Asleep) =>
      if p.onQueue then None else Some(s.(prod := p.(writer := Enqueue)))
    case (Signal, Asleep) =>
      Some(s.(prod := p.(writer := Free, onQueue := false)))
    case (CopyByte, Copy(space, done)) =>
      if done < space && head + done < |buf| && p.written + done < |p.data| then
        Some(s.(prod := p.(writer := Copy(space, done + 1)),
        page := s.page.(buf := buf[head + done := p.data[p.written + done]])))
      else
        None
    case (Publish, Copy(space, done)) =>
      if done == space <= |buf| && p.written + space <= |p.data| then
        Some(s.(prod := p.(writer := MustStart, written := p.written + space),
        page := s.page.(head := Incr(|buf|, head, space)),
        log := s.log.(published := s.log.published + p.data[p.written..p.written + space])))
      else
        None
    case (StartCheck, MustStart) =>
      if s.eng.Locked() then None
      else Some(s.(prod := p.(writer := Top),
                eng := if s.eng.active then s.eng else s.eng.(active := true, timer := true, queued := true)))
    case _ => None
  }

  function EngineStep(e: Engine, a: EngineAction): Option<Engine> {
    match a
    case TimerFires =>
      if e.timer then Some(e.(timer := false, fired := e.fired + 1)) else None
    case TimeoutTest =>
      if e.fired == 0 then None
      else Some(e.(fired := e.fired - 1, timeouts := if e.active then e.timeouts + 1 else e.timeouts))
    case TimeoutLocked(rearm) =>
      if e.timeouts == 0 || e.Locked() then None
      else if rearm then Some(e.(timeouts := e.timeouts - 1, timer := true))
      else Some(e.(timeouts := e.timeouts - 1, entered := e.entered + 1))
    case Interrupt => Some(e.(entered := e.entered + 1))
    case HandlerTest =>
      if e.entered == 0 then None
      else Some(e.(entered := e.entered - 1, stamped := if e.active then e.stamped + 1 else e.stamped))
    case HandlerQueue =>
      if e.stamped == 0 then None else Some(e.(stamped := e.stamped - 1, queued := true))
  }

  function WorkerStep(s: State, a: WorkerAction): Option<State>
    requires s.page.Valid()
  {
    var Page(buf, head, tail) := s.page;
    var e := s.eng;
    match (a, e.worker)
    case (WorkStart, Idle) =>
      if e.queued then Some(s.(eng := e.(queued := false, worker := Ready))) else None
    case (WorkLock, Ready) =>
      Some(s.(eng := e.(worker := if head == tail then FoundEmpty else FoundData)))
    case (WorkClear, FoundEmpty) =>
      Some(s.(eng := e.(worker := Cleared, active := false)))
    case (WorkWake, Cleared) =>
      Some(s.(eng := e.(worker := Measure, timer := false), closers := s.closers.(queue := {})))
    case (WorkStrobe, FoundData) =>
      Some(s.(eng := e.(worker := Measure, timer := true),
      page := s.page.(tail := Incr(|buf|, tail, 1)),
      log := s.log.(strobed := s.log.strobed + [buf[tail]])))
    case (WorkMeasure, Measure) =>
      Some(s.(eng := e.(worker := Idle),
      prod := s.prod.(onQueue := s.prod.onQueue && FreeMeasure(|buf|, head, tail) <= s.page.MinSpace())))
    case _ => None
  }

  /** shortp_release: wait_event_interruptible(shortp_empty_queue, shortp_output_active == 0). */
  function ReleaseStep(c: Closers, active: bool, a: ReleaseAction): Option<Closers> {
    match a
    case Enter(p) =>
      if p in c.pc then None else Some(c.(pc := c.pc[p := Entry]))
    case Interrupted(p) =>
      if p in c.pc && c.pc[p].Sleeping? then Some(Closers(c.pc - {p}, c.queue - {p})) else None
    case Advance(p) =>
      if p !in c.pc then None else
      match c.pc[p]
      case Entry => Some(if active then c.(pc := c.pc[p := Join]) else c.(pc := c.pc - {p}))
      case Join => Some(Closers(c.pc[p := Check], c.queue + {p}))
      case Check =>
        Some(if active then c.(pc := c.pc[p := Sleeping]) else Closers(c.pc - {p}, c.queue - {p}))
      case Sleeping =>
        if p in c.queue then None else Some(c.(pc := c.pc[p := Join]))
  }

  function Step(s: State, a: Action): Option<State> {
    if !(s.page.Valid() && s.prod.written <= |s.prod.data|) then None else
    match a
    case Write(w) => WriterStep(s, w)
    case Work(k) => WorkerStep(s, k)
    case Irq(e) =>
      (match EngineStep(s.eng, e)
       case None => None
       case Some(eng) => Some(s.(eng := eng)))
    case Release(r) =>
      (match ReleaseStep(s.closers, s.eng.active, r)
       case None => None
       case Some(closers) => Some(s.(closers := closers)))
  }

  // ---------- invariants ----------

  /** What the writer knows holds whatever the consumer did since. */
  predicate WriterOk(page: Page, p: Producer) {
    && page.Valid()
    && p.written <= |p.data|
    && (p.writer.Read? || p.writer.ReadAgain? || p.writer.Enqueue? || p.writer.Asleep? ==> p.written < |p.data|)
    && (p.writer.ReadAgain? ==>
          p.writer.t1 < |page.buf| && page.Used() <= Occupied(|page.buf|, page.head, p.writer.t1))
    && (p.writer.Copy? ==> CopyOk(page, p))
  }

  predicate CopyOk(page: Page, p: Producer)
    requires page.Valid() && p.writer.Copy?
  {
    var Copy(space, done) := p.writer;
    && done <= space && 0 < space <= |page.buf| - page.head && space <= |page.buf| - 1 - page.Used()
    && space <= |p.data| - p.written
    && page.buf[page.head..page.head + done] == p.data[p.written..p.written + done]
  }

  predicate StreamOk(page: Page, p: Producer, log: Log) {
    && page.Valid()
    && p.written <= |p.data|
    && log.published == log.strobed + Contents(page.buf, page.head, page.tail)
    && (!p.writer.Free? ==> log.published == p.base + p.data[..p.written])
  }

  predicate StallOk(empty: bool, mustStart: bool, e: Engine) {
    && (!empty && (!e.active || e.worker.FoundEmpty?) ==> mustStart)
    && (e.worker.FoundData? ==> !empty)
    && (e.worker.Cleared? ==> !e.active)
    && (e.active ==> e.Driven())
  }

  /** The page is at least half full, or the wake-up for crossing the threshold is about to be sent. */
  predicate WakeToCome(page: Page, measuring: bool)
    requires page.Valid()
  {
    page.Used() >= |page.buf| - page.MinSpace() || (measuring && page.Used() > 0)
  }

  predicate SleepOk(page: Page, p: Producer, measuring: bool) {
    && page.Valid()
    && (p.onQueue ==>
          match p.writer
          case Read(Queued) => true
          case ReadAgain(Queued, t1) =>
            && t1 < |page.buf|
            && (|| page.tail == t1
                || WakeToCome(page, measuring)
                || (page.Used() == 0 && page.tail == Incr(|page.buf|, t1, 1)))
          case Asleep => WakeToCome(page, measuring) || (page.Used() == 0 && page.head == 0)
          case _ => false)
  }

  predicate ReleaseOk(c: Closers, e: Engine) {
    && (forall p :: p in c.queue ==> p in c.pc && (c.pc[p].Check? || c.pc[p].Sleeping?))
    && (forall p :: p in c.queue && c.pc[p].Sleeping? ==> e.active || e.worker.Cleared?)
  }

  predicate Inv(s: State) {
    && WriterOk(s.page, s.prod)
    && StreamOk(s.page, s.prod, s.log)
    && StallOk(s.page.head == s.page.tail, s.prod.writer.MustStart?, s.eng)
    && SleepOk(s.page, s.prod, s.eng.worker.Measure?)
    && ReleaseOk(s.closers, s.eng)
  }

  lemma InitInv(buf: seq<byte>)
    requires 4 <= |buf|
    ensures Inv(Init(buf))
  {
  }

  lemma EvaluationKeepsInv(s: State)
    requires Inv(s) && s.prod.writer.ReadAgain?
    ensures Inv(WriterStep(s, ReadTailAgain).value)
  {
    var t1 := s.prod.writer.t1;
    var Page(buf, head, tail) := s.page;
    if SpaceSplit(|buf|, head, t1, tail) > 0 {
      SplitSpaceIsSafe(|buf|, head, t1, tail);
    } else {
      AtomicSpaceZeroIffFull(|buf|, head, tail);
    }
  }

  lemma OneMore(buf: seq<byte>, head: nat, data: seq<byte>, from: nat, done: nat)
    requires head + done < |buf| && from + done < |data| && buf[head..head + done] == data[from..from + done]
    ensures buf[head + done := data[from + done]][head..head + done + 1] == data[from..from + done + 1]
  {
    var b := data[from + done];
    assert buf[head + done := b][head..head + done + 1] == buf[head..head + done] + [b];
    assert data[from..from + done + 1] == data[from..from + done] + [b];
  }

  lemma CopyByteIs(s: State)
    requires s.page.Valid() && s.prod.written <= |s.prod.data| && s.prod.writer.Copy? && WriterStep(s, CopyByte).Some?
    ensures var Copy(space, done) := s.prod.writer;
            && done < space && s.page.head + done < |s.page.buf| && s.prod.written + done < |s.prod.data|
            && WriterStep(s, CopyByte).value == s.(prod := s.prod.(writer := Copy(space, done + 1)),
               page := s.page.(buf := s.page.buf[s.page.head + done := s.prod.data[s.prod.written + done]]))
  {
  }

  lemma CopyByteKeepsInv(s: State)
    requires Inv(s) && s.prod.writer.Copy? && WriterStep(s, CopyByte).Some?
    ensures Inv(WriterStep(s, CopyByte).value)
  {
    var Copy(space, done) := s.prod.writer;
    var Page(buf, head, tail) := s.page;
    CopyByteIs(s);
    OneMore(buf, head, s.prod.data, s.prod.written, done);
    FillKeepsContents(buf, head, tail, space, done, s.prod.data[s.prod.written + done]);
    hide Contents, WriterStep, StallOk, ReleaseOk;
  }

  lemma PublishKeepsInv(s: State)
    requires Inv(s) && s.prod.writer.Copy? && WriterStep(s, Publish).Some?
    ensures Inv(WriterStep(s, Publish).value)
  {
    PublishAppends(s.page.buf, s.page.head, s.page.tail, s.prod.writer.space);
    PublishKeepsStream(s);
    hide StreamOk, Contents;
  }

  lemma PublishIs(s: State)
    requires s.page.Valid() && s.prod.written <= |s.prod.data| && s.prod.writer.Copy? && WriterStep(s, Publish).Some?
    ensures var t, space := WriterStep(s, Publish).value, s.prod.writer.space;
            && space <= |s.page.buf| && s.prod.written + space <= |s.prod.data|
            && t.page == s.page.(head := Incr(|s.page.buf|, s.page.head, space))
            && t.prod == s.prod.(writer := MustStart, written := s.prod.written + space)
            && t.log == s.log.(published := s.log.published + s.prod.data[s.prod.written..s.prod.written + space])
  {
  }

  lemma Grow(whole: seq<byte>, front: seq<byte>, back: seq<byte>, longer: seq<byte>, chunk: seq<byte>)
    requires whole == front + back && longer == back + chunk
    ensures whole + chunk == front + longer
  {
  }

  lemma MatchingChunk(s: State)
    requires WriterOk(s.page, s.prod) && s.prod.writer.Copy? && WriterStep(s, Publish).Some?
    ensures var from, space := s.prod.written, s.prod.writer.space;
            && from + space <= |s.prod.data| && s.page.head + space <= |s.page.buf|
            && s.page.buf[s.page.head..s.page.head + space] == s.prod.data[from..from + space]
            && s.prod.data[..from + space] == s.prod.data[..from] + s.prod.data[from..from + space]
  {
  }

  lemma PublishKeepsStream(s: State)
    requires WriterOk(s.page, s.prod) && StreamOk(s.page, s.prod, s.log)
    requires s.prod.writer.Copy? && WriterStep(s, Publish).Some?
    ensures var t := WriterStep(s, Publish).value; StreamOk(t.page, t.prod, t.log)
  {
    var Page(buf, head, tail) := s.page;
    var from, space := s.prod.written, s.prod.writer.space;
    var chunk := s.prod.data[from..from + space];
    PublishIs(s);
    PublishAppends(buf, head, tail, space);
    MatchingChunk(s);
    var next := Incr(|buf|, head, space);
    hide Contents, Incr, WriterStep, WriterOk, CopyOk;
    Grow(s.log.published, s.log.strobed, Contents(buf, head, tail), Contents(buf, next, tail), chunk);
    if !s.prod.writer.Free? {
      Grow(s.log.published, s.prod.base, s.prod.data[..from], s.prod.data[..from + space], chunk);
    }
  }

  lemma WriterKeepsInv(s: State, a: WriterAction)
    requires Inv(s) && WriterStep(s, a).Some?
    ensures Inv(WriterStep(s, a).value)
  {
    match a
    case ReadTailAgain => EvaluationKeepsInv(s);
    case CopyByte => CopyByteKeepsInv(s);
    case Publish => PublishKeepsInv(s);
    case _ =>
  }

  lemma StrobeIs(s: State)
    requires s.page.Valid() && WorkerStep(s, WorkStrobe).Some?
    ensures var t := WorkerStep(s, WorkStrobe).value;
            && t.page == s.page.(tail := Incr(|s.page.buf|, s.page.tail, 1)) && t.prod == s.prod
            && t.log == s.log.(strobed := s.log.strobed + [s.page.buf[s.page.tail]])
            && s.eng.worker.FoundData? && t.eng == s.eng.(worker := Measure, timer := true) && t.closers == s.closers
  {
  }

  lemma StrobeKeepsInv(s: State)
    requires Inv(s) && WorkerStep(s, WorkStrobe).Some?
    ensures Inv(WorkerStep(s, WorkStrobe).value)
  {
    StrobeIs(s);
    StrobeKeepsWriter(s.page, s.prod);
    StrobeKeepsSleep(s.page, s.prod);
    StrobeKeepsStream(s);
    hide StreamOk, WriterOk, SleepOk, WorkerStep, Incr;
  }

  lemma StrobeKeepsWriter(page: Page, p: Producer)
    requires WriterOk(page, p) && page.head != page.tail
    ensures WriterOk(page.(tail := Incr(|page.buf|, page.tail, 1)), p)
  {
    ConsumeTakesOldest(page.buf, page.head, page.tail);
    hide Contents;
  }

  lemma StrobeKeepsSleep(page: Page, p: Producer)
    requires SleepOk(page, p, false) && WriterOk(page, p) && page.head != page.tail
    ensures SleepOk(page.(tail := Incr(|page.buf|, page.tail, 1)), p, true)
  {
    ConsumeTakesOldest(page.buf, page.head, page.tail);
    hide Contents, CopyOk;
  }

  lemma StrobeKeepsStream(s: State)
    requires StreamOk(s.page, s.prod, s.log) && WorkerStep(s, WorkStrobe).Some? && s.page.head != s.page.tail
    ensures var t := WorkerStep(s, WorkStrobe).value; StreamOk(t.page, t.prod, t.log)
  {
    var Page(buf, head, tail) := s.page;
    StrobeIs(s);
    ConsumeTakesOldest(buf, head, tail);
    Assoc(s.log.strobed, [buf[tail]], Contents(buf, head, Incr(|buf|, tail, 1)));
    assert Incr(|buf|, tail, 1) < |buf|;
    hide Contents, Incr, WorkerStep;
  }

  lemma WorkerKeepsInv(s: State, a: WorkerAction)
    requires Inv(s) && WorkerStep(s, a).Some?
    ensures Inv(WorkerStep(s, a).value)
  {
    match a
    case WorkStrobe => StrobeKeepsInv(s);
    case WorkMeasure => FreeMeasureIs(|s.page.buf|, s.page.head, s.page.tail);
    case _ =>
  }

  lemma IrqKeepsInv(s: State, e: EngineAction)
    requires Inv(s) && Step(s, Irq(e)).Some?
    ensures Inv(Step(s, Irq(e)).value)
  {
    assert EngineStep(s.eng, e).value.worker == s.eng.worker;
    hide WriterOk, StreamOk, SleepOk;
  }

  lemma ReleaseKeepsInv(s: State, r: ReleaseAction)
    requires Inv(s) && Step(s, Release(r)).Some?
    ensures Inv(Step(s, Release(r)).value)
  {
    hide WriterOk, StreamOk, StallOk, SleepOk;
  }

  lemma StepKeepsInv(s: State, a: Action)
    requires Inv(s) && Step(s, a).Some?
    ensures Inv(Step(s, a).value)
  {
    hide WriterStep, WorkerStep, StreamOk, StallOk, SleepOk, ReleaseOk;
    match a
    case Write(w) => WriterKeepsInv(s, w);
    case Work(k) => WorkerKeepsInv(s, k);
    case Irq(e) => IrqKeepsInv(s, e);
    case Release(r) => ReleaseKeepsInv(s, r);
  }

  /** The invariants survive every run, whatever the interleaving. */
  lemma RunKeepsInv(s: State, run: seq<Action>)
    requires Inv(s) && Exec(Step, s, run).Some?
    ensures Inv(Exec(Step, s, run).value)
  {
    forall x, a | Inv(x) && Step(x, a).Some? ensures Inv(Step(x, a).value) {
      StepKeepsInv(x, a);
    }
    InvariantOverRun(Step, Inv, s, run);
  }
}
