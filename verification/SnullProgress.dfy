/** Accounting over every run of snull, and what NAPI mode needs for a queued packet to be polled. */
module SnullProgress {
  import opened Basics
  import opened Runs
  import opened Snull

  // ---------- accounting ----------

  /** 1 while a packet taken from the pool has not yet been counted as sent. */
  function Uncounted(l: Lane): nat {
    match l.tx
    case Idle => 0
    case Handle(OnSelf) => if l.txBit then 1 else 0
    case Push(OnSelf, _) => 0
    case Check(OnSelf, _) => 0
    case Look(OnSelf, _) => 0
    case Wake(OnSelf, _) => 0
    case _ => 1
  }

  predicate AccountOk(l: Lane) {
    && (l.txBit ==> l.tx == Handle(OnSelf))
    && l.stats.sent == l.stats.txPackets + Uncounted(l)
    && l.stats.sent == l.stats.rxPackets + l.stats.rxDropped + |l.stock.queue| + (if l.tx.Have? then 1 else 0)
  }

  predicate AccountsOk(s: State) {
    AccountOk(s.a) && AccountOk(s.b)
  }

  lemma HandleRxKeepsCount(napi: bool, l: Lane, granted: bool)
    ensures var h := HandleRx(napi, l, granted);
            && h.lane.stats.rxPackets + h.lane.stats.rxDropped + |h.lane.stock.queue|
               == l.stats.rxPackets + l.stats.rxDropped + |l.stock.queue|
            && h.lane.stats.sent == l.stats.sent && h.lane.stats.txPackets == l.stats.txPackets
            && h.lane.txBit == l.txBit && h.lane.tx == l.tx
  {
  }

  lemma HandleKeepsAccounts(s: State, granted: bool)
    requires AccountsOk(s) && s.a.tx.Handle?
    ensures AccountsOk(GoA(s, granted).value)
  {
    HandleRxKeepsCount(s.napi, if s.a.tx.stage.OnTwin? then s.a else s.b, granted);
  }

  lemma SendKeepsAccounts(s: State, granted: bool)
    requires AccountsOk(s) && (s.a.tx.Have? || s.a.tx.Queued? || s.a.tx.RaiseRx? || s.a.tx.Raise?)
    ensures AccountsOk(GoA(s, granted).value)
  {
  }

  lemma ReleaseKeepsAccounts(s: State, granted: bool)
    requires AccountsOk(s) && (s.a.tx.Push? || s.a.tx.Check? || s.a.tx.Look? || s.a.tx.Wake?)
    ensures AccountsOk(GoA(s, granted).value)
  {
    hide NextOf;
  }

  lemma GoKeepsAccounts(s: State, granted: bool)
    requires AccountsOk(s) && GoA(s, granted).Some?
    ensures AccountsOk(GoA(s, granted).value)
  {
    hide HandleOnTwin, HandleOnSelf;
    if s.a.tx.Handle? {
      HandleKeepsAccounts(s, granted);
    } else if s.a.tx.Have? || s.a.tx.Queued? || s.a.tx.RaiseRx? || s.a.tx.Raise? {
      SendKeepsAccounts(s, granted);
    } else {
      ReleaseKeepsAccounts(s, granted);
    }
  }

  lemma PollKeepsAccount(l: Lane, granted: bool)
    requires AccountOk(l) && PollStep(l, granted).Some?
    ensures AccountOk(PollStep(l, granted).value)
  {
  }

  lemma StepAKeepsAccounts(s: State, a: Action)
    requires AccountsOk(s) && StepA(s, a).Some?
    ensures AccountsOk(StepA(s, a).value)
  {
    match a
    case Xmit(_) =>
    case Go(_, granted) => GoKeepsAccounts(s, granted);
    case PollGo(_, granted) => PollKeepsAccount(s.a, granted);
    case _ =>
  }

  lemma RunKeepsAccounts(napi: bool, size: nat, run: seq<Action>)
    requires Exec(Step, Init(napi, size), run).Some?
    ensures AccountsOk(Exec(Step, Init(napi, size), run).value)
  {
    SetupHasNoQueue(size);
    forall x, a | AccountsOk(x) && Step(x, a).Some? ensures AccountsOk(Step(x, a).value) {
      StepAKeepsAccounts(if a.second then Swap(x) else x, a);
    }
    InvariantOverRun(Step, AccountsOk, Init(napi, size), run);
  }

  lemma {:induction false} SetupHasNoQueue(size: nat)
    ensures SetupPool(size).queue == []
  {
    if size > 0 {
      SetupHasNoQueue(size - 1);
    }
  }

  /** Whenever a device is not transmitting, its tx_packets are the twin's rx_packets, rx_dropped and queued
      packets, in both modes and for every interleaving in which no update of a status word is torn: the driver
      sets its bits with an unlocked read and write, which the machine takes as one step. */
  lemma SentIsReceivedDroppedOrQueued(napi: bool, size: nat, run: seq<Action>, s: State)
    requires Exec(Step, Init(napi, size), run) == Some(s)
    ensures s.a.tx.Idle? ==> s.a.stats.txPackets == s.a.stats.rxPackets + s.a.stats.rxDropped + |s.a.stock.queue|
    ensures s.b.tx.Idle? ==> s.b.stats.txPackets == s.b.stats.rxPackets + s.b.stats.rxDropped + |s.b.stock.queue|
  {
    RunKeepsAccounts(napi, size, run);
  }

  // ---------- interrupt mode ----------

  /** In interrupt mode a packet waits in the queue only while its own transmit is about to raise the interrupt, or has
      raised it and nobody has handled it yet. */
  predicate PromptOk(l: Lane) {
    && l.rx.intsOn && l.rx.poll.Off? && l.rx.enabling == 0
    && (l.rx.rxBit ==> l.tx == Handle(OnTwin)) && |l.stock.queue| <= 1
    && (l.stock.queue != [] ==> l.tx.Queued? || l.tx.RaiseRx? || l.rx.rxBit)
  }

  predicate BothPrompt(s: State) {
    !s.napi && PromptOk(s.a) && PromptOk(s.b)
  }

  lemma HandleKeepsPrompt(s: State, granted: bool)
    requires BothPrompt(s) && s.a.tx.Handle?
    ensures BothPrompt(GoA(s, granted).value)
  {
  }

  lemma StepAKeepsPrompt(s: State, a: Action)
    requires BothPrompt(s) && StepA(s, a).Some?
    ensures BothPrompt(StepA(s, a).value)
  {
    hide NextOf;
    if a.Go? && s.a.tx.Handle? {
      HandleKeepsPrompt(s, a.granted);
    }
  }

  /** So a device that is not transmitting has nothing in flight: every packet it counts as sent has been received or
      dropped by the twin. */
  lemma InterruptModeKeepsUp(size: nat, run: seq<Action>, s: State)
    requires Exec(Step, Init(false, size), run) == Some(s)
    ensures s.a.tx.Idle? ==> s.a.stock.queue == [] && s.a.stats.txPackets == s.a.stats.rxPackets + s.a.stats.rxDropped
    ensures s.b.tx.Idle? ==> s.b.stock.queue == [] && s.b.stats.txPackets == s.b.stats.rxPackets + s.b.stats.rxDropped
  {
    SetupHasNoQueue(size);
    forall x, a | BothPrompt(x) && Step(x, a).Some? ensures BothPrompt(Step(x, a).value) {
      StepAKeepsPrompt(if a.second then Swap(x) else x, a);
    }
    InvariantOverRun(Step, BothPrompt, Init(false, size), run);
    SentIsReceivedDroppedOrQueued(false, size, run, s);
    hide Step;
  }

  // ---------- NAPI ----------

  /** How interrupts, the poll and the RX bit go together in NAPI mode, over every run. */
  predicate MaskOk(l: Lane) {
    && (l.rx.rxBit ==> l.tx == Handle(OnTwin))
    && (l.rx.rxBit || l.tx.RaiseRx? ==> l.rx.intsOn)
    && (l.rx.intsOn <==> l.rx.poll.Off? && l.rx.enabling == 0)
    && (l.rx.enabling > 0 ==> l.rx.poll.Off? && l.rx.enabling == 1)
  }

  /** A queued packet has a transmit about to test for interrupts, an interrupt on its way, or a poll that will look
      at the queue again. */
  predicate Attended(l: Lane) {
    l.stock.queue != [] ==> l.tx.Queued? || l.tx.RaiseRx? || l.rx.rxBit || !(l.rx.poll.Off? || l.rx.poll.Done?)
  }

  predicate NapiOk(s: State) {
    s.napi && MaskOk(s.a) && MaskOk(s.b)
  }

  lemma HandleKeepsMask(s: State, granted: bool)
    requires NapiOk(s) && s.a.tx.Handle?
    ensures NapiOk(GoA(s, granted).value)
    ensures Attended(s.a) ==> Attended(GoA(s, granted).value.a)
    ensures Attended(s.b) ==> Attended(GoA(s, granted).value.b)
  {
  }

  /** The transmit tests rx_int_enabled when a poll has had its last look at the queue and not yet enabled
      interrupts, and its packet is in the queue. */
  predicate OverlooksA(s: State, a: Action) {
    a.Go? && s.a.tx.Queued? && (s.a.rx.poll.Done? || s.a.rx.enabling > 0) && s.a.stock.queue != []
  }

  predicate Overlooks(s: State, a: Action) {
    OverlooksA(if a.second then Swap(s) else s, a)
  }

  lemma GoKeepsMask(s: State, granted: bool)
    requires NapiOk(s) && GoA(s, granted).Some?
    ensures NapiOk(GoA(s, granted).value)
    ensures Attended(s.a) ==> (Attended(GoA(s, granted).value.a) <==> !OverlooksA(s, Go(false, granted)))
    ensures Attended(s.b) ==> Attended(GoA(s, granted).value.b)
  {
    hide MaskOk, Attended, OverlooksA, GoA;
    if s.a.tx.Handle? {
      HandleKeepsMask(s, granted);
      HandleOverlooksNone(s, granted);
    } else {
      MoveKeepsMask(s, granted);
    }
  }

  lemma HandleOverlooksNone(s: State, granted: bool)
    requires s.a.tx.Handle?
    ensures !OverlooksA(s, Go(false, granted))
  {
  }

  lemma MoveKeepsMask(s: State, granted: bool)
    requires NapiOk(s) && GoA(s, granted).Some? && !s.a.tx.Handle?
    ensures NapiOk(GoA(s, granted).value)
    ensures Attended(s.a) ==> (Attended(GoA(s, granted).value.a) <==> !OverlooksA(s, Go(false, granted)))
    ensures Attended(s.b) ==> Attended(GoA(s, granted).value.b)
  {
    if s.a.tx.Have? || s.a.tx.Queued? || s.a.tx.RaiseRx? || s.a.tx.Raise? {
      SendKeepsMask(s, granted);
    } else {
      ReleaseKeepsMask(s, granted);
    }
    hide GoA, MaskOk, Attended;
  }

  lemma SendKeepsMask(s: State, granted: bool)
    requires NapiOk(s) && (s.a.tx.Have? || s.a.tx.Queued? || s.a.tx.RaiseRx? || s.a.tx.Raise?)
    ensures NapiOk(GoA(s, granted).value)
    ensures Attended(s.a) ==> (Attended(GoA(s, granted).value.a) <==> !OverlooksA(s, Go(false, granted)))
    ensures GoA(s, granted).value.b == s.b
  {
  }

  /** A release touches neither the queues nor what attends to them. */
  lemma ReleaseKeepsMask(s: State, granted: bool)
    requires NapiOk(s) && (s.a.tx.Push? || s.a.tx.Check? || s.a.tx.Look? || s.a.tx.Wake?)
    ensures var t := GoA(s, granted).value;
            NapiOk(t) && (Attended(s.a) ==> Attended(t.a)) && (Attended(s.b) ==> Attended(t.b))
  {
    hide NextOf;
  }

  lemma PollStepKeepsMask(l: Lane, granted: bool)
    requires MaskOk(l) && PollStep(l, granted).Some?
    ensures MaskOk(PollStep(l, granted).value)
    ensures Attended(l) ==> Attended(PollStep(l, granted).value)
  {
  }

  predicate PatientOk(s: State) {
    NapiOk(s) && Attended(s.a) && Attended(s.b)
  }

  lemma StepAKeepsAttendedIff(s: State, a: Action)
    requires PatientOk(s) && StepA(s, a).Some?
    ensures NapiOk(StepA(s, a).value)
    ensures PatientOk(StepA(s, a).value) <==> !OverlooksA(s, a)
  {
    match a
    case Xmit(_) =>
    case Go(_, granted) => GoKeepsMask(s, granted);
    case PollGo(_, granted) => PollStepKeepsMask(s.a, granted);
    case _ =>
  }

  /** Every queued packet stays attended over a step if and only if the step is not such a test. */
  lemma StepKeepsAttendedIff(s: State, a: Action)
    requires PatientOk(s) && Step(s, a).Some?
    ensures PatientOk(Step(s, a).value) <==> !Overlooks(s, a)
  {
    hide StepA, MaskOk, Attended, OverlooksA;
    StepAKeepsAttendedIff(if a.second then Swap(s) else s, a);
  }

  /** The machine without such tests; there are none when snull_poll runs to completion. */
  function PatientStep(s: State, a: Action): Option<State> {
    if Overlooks(s, a) then None else Step(s, a)
  }

  /** In such runs a queued packet is always attended: receive interrupts are masked and the poll is scheduled or
      running, or the transmit or the interrupt that will see to it is under way. */
  lemma QueuedMeansPolled(size: nat, run: seq<Action>, s: State)
    requires Exec(PatientStep, Init(true, size), run) == Some(s)
    ensures s.a.stock.queue != [] && s.a.tx.Idle? ==> !s.a.rx.intsOn && !s.a.rx.poll.Off? && !s.a.rx.poll.Done?
    ensures s.b.stock.queue != [] && s.b.tx.Idle? ==> !s.b.rx.intsOn && !s.b.rx.poll.Off? && !s.b.rx.poll.Done?
  {
    SetupHasNoQueue(size);
    forall x, a | PatientOk(x) && PatientStep(x, a).Some? ensures PatientOk(PatientStep(x, a).value) {
      StepKeepsAttendedIff(x, a);
    }
    hide PatientStep, PatientOk;
    InvariantOverRun(PatientStep, PatientOk, Init(true, size), run);
    PatientMeans(s);
  }

  lemma PatientMeans(s: State)
    requires PatientOk(s)
    ensures s.a.stock.queue != [] && s.a.tx.Idle? ==> !s.a.rx.intsOn && !s.a.rx.poll.Off? && !s.a.rx.poll.Done?
    ensures s.b.stock.queue != [] && s.b.tx.Idle? ==> !s.b.rx.intsOn && !s.b.rx.poll.Off? && !s.b.rx.poll.Done?
  {
  }

  /** A packet is queued, interrupts are enabled, and neither a poll nor an interrupt nor a transmit is under way. */
  predicate Overlooked(s: State) {
    && s.napi && s.a.stock.queue != [] && s.a.tx.Idle? && !s.a.rx.rxBit
    && s.a.rx.intsOn && s.a.rx.poll.Off? && s.a.rx.enabling == 0
  }

  /** Until the same device transmits again, nothing picks the packet up. */
  lemma {:induction false} OverlookedUntilNextTransmit(s: State, run: seq<Action>)
    requires Overlooked(s) && Exec(Step, s, run).Some?
    requires forall i :: 0 <= i < |run| ==> run[i] != Xmit(false)
    ensures Overlooked(Exec(Step, s, run).value) && Exec(Step, s, run).value.a.stock.queue == s.a.stock.queue
    decreases |run|
  {
    if run != [] {
      OverlookedStep(s, run[0]);
      assert forall i :: 0 <= i < |run[1..]| ==> run[1..][i] == run[i + 1];
      OverlookedUntilNextTransmit(Step(s, run[0]).value, run[1..]);
    }
  }

  lemma OverlookedStep(s: State, a: Action)
    requires Overlooked(s) && Step(s, a).Some? && a != Xmit(false)
    ensures Overlooked(Step(s, a).value) && Step(s, a).value.a.stock.queue == s.a.stock.queue
  {
    if a.second && a.Go? {
      TwinLeavesQueue(Swap(s), a.granted);
    }
  }

  lemma TwinLeavesQueue(s: State, granted: bool)
    requires GoA(s, granted).Some? && !s.b.rx.rxBit
    ensures var t := GoA(s, granted).value;
            t.napi == s.napi && t.b.stock.queue == s.b.stock.queue && t.b.tx == s.b.tx && t.b.rx == s.b.rx
  {
  }
}
