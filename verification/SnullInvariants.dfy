/** The snull machine refines the moves of its two lanes, so every run conserves the packets and loses no wake-up. */
module SnullInvariants {
  import opened Basics
  import opened Runs
  import opened Snull
  import opened SnullLane

  function ViewA(s: State): View { ViewOf(s.a, s.b.tx) }
  function ViewB(s: State): View { ViewOf(s.b, s.a.tx) }

  /** What a step of the transmit of lane `a` does to its own lane, and to the other one. */
  function OwnMove(s: State): Move {
    match s.a.tx
    case Have(_) => IntoQueue
    case Handle(OnTwin) => if s.a.rx.rxBit && !s.napi && s.a.stock.queue != [] then FromQueue(Own) else Stay
    case Push(OnTwin, _) => IntoPool(Own)
    case Check(OnTwin, _) => TestStopped(Own)
    case Look(OnTwin, _) => TestNext(Own)
    case Wake(OnTwin, _) => WakeQueue(Own)
    case _ => Stay
  }

  function TwinMove(s: State): Move {
    match s.a.tx
    case Handle(OnSelf) => if s.b.rx.rxBit && !s.napi && s.b.stock.queue != [] then FromQueue(Twin) else Stay
    case Push(OnSelf, _) => IntoPool(Twin)
    case Check(OnSelf, _) => TestStopped(Twin)
    case Look(OnSelf, _) => TestNext(Twin)
    case Wake(OnSelf, _) => WakeQueue(Twin)
    case _ => Stay
  }

  function PollMove(l: Lane): Move {
    match l.rx.poll
    case Loop(left) => if left == 0 || l.stock.queue == [] then Stay else FromQueue(Poller)
    case PollPush(_, _) => IntoPool(Poller)
    case PollCheck(_, _) => TestStopped(Poller)
    case PollLook(_, _) => TestNext(Poller)
    case PollWake(_, _) => WakeQueue(Poller)
    case _ => Stay
  }

  lemma HandleOnTwinMoves(s: State, granted: bool)
    requires s.a.tx == Handle(OnTwin)
    ensures Apply(ViewA(s), OwnMove(s)) == Some(ViewA(HandleOnTwin(s, granted)))
    ensures ViewB(HandleOnTwin(s, granted)) == ViewB(s)
  {
  }

  lemma HandleOnSelfMoves(s: State, granted: bool)
    requires s.a.tx == Handle(OnSelf)
    ensures ViewA(HandleOnSelf(s, granted)) == ViewA(s)
    ensures Apply(ViewB(s), TwinMove(s)) == Some(ViewB(HandleOnSelf(s, granted)))
  {
  }

  lemma HandleMoves(s: State, granted: bool)
    requires s.a.tx.Handle?
    ensures Apply(ViewA(s), OwnMove(s)) == Some(ViewA(GoA(s, granted).value))
    ensures Apply(ViewB(s), TwinMove(s)) == Some(ViewB(GoA(s, granted).value))
  {
    hide HandleOnTwin, HandleOnSelf, ViewOf;
    if s.a.tx.stage.OnTwin? {
      HandleOnTwinMoves(s, granted);
    } else {
      HandleOnSelfMoves(s, granted);
    }
  }

  lemma GoMovesOwn(s: State, granted: bool)
    requires GoA(s, granted).Some? && !s.a.tx.Handle?
    ensures Apply(ViewA(s), OwnMove(s)) == Some(ViewA(GoA(s, granted).value))
  {
    if s.a.tx.Push? || s.a.tx.Check? || s.a.tx.Look? || s.a.tx.Wake? {
      ReleaseMovesOwn(s, granted);
    }
  }

  lemma ReleaseMovesOwn(s: State, granted: bool)
    requires s.a.tx.Push? || s.a.tx.Check? || s.a.tx.Look? || s.a.tx.Wake?
    ensures Apply(ViewA(s), OwnMove(s)) == Some(ViewA(GoA(s, granted).value))
  {
  }

  lemma GoMovesTwin(s: State, granted: bool)
    requires GoA(s, granted).Some? && !s.a.tx.Handle?
    ensures Apply(ViewB(s), TwinMove(s)) == Some(ViewB(GoA(s, granted).value))
  {
    if s.a.tx.Push? || s.a.tx.Check? || s.a.tx.Look? || s.a.tx.Wake? {
      ReleaseMovesTwin(s, granted);
    }
  }

  lemma ReleaseMovesTwin(s: State, granted: bool)
    requires s.a.tx.Push? || s.a.tx.Check? || s.a.tx.Look? || s.a.tx.Wake?
    ensures Apply(ViewB(s), TwinMove(s)) == Some(ViewB(GoA(s, granted).value))
  {
  }

  lemma GoMoves(s: State, granted: bool)
    requires GoA(s, granted).Some?
    ensures Apply(ViewA(s), OwnMove(s)) == Some(ViewA(GoA(s, granted).value))
    ensures Apply(ViewB(s), TwinMove(s)) == Some(ViewB(GoA(s, granted).value))
  {
    if s.a.tx.Handle? {
      HandleMoves(s, granted);
    } else {
      GoMovesOwn(s, granted);
      GoMovesTwin(s, granted);
    }
  }

  lemma XmitMoves(s: State)
    requires XmitA(s).Some? && s.a.stock.pool != []
    ensures Apply(ViewA(s), TakeFromPool) == Some(ViewA(XmitA(s).value))
    ensures ViewB(XmitA(s).value) == ViewB(s)
  {
  }

  lemma PollStepMoves(l: Lane, twin: Tx, granted: bool)
    requires PollStep(l, granted).Some?
    ensures Apply(ViewOf(l, twin), PollMove(l)) == Some(ViewOf(PollStep(l, granted).value, twin))
    ensures PollStep(l, granted).value.tx == l.tx
  {
    hide OwnParty, TwinParty;
    if l.rx.poll.Loop? || l.rx.poll.Tail? {
      PollLoopMoves(l, twin, granted);
    }
  }

  lemma PollLoopMoves(l: Lane, twin: Tx, granted: bool)
    requires l.rx.poll.Loop? || l.rx.poll.Tail?
    ensures Apply(ViewOf(l, twin), PollMove(l)) == Some(ViewOf(PollStep(l, granted).value, twin))
    ensures PollStep(l, granted).value.tx == l.tx
  {
    hide OwnParty, TwinParty;
  }

  lemma PollMoves(s: State, a: Action)
    requires PollA(s, a).Some?
    ensures Apply(ViewA(s), if a.PollGo? then PollMove(s.a) else Stay) == Some(ViewA(PollA(s, a).value))
    ensures ViewB(PollA(s, a).value) == ViewB(s)
  {
    if a.PollGo? {
      PollStepMoves(s.a, s.b.tx, a.granted);
    }
  }

  predicate Inv(s: State) {
    ViewOk(s.size, ViewA(s)) && ViewOk(s.size, ViewB(s))
  }

  lemma InitInv(napi: bool, size: nat)
    ensures Inv(Init(napi, size))
  {
    SetupIsOk(size);
  }

  lemma StepAKeepsInv(s: State, a: Action)
    requires Inv(s) && StepA(s, a).Some?
    ensures Inv(StepA(s, a).value)
  {
    match a
    case Xmit(_) =>
      if s.a.stock.pool != [] {
        XmitMoves(s);
        MoveKeepsView(s.size, ViewA(s), TakeFromPool);
      }
    case Go(_, granted) => GoKeepsInv(s, granted);
    case _ =>
      PollMoves(s, a);
      MoveKeepsView(s.size, ViewA(s), if a.PollGo? then PollMove(s.a) else Stay);
  }

  lemma GoKeepsInv(s: State, granted: bool)
    requires Inv(s) && GoA(s, granted).Some?
    ensures Inv(GoA(s, granted).value)
  {
    GoMoves(s, granted);
    MoveKeepsView(s.size, ViewA(s), OwnMove(s));
    MoveKeepsView(s.size, ViewB(s), TwinMove(s));
    ModeIsFixed(s, Go(false, granted));
  }

  lemma ModeIsFixed(s: State, a: Action)
    requires StepA(s, a).Some? || (a.Go? && GoA(s, a.granted).Some?)
    ensures StepA(s, a).Some? ==> StepA(s, a).value.size == s.size && StepA(s, a).value.napi == s.napi
    ensures a.Go? && GoA(s, a.granted).Some? ==>
            GoA(s, a.granted).value.size == s.size && GoA(s, a.granted).value.napi == s.napi
  {
  }

  lemma StepKeepsInv(s: State, a: Action)
    requires Inv(s) && Step(s, a).Some?
    ensures Inv(Step(s, a).value) && Step(s, a).value.size == s.size
  {
    StepAKeepsInv(if a.second then Swap(s) else s, a);
    ModeIsFixed(if a.second then Swap(s) else s, a);
  }

  predicate SizedInv(size: nat, s: State) {
    Inv(s) && s.size == size
  }

  lemma RunKeepsInv(napi: bool, size: nat, run: seq<Action>)
    requires Exec(Step, Init(napi, size), run).Some?
    ensures Inv(Exec(Step, Init(napi, size), run).value)
    ensures Exec(Step, Init(napi, size), run).value.size == size
  {
    InitInv(napi, size);
    var inv := s => SizedInv(size, s);
    forall x, a | inv(x) && Step(x, a).Some? ensures inv(Step(x, a).value) {
      StepKeepsInv(x, a);
    }
    InvariantOverRun(Step, inv, Init(napi, size), run);
  }
}
