/** When exactly a snull queue is stopped: the two tests after the unlock of snull_release_buffer read the stopped
    flag and the packet's `next` one after the other, and the packet can move in between. */
module SnullExact {
  import opened Basics
  import opened Runs
  import opened Snull
  import opened SnullLane
  import opened SnullInvariants
  import opened SnullFlow

  // ---------- one lane ----------

  predicate Owes(party: Party, pool: seq<Packet>) {
    party.Wakes? || ((party.Checks? || party.Looks?) && pool != [] && party.p == pool[|pool| - 1])
  }

  predicate OneAtMost(v: View) {
    forall who, other :: Owes(v.Get(who), v.stock.pool) && Owes(v.Get(other), v.stock.pool) ==> who == other
  }

  /** The queue is stopped exactly when the pool is empty or a wake-up is owed, and one party at most owes it. */
  predicate StoppedExactly(v: View) {
    (v.stopped <==> v.stock.pool == [] || Owed(v)) && OneAtMost(v)
  }

  predicate Exclusive(v: View) {
    (forall who :: Owes(v.Get(who), v.stock.pool) ==> v.stopped) && OneAtMost(v)
  }

  lemma ExactIsExclusive(v: View)
    requires WakeOk(v) && (v.stock.pool == [] ==> v.stopped)
    ensures StoppedExactly(v) <==> Exclusive(v)
  {
    hide OneAtMost;
    if v.stock.pool != [] {
      assert forall who :: Owes(v.Get(who), v.stock.pool) <==> WillWake(v.Get(who), v.stock.pool);
    }
  }

  /** A packet that has left the pool, for a place where it has no next packet. */
  predicate StaleIn(k: Stock, p: Packet) {
    p !in k.pool && NextOf(k, p).None?
  }

  predicate Stale(v: View, m: Move) {
    m.TestNext? && v.Get(m.who).Looks? && StaleIn(v.stock, v.Get(m.who).p)
  }

  lemma NobodyIsPast(v: View, who: Who)
    requires Secure(v) && v.stock.pool == []
    ensures !IsPast(v.Get(who))
  {
  }

  /** Into an empty pool: nobody else is past a push, and the queue is stopped. */
  lemma FirstInKeepsExclusive(v: View, who: Who)
    requires Secure(v) && v.stock.pool == [] && Apply(v, IntoPool(who)).Some?
    ensures Exclusive(Apply(v, IntoPool(who)).value)
  {
    var w := Apply(v, IntoPool(who)).value;
    forall x | x != who ensures !IsPast(w.Get(x)) {
      NobodyIsPast(v, x);
    }
  }

  /** Onto other packets: the bottom stays the same, and it is not the packet put back. */
  lemma NextInKeepsExclusive(v: View, who: Who)
    requires Exclusive(v) && v.stock.pool != [] && Apply(v, IntoPool(who)).Some? && v.Get(who).p !in v.stock.pool
    ensures Exclusive(Apply(v, IntoPool(who)).value)
  {
    var w := Apply(v, IntoPool(who)).value;
    var last := |v.stock.pool| - 1;
    assert w.stock.pool[last + 1] == v.stock.pool[last];
    assert !Owes(w.Get(who), w.stock.pool);
    assert forall x :: x != who ==> w.Get(x) == v.Get(x);
    assert forall x :: x != who && Owes(w.Get(x), w.stock.pool) ==> Owes(v.Get(x), v.stock.pool);
  }

  lemma IntoPoolKeepsExclusive(size: nat, v: View, who: Who)
    requires ViewOk(size, v) && Secure(v) && Exclusive(v) && Apply(v, IntoPool(who)).Some?
    ensures Exclusive(Apply(v, IntoPool(who)).value)
  {
    HeldIsOffList(size, v, who);
    if v.stock.pool == [] {
      FirstInKeepsExclusive(v, who);
    } else {
      NextInKeepsExclusive(v, who);
    }
  }

  lemma TestStoppedKeepsExclusive(v: View, who: Who)
    requires Exclusive(v) && Apply(v, TestStopped(who)).Some?
    ensures Exclusive(Apply(v, TestStopped(who)).value)
  {
    var w := Apply(v, TestStopped(who)).value;
    assert forall x :: x != who ==> w.Get(x) == v.Get(x);
    assert forall x :: Owes(w.Get(x), w.stock.pool) ==> Owes(v.Get(x), v.stock.pool);
  }

  /** In the pool, only the bottom packet has no next, and its holder owed the wake-up already. */
  lemma FreshLookKeepsExclusive(v: View, who: Who)
    requires Linked(v.stock) && Exclusive(v) && Apply(v, TestNext(who)).Some? && !Stale(v, TestNext(who))
    ensures Exclusive(Apply(v, TestNext(who)).value)
  {
    var p := v.Get(who).p;
    var w := Apply(v, TestNext(who)).value;
    if NextOf(v.stock, p).None? {
      var i :| 0 <= i < |v.stock.pool| && v.stock.pool[i] == p;
      assert LinkedAt(v.stock, i);
      assert Owes(v.Get(who), v.stock.pool);
    }
    assert forall x :: x != who ==> w.Get(x) == v.Get(x);
    assert forall x :: Owes(w.Get(x), w.stock.pool) ==> Owes(v.Get(x), v.stock.pool);
  }

  /** A party that looks at a stale packet is going to wake a queue that is not stopped, or that somebody else is
      going to wake. */
  lemma StaleLookBreaksExclusive(v: View, who: Who)
    requires WakeOk(v) && Secure(v) && Apply(v, TestNext(who)).Some? && Stale(v, TestNext(who))
    ensures !Exclusive(Apply(v, TestNext(who)).value)
  {
    var w := Apply(v, TestNext(who)).value;
    assert IsPast(v.Get(who));
    assert v.stock.pool[|v.stock.pool| - 1] in v.stock.pool;
    assert Owes(w.Get(who), w.stock.pool);
    if v.stopped {
      var other :| WillWake(v.Get(other), v.stock.pool);
      assert other != who && w.Get(other) == v.Get(other);
      assert Owes(w.Get(other), w.stock.pool);
    }
  }

  lemma TakeKeepsExclusive(v: View)
    requires Exclusive(v) && Apply(v, TakeFromPool).Some?
    ensures Exclusive(Apply(v, TakeFromPool).value)
  {
    var w := Apply(v, TakeFromPool).value;
    forall x ensures !Owes(w.Get(x), w.stock.pool) {
      assert !Owes(v.Get(x), v.stock.pool);
    }
  }

  lemma WakeKeepsExclusive(v: View, who: Who)
    requires Exclusive(v) && Apply(v, WakeQueue(who)).Some?
    ensures Exclusive(Apply(v, WakeQueue(who)).value)
  {
    var w := Apply(v, WakeQueue(who)).value;
    assert Owes(v.Get(who), v.stock.pool);
    assert forall x :: x != who ==> w.Get(x) == v.Get(x);
  }

  /** A packet taken off the receive queue, or put on it, is nobody's to wake for. */
  lemma HoldingKeepsExclusive(v: View, m: Move)
    requires Exclusive(v) && (m.IntoQueue? || m.FromQueue?) && Apply(v, m).Some?
    ensures Exclusive(Apply(v, m).value)
  {
    var w := Apply(v, m).value;
    assert forall x :: IsPast(w.Get(x)) ==> w.Get(x) == v.Get(x);
    assert forall x :: Owes(w.Get(x), w.stock.pool) ==> Owes(v.Get(x), v.stock.pool);
  }

  lemma MoveKeepsExclusiveIff(size: nat, v: View, m: Move)
    requires ViewOk(size, v) && Secure(v) && Exclusive(v) && Apply(v, m).Some?
    ensures Exclusive(Apply(v, m).value) <==> !Stale(v, m)
  {
    hide Secure, Exclusive, Conserved, Linked, WakeOk;
    match m
    case Stay =>
    case TakeFromPool => TakeKeepsExclusive(v);
    case IntoPool(who) => IntoPoolKeepsExclusive(size, v, who);
    case TestStopped(who) => TestStoppedKeepsExclusive(v, who);
    case TestNext(who) => LookKeepsExclusiveIff(size, v, who);
    case WakeQueue(who) => WakeKeepsExclusive(v, who);
    case _ => HoldingKeepsExclusive(v, m);
  }

  lemma LookKeepsExclusiveIff(size: nat, v: View, who: Who)
    requires ViewOk(size, v) && Secure(v) && Exclusive(v) && Apply(v, TestNext(who)).Some?
    ensures Exclusive(Apply(v, TestNext(who)).value) <==> !Stale(v, TestNext(who))
  {
    if Stale(v, TestNext(who)) {
      StaleLookBreaksExclusive(v, who);
    } else {
      FreshLookKeepsExclusive(v, who);
    }
  }

  /** An empty pool goes on meaning a stopped queue, whatever the move. */
  lemma MoveKeepsEmptyStops(v: View, m: Move)
    requires Secure(v) && Apply(v, m).Some?
    ensures Apply(v, m).value.stock.pool == [] ==> Apply(v, m).value.stopped
  {
    if m.WakeQueue? {
      assert IsPast(v.Get(m.who));
    }
  }

  lemma MoveKeepsExactIff(size: nat, v: View, m: Move)
    requires ViewOk(size, v) && Secure(v) && StoppedExactly(v) && Apply(v, m).Some?
    ensures StoppedExactly(Apply(v, m).value) <==> !Stale(v, m)
  {
    ExactIsExclusive(v);
    MoveKeepsView(size, v, m);
    MoveKeepsEmptyStops(v, m);
    hide StoppedExactly, Exclusive, Apply, Conserved, Linked, WakeOk, Secure;
    MoveKeepsExclusiveIff(size, v, m);
    ExactIsExclusive(Apply(v, m).value);
  }

  // ---------- the machine ----------

  predicate Exact(s: State) {
    StoppedExactly(ViewA(s)) && StoppedExactly(ViewB(s))
  }

  /** A step of the first device that reads `next` of a packet that has left the pool since, and finds none. */
  predicate LooksStaleA(s: State, a: Action) {
    || (a.Go? && s.a.tx.Look? && StaleIn(if s.a.tx.stage.OnTwin? then s.a.stock else s.b.stock, s.a.tx.p))
    || (a.PollGo? && s.a.rx.poll.PollLook? && StaleIn(s.a.stock, s.a.rx.poll.p))
  }

  predicate LooksStale(s: State, a: Action) {
    LooksStaleA(if a.second then Swap(s) else s, a)
  }

  lemma GoIsStale(s: State, granted: bool)
    ensures LooksStaleA(s, Go(false, granted)) <==> Stale(ViewA(s), OwnMove(s)) || Stale(ViewB(s), TwinMove(s))
  {
  }

  lemma GoKeepsExactIff(s: State, granted: bool)
    requires SecureState(s) && Exact(s) && GoA(s, granted).Some?
    ensures Exact(GoA(s, granted).value) <==> !LooksStaleA(s, Go(false, granted))
  {
    GoMoves(s, granted);
    GoIsStale(s, granted);
    hide GoA, OwnMove, TwinMove, ViewOf, Conserved, Linked, WakeOk, Secure, StoppedExactly, Stale, LooksStaleA, Apply;
    MoveKeepsExactIff(s.size, ViewA(s), OwnMove(s));
    MoveKeepsExactIff(s.size, ViewB(s), TwinMove(s));
  }

  lemma PollIsStale(s: State, a: Action)
    requires a.PollStart? || a.PollGo? || a.Enable?
    ensures LooksStaleA(s, a) <==> Stale(ViewA(s), if a.PollGo? then PollMove(s.a) else Stay)
  {
  }

  lemma PollKeepsExactIff(s: State, a: Action)
    requires SecureState(s) && Exact(s) && PollA(s, a).Some?
    ensures Exact(PollA(s, a).value) <==> !LooksStaleA(s, a)
  {
    PollMoves(s, a);
    PollIsStale(s, a);
    hide ViewOf, PollMove, Conserved, Linked, WakeOk, Secure, StoppedExactly, Stale, LooksStaleA, Apply;
    MoveKeepsExactIff(s.size, ViewA(s), if a.PollGo? then PollMove(s.a) else Stay);
  }

  lemma XmitKeepsExact(s: State)
    requires SecureState(s) && Exact(s) && XmitA(s).Some?
    ensures Exact(XmitA(s).value)
  {
    XmitMoves(s);
    hide Conserved, Linked, WakeOk, StoppedExactly, Apply;
    MoveKeepsExactIff(s.size, ViewA(s), TakeFromPool);
  }

  lemma StepAKeepsExactIff(s: State, a: Action)
    requires SecureState(s) && Exact(s) && StepA(s, a).Some?
    ensures Exact(StepA(s, a).value) <==> !LooksStaleA(s, a)
  {
    hide SecureState, Exact;
    match a
    case Xmit(_) => XmitKeepsExact(s);
    case Go(_, granted) => GoKeepsExactIff(s, granted);
    case _ => PollKeepsExactIff(s, a);
  }

  /** As long as empty pools are stopped and nobody is past a push over one, "stopped exactly when the pool is empty
      or one releaser owes the wake-up" survives a step if and only if the step is not a stale look. */
  lemma StepKeepsExactIff(s: State, a: Action)
    requires SecureState(s) && Exact(s) && Step(s, a).Some?
    ensures Exact(Step(s, a).value) <==> !LooksStale(s, a)
  {
    hide StepA, Conserved, Linked, WakeOk, Secure, StoppedExactly, ViewOf, LooksStaleA;
    StepAKeepsExactIff(if a.second then Swap(s) else s, a);
  }

  lemma InitIsExact(napi: bool, size: nat)
    requires size >= 1
    ensures Exact(Init(napi, size))
  {
    SetupIsOk(size);
  }

  // ---------- runs without a stale look ----------

  function FreshStep(s: State, a: Action): Option<State> {
    if LooksStale(s, a) then None else Step(s, a)
  }

  predicate SafeAndExact(s: State) {
    Safe(s) && Exact(s)
  }

  lemma SafeAndExactMeans(s: State)
    requires SafeAndExact(s)
    ensures !s.oops && StoppedExactly(ViewA(s)) && StoppedExactly(ViewB(s))
  {
  }

  /** In the safe settings, over every run without a stale look, a queue is stopped exactly when its pool is empty or
      one releaser owes it a wake-up. */
  lemma FreshLooksAreExact(napi: bool, size: nat, run: seq<Action>, s: State)
    requires SafeSetting(napi, size) && Exec(FreshStep, Init(napi, size), run) == Some(s)
    ensures !s.oops && StoppedExactly(ViewA(s)) && StoppedExactly(ViewB(s))
  {
    InitIsSafe(napi, size);
    InitIsExact(napi, size);
    forall x, a | SafeAndExact(x) && FreshStep(x, a).Some? ensures SafeAndExact(FreshStep(x, a).value) {
      hide SecureState, RegularOk, SingleOk, Exact, Step, LooksStale;
      StepKeepsSafe(x, a);
      StepKeepsExactIff(x, a);
    }
    hide SafeAndExact, FreshStep;
    InvariantOverRun(FreshStep, SafeAndExact, Init(napi, size), run);
    SafeAndExactMeans(s);
  }

  // ---------- transmits that keep out of the way ----------

  /** The machine whose transmits only start while nobody is between the unlock and the end of
      snull_release_buffer for that device. */
  function QuietStep(s: State, a: Action): Option<State> {
    if a.Xmit? && Past(if a.second then ViewB(s) else ViewA(s)) then None else Step(s, a)
  }

  /** What has been put back stays in the pool as long as the party that put it back is not done. */
  predicate Present(v: View) {
    forall who :: v.Get(who).Checks? || v.Get(who).Looks? ==> v.Get(who).p in v.stock.pool
  }

  lemma MoveKeepsPresent(v: View, m: Move)
    requires Present(v) && Apply(v, m).Some? && (m.TakeFromPool? ==> !Past(v))
    ensures Present(Apply(v, m).value)
  {
    var w := Apply(v, m).value;
    match m
    case TakeFromPool =>
      assert forall x :: !IsPast(v.Get(x));
    case IntoPool(who) =>
      assert w.stock.pool[0] == v.Get(who).p;
      assert forall x :: x != who ==> w.Get(x) == v.Get(x);
    case _ =>
      assert w.stock.pool == v.stock.pool;
      assert forall x :: w.Get(x).Checks? || w.Get(x).Looks? ==>
        (v.Get(x).Checks? || v.Get(x).Looks?) && w.Get(x).p == v.Get(x).p;
  }

  predicate QuietOk(s: State) {
    SecureState(s) && Exact(s) && Present(ViewA(s)) && Present(ViewB(s))
  }

  lemma StepAKeepsPresent(s: State, a: Action)
    requires Present(ViewA(s)) && Present(ViewB(s)) && !s.oops && StepA(s, a).Some?
    requires a.Xmit? ==> !Past(ViewA(s)) && s.a.stock.pool != []
    ensures Present(ViewA(StepA(s, a).value)) && Present(ViewB(StepA(s, a).value))
  {
    hide ViewOf, Present, Apply;
    match a
    case Xmit(_) =>
      XmitMoves(s);
      MoveKeepsPresent(ViewA(s), TakeFromPool);
    case Go(_, granted) =>
      GoMoves(s, granted);
      hide GoA, OwnMove, TwinMove;
      assert OwnMove(s) != TakeFromPool && TwinMove(s) != TakeFromPool by { NeverTakes(s); }
      MoveKeepsPresent(ViewA(s), OwnMove(s));
      MoveKeepsPresent(ViewB(s), TwinMove(s));
    case _ =>
      PollMoves(s, a);
      MoveKeepsPresent(ViewA(s), if a.PollGo? then PollMove(s.a) else Stay);
  }

  lemma NeverTakes(s: State)
    ensures OwnMove(s) != TakeFromPool && TwinMove(s) != TakeFromPool
  {
  }

  lemma PresentIsNotStale(s: State, a: Action)
    requires Present(ViewA(s)) && Present(ViewB(s))
    ensures !LooksStaleA(s, a)
  {
    assert s.a.tx.Look? && s.a.tx.stage.OnTwin? ==> ViewA(s).Get(Own).Looks?;
    assert s.a.tx.Look? && s.a.tx.stage.OnSelf? ==> ViewB(s).Get(Twin).Looks?;
    assert s.a.rx.poll.PollLook? ==> ViewA(s).Get(Poller).Looks?;
  }

  lemma QuietStepAKeeps(s: State, a: Action)
    requires QuietOk(s) && StepA(s, a).Some? && (a.Xmit? ==> !Past(ViewA(s)))
    ensures QuietOk(StepA(s, a).value)
  {
    StepAKeepsSecure(s, a);
    StepAKeepsPools(s, a);
    hide StepA, Conserved, Linked, WakeOk, Secure, StoppedExactly, Present, ViewOf, LooksStaleA, Past;
    PresentIsNotStale(s, a);
    StepAKeepsExactIff(s, a);
    StepAKeepsPresent(s, a);
  }

  lemma QuietStepKeeps(s: State, a: Action)
    requires QuietOk(s) && QuietStep(s, a).Some?
    ensures QuietOk(QuietStep(s, a).value)
  {
    hide StepA, Conserved, Linked, WakeOk, Secure, StoppedExactly, Present, ViewOf, Past;
    QuietStepAKeeps(if a.second then Swap(s) else s, a);
  }

  lemma QuietMeans(s: State)
    requires QuietOk(s)
    ensures !s.oops && StoppedExactly(ViewA(s)) && StoppedExactly(ViewB(s))
  {
  }

  /** In either mode, and for every pool size, such runs never meet an empty pool, and a queue is stopped exactly
      when its pool is empty or one releaser owes it a wake-up. */
  lemma QuietTransmitsAreSafe(napi: bool, size: nat, run: seq<Action>, s: State)
    requires size >= 1 && Exec(QuietStep, Init(napi, size), run) == Some(s)
    ensures !s.oops && StoppedExactly(ViewA(s)) && StoppedExactly(ViewB(s))
  {
    InitIsSecure(napi, size);
    InitIsExact(napi, size);
    assert QuietOk(Init(napi, size));
    forall x, a | QuietOk(x) && QuietStep(x, a).Some? ensures QuietOk(QuietStep(x, a).value) {
      QuietStepKeeps(x, a);
    }
    hide QuietOk, QuietStep;
    InvariantOverRun(QuietStep, QuietOk, Init(napi, size), run);
    QuietMeans(s);
  }

  // ---------- settings in which no look is ever stale ----------

  /** A pool of one packet: a transmit only starts while nobody is past its push. */
  predicate SingleExact(s: State) {
    Safe(s) && s.size == 1 && QuietOk(s)
  }

  lemma StepKeepsSingleExact(s: State, a: Action)
    requires SingleExact(s) && Step(s, a).Some?
    ensures SingleExact(Step(s, a).value)
  {
    StepKeepsSafe(s, a);
    ModeIsFixed(if a.second then Swap(s) else s, a);
    SingleIsQuiet(s, a);
    hide Safe, QuietOk, QuietStep, StepA;
    QuietStepKeeps(s, a);
  }

  lemma SingleIsQuiet(s: State, a: Action)
    requires Safe(s) && s.size == 1 && Step(s, a).Some?
    ensures QuietStep(s, a) == Step(s, a)
  {
    hide Inv, Secure, RegularOk;
  }

  /** In interrupt mode at most two packets of a lane are out of its pool: one in the queue or in the hands of the
      home transmit, and one in the hands of the twin's. */
  lemma TwoOutAtMost(size: nat, l: Lane, twin: Tx)
    requires Conserved(size, ViewOf(l, twin)) && RegularOk(l)
    ensures |l.stock.pool| + 2 >= size
  {
    var v := ViewOf(l, twin);
    HowMany(size);
    assert |Inventory(v)| == |l.stock.pool| + |l.stock.queue| + |Hands(v)|;
    assert |Hands(v)| == |InHand(v.own)| + |InHand(v.twin)| + |InHand(v.poller)|;
    assert |l.stock.queue| + |InHand(v.own)| <= 1;
  }

  /** With three packets or more, then, the pool never runs empty, and the queue is never stopped. */
  predicate Roomy(s: State) {
    && Safe(s) && Exact(s) && !s.napi && s.size >= 3
    && !s.a.stopped && !s.b.stopped && !s.a.tx.Look? && !s.b.tx.Look?
  }

  lemma StepAKeepsRunning(s: State, a: Action)
    requires !s.oops && StepA(s, a).Some? && !StepA(s, a).value.oops
    requires !s.a.stopped && !s.b.stopped && !s.a.tx.Look? && !s.b.tx.Look?
    requires StepA(s, a).value.a.stock.pool != []
    ensures var t := StepA(s, a).value; !t.a.stopped && !t.b.stopped && !t.a.tx.Look? && !t.b.tx.Look?
  {
  }

  lemma StepAKeepsRoomy(s: State, a: Action)
    requires Roomy(s) && StepA(s, a).Some?
    ensures Roomy(StepA(s, a).value)
  {
    var t := StepA(s, a).value;
    StepAKeepsSafe(s, a);
    ModeIsFixed(s, a);
    TwoOutAtMost(t.size, t.a, t.b.tx);
    assert !LooksStaleA(s, a);
    StepAKeepsExactIff(s, a);
    StepAKeepsRunning(s, a);
    hide StepA, Safe, Exact;
  }

  lemma StepKeepsRoomy(s: State, a: Action)
    requires Roomy(s) && Step(s, a).Some?
    ensures Roomy(Step(s, a).value)
  {
    hide StepA, Conserved, Linked, WakeOk, Secure, RegularOk, SingleOk, StoppedExactly, ViewOf;
    StepAKeepsRoomy(if a.second then Swap(s) else s, a);
  }

  /** A pool of one packet in either mode, or of three and more in interrupt mode. */
  predicate ExactSetting(napi: bool, size: nat) {
    size == 1 || (!napi && size >= 3)
  }

  /** In these settings a queue is stopped exactly when its pool is empty or one releaser owes it a wake-up, for
      every interleaving. */
  lemma ExactSettingIsExact(napi: bool, size: nat, run: seq<Action>, s: State)
    requires ExactSetting(napi, size) && Exec(Step, Init(napi, size), run) == Some(s)
    ensures !s.oops && StoppedExactly(ViewA(s)) && StoppedExactly(ViewB(s))
  {
    InitIsSafe(napi, size);
    InitIsExact(napi, size);
    if size == 1 {
      SingleRun(napi, run);
    } else {
      RoomyRun(size, run);
    }
  }

  lemma SingleRun(napi: bool, run: seq<Action>)
    requires SingleExact(Init(napi, 1)) && Exec(Step, Init(napi, 1), run).Some?
    ensures SafeAndExact(Exec(Step, Init(napi, 1), run).value)
  {
    forall x, a | SingleExact(x) && Step(x, a).Some? ensures SingleExact(Step(x, a).value) {
      StepKeepsSingleExact(x, a);
    }
    hide SingleExact, Step;
    InvariantOverRun(Step, SingleExact, Init(napi, 1), run);
    SingleMeans(Exec(Step, Init(napi, 1), run).value);
  }

  lemma SingleMeans(s: State)
    requires SingleExact(s)
    ensures SafeAndExact(s)
  {
  }

  lemma RoomyRun(size: nat, run: seq<Action>)
    requires Roomy(Init(false, size)) && Exec(Step, Init(false, size), run).Some?
    ensures SafeAndExact(Exec(Step, Init(false, size), run).value)
  {
    forall x, a | Roomy(x) && Step(x, a).Some? ensures Roomy(Step(x, a).value) {
      StepKeepsRoomy(x, a);
    }
    hide Roomy, Step;
    InvariantOverRun(Step, Roomy, Init(false, size), run);
    RoomyMeans(Exec(Step, Init(false, size), run).value);
  }

  lemma RoomyMeans(s: State)
    requires Roomy(s)
    ensures SafeAndExact(s)
  {
  }
}
