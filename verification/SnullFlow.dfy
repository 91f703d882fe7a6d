/** Conservation and flow control of snull: when exactly snull_get_tx_buffer can meet an empty pool. */
module SnullFlow {
  import opened Basics
  import opened Runs
  import opened Snull
  import opened SnullLane
  import opened SnullInvariants

  /** Over every run, in both modes, each packet is in exactly one place of its home lane: its pool, the twin's
      receive queue, or the hands of one running call. */
  lemma PacketsAreConserved(napi: bool, size: nat, run: seq<Action>, s: State, p: Packet)
    requires Exec(Step, Init(napi, size), run) == Some(s)
    ensures Inventory(ViewA(s))[p] == (if p < size then 1 else 0)
    ensures Inventory(ViewB(s))[p] == (if p < size then 1 else 0)
  {
    RunKeepsInv(napi, size, run);
    EachPacketOnce(size, p);
  }

  /** Over every run, in both modes, a stopped queue with packets in its pool is about to be woken. */
  lemma NoLostWake(napi: bool, size: nat, run: seq<Action>, s: State)
    requires Exec(Step, Init(napi, size), run) == Some(s)
    ensures s.a.stopped && s.a.stock.pool != [] ==> Owed(ViewA(s))
    ensures s.b.stopped && s.b.stock.pool != [] ==> Owed(ViewB(s))
  {
    RunKeepsInv(napi, size, run);
  }

  // ---------- security of a lane ----------

  predicate IsPast(party: Party) { party.Checks? || party.Looks? || party.Wakes? }

  /** Somebody has put a packet back, dropped the lock, and not yet finished with the queue. */
  predicate Past(v: View) {
    IsPast(v.own) || IsPast(v.twin) || IsPast(v.poller)
  }

  /** An empty pool means a stopped queue, and nobody is about to wake it over an empty pool. */
  predicate Secure(v: View) {
    && (v.stock.pool == [] ==> v.stopped)
    && (Past(v) ==> v.stock.pool != [])
  }

  /** Only taking the last packet past somebody's back can break it. */
  lemma MoveKeepsSecure(v: View, m: Move)
    requires Secure(v) && Apply(v, m).Some?
    requires m.TakeFromPool? ==> !Past(v) || |v.stock.pool| > 1
    ensures Secure(Apply(v, m).value)
  {
    var w := Apply(v, m).value;
    match m
    case FromQueue(who) => assert Past(w) ==> Past(v);
    case TestStopped(who) => assert Past(w) ==> Past(v);
    case TestNext(who) => assert Past(w) ==> Past(v);
    case WakeQueue(who) => assert Past(w) ==> Past(v);
    case _ =>
  }

  predicate SecureState(s: State) {
    Inv(s) && !s.oops && Secure(ViewA(s)) && Secure(ViewB(s))
  }

  lemma XmitKeepsSecure(s: State)
    requires Secure(ViewA(s)) && Secure(ViewB(s)) && !s.oops && XmitA(s).Some?
    requires !Past(ViewA(s)) || |s.a.stock.pool| > 1
    ensures var t := XmitA(s).value; Secure(ViewA(t)) && Secure(ViewB(t)) && !t.oops
  {
    XmitMoves(s);
    MoveKeepsSecure(ViewA(s), TakeFromPool);
  }

  lemma PollKeepsSecure(s: State, a: Action)
    requires Secure(ViewA(s)) && Secure(ViewB(s)) && !s.oops && PollA(s, a).Some?
    ensures var t := PollA(s, a).value; Secure(ViewA(t)) && Secure(ViewB(t)) && !t.oops
  {
    PollMoves(s, a);
    MoveKeepsSecure(ViewA(s), if a.PollGo? then PollMove(s.a) else Stay);
  }

  lemma StepAKeepsSecure(s: State, a: Action)
    requires SecureState(s) && StepA(s, a).Some?
    requires a.Xmit? && !s.a.stopped ==> !Past(ViewA(s)) || |s.a.stock.pool| > 1
    ensures SecureState(StepA(s, a).value)
  {
    StepAKeepsInv(s, a);
    StepAKeepsPools(s, a);
  }

  lemma StepAKeepsPools(s: State, a: Action)
    requires Secure(ViewA(s)) && Secure(ViewB(s)) && !s.oops && StepA(s, a).Some?
    requires a.Xmit? && !s.a.stopped ==> !Past(ViewA(s)) || |s.a.stock.pool| > 1
    ensures var t := StepA(s, a).value; Secure(ViewA(t)) && Secure(ViewB(t)) && !t.oops
    ensures a.Xmit? ==> s.a.stock.pool != []
  {
    match a
    case Xmit(_) => XmitKeepsSecure(s);
    case Go(_, granted) => GoKeepsSecure(s, granted);
    case _ => PollKeepsSecure(s, a);
  }

  lemma GoNeverOops(s: State, granted: bool)
    requires GoA(s, granted).Some?
    ensures GoA(s, granted).value.oops == s.oops
  {
  }

  lemma GoKeepsSecure(s: State, granted: bool)
    requires Secure(ViewA(s)) && Secure(ViewB(s)) && !s.oops && GoA(s, granted).Some?
    ensures var t := GoA(s, granted).value; Secure(ViewA(t)) && Secure(ViewB(t)) && !t.oops
  {
    GoMoves(s, granted);
    MoveKeepsSecure(ViewA(s), OwnMove(s));
    MoveKeepsSecure(ViewB(s), TwinMove(s));
    GoNeverOops(s, granted);
  }

  lemma InitIsSecure(napi: bool, size: nat)
    requires size >= 1
    ensures SecureState(Init(napi, size))
  {
    InitInv(napi, size);
    SetupIsOk(size);
  }

  // ---------- interrupt mode, and pools of one packet ----------

  /** Without NAPI the receive queue holds a packet only from snull_enqueue_buf to the next handler. */
  predicate RegularOk(l: Lane) {
    && l.rx.intsOn && l.rx.poll.Off?
    && (l.rx.rxBit ==> l.tx == Handle(OnTwin))
    && |l.stock.queue| == if l.tx.Queued? || l.tx.RaiseRx? || l.rx.rxBit then 1 else 0
  }

  lemma GoKeepsRegular(s: State, granted: bool)
    requires !s.napi && RegularOk(s.a) && RegularOk(s.b) && GoA(s, granted).Some?
    ensures var t := GoA(s, granted).value; RegularOk(t.a) && RegularOk(t.b)
  {
    if s.a.tx.Handle? {
      HandleKeepsRegular(s, granted);
    }
  }

  lemma HandleKeepsRegular(s: State, granted: bool)
    requires !s.napi && RegularOk(s.a) && RegularOk(s.b) && s.a.tx.Handle?
    ensures var t := GoA(s, granted).value; RegularOk(t.a) && RegularOk(t.b)
  {
  }

  lemma StepAKeepsRegular(s: State, a: Action)
    requires !s.napi && RegularOk(s.a) && RegularOk(s.b) && StepA(s, a).Some?
    ensures var t := StepA(s, a).value; RegularOk(t.a) && RegularOk(t.b)
  {
    match a
    case Xmit(_) =>
    case Go(_, granted) => GoKeepsRegular(s, granted);
    case _ =>
  }

  lemma {:induction false} HowMany(size: nat)
    ensures |AllPackets(size)| == size
  {
    if size > 0 {
      HowMany(size - 1);
    }
  }

  lemma AllInPool(v: View)
    requires InHand(v.own) == multiset{} && InHand(v.twin) == multiset{} && InHand(v.poller) == multiset{}
    requires v.stock.queue == []
    ensures |Inventory(v)| == |v.stock.pool|
  {
    hide InHand;
    assert Hands(v) == multiset{};
    assert Inventory(v) == multiset(v.stock.pool);
  }

  /** In interrupt mode a transmit that takes the last packet finds nobody past a push: the other packets
      are accounted for by calls that have not pushed yet. */
  lemma RegularTakeIsSafe(s: State)
    requires Inv(s) && !s.napi && RegularOk(s.a) && s.a.tx.Idle? && s.size >= 2
    ensures !Past(ViewA(s)) || |s.a.stock.pool| > 1
  {
    var v := ViewA(s);
    if Past(v) {
      HowMany(s.size);
      assert InHand(v.own) == multiset{} && InHand(v.twin) == multiset{} && InHand(v.poller) == multiset{};
      assert s.a.stock.queue == [];
      AllInPool(v);
    }
  }

  /** With a single packet, whoever is past its push holds the queue stopped, and is the only one. */
  predicate SingleOk(v: View) {
    && (Past(v) ==> v.stopped)
    && !(IsPast(v.own) && IsPast(v.twin))
    && !(IsPast(v.own) && IsPast(v.poller))
    && !(IsPast(v.twin) && IsPast(v.poller))
  }

  lemma SingleInHandMeansEmptyPool(v: View, who: Who)
    requires Conserved(1, v) && v.Get(who).Holds?
    ensures v.stock.pool == []
  {
    var p := v.Get(who).p;
    HowMany(1);
    assert p in InHand(v.Get(who)) && InHand(v.Get(who)) <= Hands(v);
    assert |Inventory(v)| == |v.stock.pool| + |v.stock.queue| + |Hands(v)|;
  }

  lemma IntoPoolKeepsSingle(v: View, who: Who)
    requires ViewOk(1, v) && Secure(v) && SingleOk(v) && Apply(v, IntoPool(who)).Some?
    ensures SingleOk(Apply(v, IntoPool(who)).value)
  {
    SingleInHandMeansEmptyPool(v, who);
    assert !Past(v) && v.stopped;
  }

  lemma MoveKeepsSingle(v: View, m: Move)
    requires ViewOk(1, v) && Secure(v) && SingleOk(v) && Apply(v, m).Some?
    ensures SingleOk(Apply(v, m).value)
  {
    match m
    case IntoPool(who) => IntoPoolKeepsSingle(v, who);
    case Stay =>
    case _ => EasyMoveKeepsSingle(v, m);
  }

  lemma EasyMoveKeepsSingle(v: View, m: Move)
    requires SingleOk(v) && Apply(v, m).Some? && !m.IntoPool?
    ensures SingleOk(Apply(v, m).value)
  {
  }

  /** What makes flow control safe for every interleaving. */
  predicate SafeSetting(napi: bool, size: nat) {
    size >= 1 && (!napi || size == 1)
  }

  predicate Safe(s: State) {
    && SafeSetting(s.napi, s.size) && SecureState(s)
    && (!s.napi ==> RegularOk(s.a) && RegularOk(s.b))
    && (s.size == 1 ==> SingleOk(ViewA(s)) && SingleOk(ViewB(s)))
  }

  lemma StepAKeepsSingle(s: State, a: Action)
    requires Safe(s) && s.size == 1 && StepA(s, a).Some?
    ensures var t := StepA(s, a).value; SingleOk(ViewA(t)) && SingleOk(ViewB(t))
  {
    match a
    case Xmit(_) =>
      XmitMoves(s);
      MoveKeepsSingle(ViewA(s), TakeFromPool);
    case Go(_, granted) =>
      GoMoves(s, granted);
      MoveKeepsSingle(ViewA(s), OwnMove(s));
      MoveKeepsSingle(ViewB(s), TwinMove(s));
    case _ =>
      PollMoves(s, a);
      MoveKeepsSingle(ViewA(s), if a.PollGo? then PollMove(s.a) else Stay);
  }

  lemma StepAKeepsSafe(s: State, a: Action)
    requires Safe(s) && StepA(s, a).Some?
    ensures Safe(StepA(s, a).value)
  {
    ModeIsFixed(s, a);
    if a.Xmit? && s.size >= 2 {
      RegularTakeIsSafe(s);
    }
    StepAKeepsSecure(s, a);
    if !s.napi {
      StepAKeepsRegular(s, a);
    }
    if s.size == 1 {
      StepAKeepsSingle(s, a);
    }
  }

  lemma InitIsSafe(napi: bool, size: nat)
    requires SafeSetting(napi, size)
    ensures Safe(Init(napi, size))
  {
    InitIsSecure(napi, size);
    SetupIsOk(size);
  }

  lemma StepKeepsSafe(s: State, a: Action)
    requires Safe(s) && Step(s, a).Some?
    ensures Safe(Step(s, a).value)
  {
    hide StepA, Conserved, Linked, WakeOk, Secure, RegularOk, SingleOk, ViewOf;
    StepAKeepsSafe(if a.second then Swap(s) else s, a);
  }

  lemma SafeSettingIsSafe(napi: bool, size: nat, run: seq<Action>)
    requires SafeSetting(napi, size) && Exec(Step, Init(napi, size), run).Some?
    ensures Safe(Exec(Step, Init(napi, size), run).value)
  {
    InitIsSafe(napi, size);
    forall x, a | Safe(x) && Step(x, a).Some? ensures Safe(Step(x, a).value) {
      StepKeepsSafe(x, a);
    }
    hide Step, Safe;
    InvariantOverRun(Step, Safe, Init(napi, size), run);
  }

  /** In every safe setting, for every interleaving: no transmit meets an empty pool, an empty pool means a stopped
      queue, and a stopped queue with packets in its pool is owed a wake-up. */
  lemma SafeSettingKeepsFlow(napi: bool, size: nat, run: seq<Action>, s: State)
    requires SafeSetting(napi, size) && Exec(Step, Init(napi, size), run) == Some(s)
    ensures !s.oops && (s.a.stock.pool == [] ==> s.a.stopped) && (s.b.stock.pool == [] ==> s.b.stopped)
    ensures s.a.stopped ==> s.a.stock.pool == [] || Owed(ViewA(s))
    ensures s.b.stopped ==> s.b.stock.pool == [] || Owed(ViewB(s))
  {
    SafeSettingIsSafe(napi, size, run);
    NoLostWake(napi, size, run, s);
  }
}
