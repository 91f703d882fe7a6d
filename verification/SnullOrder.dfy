/** In which order packets leave the receive queues of snull. */
module SnullOrder {
  import opened Basics
  import opened Runs
  import opened Snull
  import SnullProgress

  /** Of each lane, the packets queued and not yet taken, in the order in which they were queued. */
  datatype Watched = Watched(s: State, a: seq<Packet>, b: seq<Packet>)

  function Waiting(list: seq<Packet>, was: Lane, now: Lane): seq<Packet> {
    if |now.stock.queue| < |was.stock.queue| then if list == [] then [] else list[..|list| - 1]
    else if was.tx.Have? && now.tx.Queued? then list + [was.tx.p]
    else list
  }

  function Watch(w: Watched, act: Action): Option<Watched> {
    match Step(w.s, act)
    case None => None
    case Some(t) => Some(Watched(t, Waiting(w.a, w.s.a, t.a), Waiting(w.b, w.s.b, t.b)))
  }

  function WatchInit(napi: bool, size: nat): Watched {
    Watched(Init(napi, size), [], [])
  }

  function Back(list: seq<Packet>): seq<Packet> {
    seq(|list|, i requires 0 <= i < |list| => list[|list| - 1 - i])
  }

  predicate OrderOk(w: Watched) {
    w.s.a.stock.queue == Back(w.a) && w.s.b.stock.queue == Back(w.b)
  }

  /** The packet that the party of an action has in hand after it, about to be given back. */
  function InHand(t: State, act: Action): Option<Packet> {
    var l, twin := if act.second then t.b else t.a, if act.second then t.a else t.b;
    if act.Go? && l.tx.Push? then Some(l.tx.p)
    else if act.PollGo? && l.rx.poll.PollPush? then Some(l.rx.poll.p)
    else None
  }

  /** What a step does to one queue. */
  predicate OneEnd(was: Lane, now: Lane, hand: Option<Packet>) {
    var q, r := was.stock.queue, now.stock.queue;
    if |r| < |q| then r == q[1..] && hand == Some(q[0])
    else if was.tx.Have? && now.tx.Queued? then r == [was.tx.p] + q
    else r == q
  }

  lemma HandleAtOneEnd(s: State, granted: bool)
    requires s.a.tx.Handle?
    ensures var t := GoA(s, granted).value;
            && OneEnd(s.a, t.a, InHand(t, Go(false, granted))) && OneEnd(s.b, t.b, InHand(t, Go(false, granted)))
  {
  }

  lemma GoAtOneEnd(s: State, granted: bool)
    requires GoA(s, granted).Some? && !s.a.tx.Handle?
    ensures var t := GoA(s, granted).value; OneEnd(s.a, t.a, None) && OneEnd(s.b, t.b, None)
  {
    hide NextOf, HandleOnTwin, HandleOnSelf;
  }

  lemma OneEndAnyHand(was: Lane, now: Lane, hand: Option<Packet>)
    requires OneEnd(was, now, None)
    ensures OneEnd(was, now, hand)
  {
  }

  lemma PollAtOneEnd(s: State, granted: bool)
    requires PollStep(s.a, granted).Some?
    ensures var t := s.(a := PollStep(s.a, granted).value);
            OneEnd(s.a, t.a, InHand(t, PollGo(false, granted)))
  {
    hide NextOf;
  }

  lemma StepAAtOneEnd(s: State, act: Action)
    requires StepA(s, act).Some? && !act.second
    ensures var t := StepA(s, act).value; OneEnd(s.a, t.a, InHand(t, act)) && OneEnd(s.b, t.b, InHand(t, act))
  {
    hide GoA, PollStep;
    match act
    case Xmit(_) =>
    case Go(_, granted) =>
      if s.a.tx.Handle? {
        HandleAtOneEnd(s, granted);
      } else {
        GoAtOneEnd(s, granted);
        var t := GoA(s, granted).value;
        hide OneEnd;
        OneEndAnyHand(s.a, t.a, InHand(t, act));
        OneEndAnyHand(s.b, t.b, InHand(t, act));
      }
    case PollGo(_, granted) => PollAtOneEnd(s, granted);
    case _ =>
  }

  function FirstSide(act: Action): Action {
    match act
    case Xmit(_) => Xmit(false)
    case Go(_, granted) => Go(false, granted)
    case PollStart(_, quota) => PollStart(false, quota)
    case PollGo(_, granted) => PollGo(false, granted)
    case Enable(_) => Enable(false)
  }

  lemma SidesAlike(s: State, act: Action)
    requires act.second
    ensures StepA(s, act) == StepA(s, FirstSide(act)) && InHand(Swap(s), act) == InHand(s, FirstSide(act))
  {
    hide XmitA, GoA, PollStep;
  }

  lemma StepAtOneEnd(s: State, act: Action)
    requires Step(s, act).Some?
    ensures var t := Step(s, act).value; OneEnd(s.a, t.a, InHand(t, act)) && OneEnd(s.b, t.b, InHand(t, act))
  {
    hide StepA, OneEnd, InHand;
    if act.second {
      SidesAlike(Swap(s), act);
      StepAAtOneEnd(Swap(s), FirstSide(act));
      SidesAlike(StepA(Swap(s), act).value, act);
    } else {
      StepAAtOneEnd(s, act);
    }
  }

  lemma WaitingKeepsBack(was: Lane, now: Lane, hand: Option<Packet>, list: seq<Packet>)
    requires was.stock.queue == Back(list) && OneEnd(was, now, hand)
    ensures now.stock.queue == Back(Waiting(list, was, now))
    ensures |now.stock.queue| < |was.stock.queue| ==> list != [] && hand == Some(list[|list| - 1])
  {
  }

  lemma StepKeepsOrder(w: Watched, act: Action)
    requires OrderOk(w) && Watch(w, act).Some?
    ensures OrderOk(Watch(w, act).value)
  {
    StepAtOneEnd(w.s, act);
    hide Step, OneEnd, Back, Waiting, InHand;
    var t := Step(w.s, act).value;
    WaitingKeepsBack(w.s.a, t.a, InHand(t, act), w.a);
    WaitingKeepsBack(w.s.b, t.b, InHand(t, act), w.b);
  }

  /** Over every run, the packet that leaves a receive queue, for delivery or to be dropped, is the one queued last of
      those still there: what piles up for a poll is delivered back to front. */
  lemma LatestQueuedLeavesFirst(napi: bool, size: nat, run: seq<Action>, w: Watched, act: Action, t: State)
    requires Exec(Watch, WatchInit(napi, size), run) == Some(w) && Step(w.s, act) == Some(t)
    ensures |w.s.a.stock.queue| == |w.a| && |w.s.b.stock.queue| == |w.b|
    ensures |t.a.stock.queue| < |w.s.a.stock.queue| ==> w.a != [] && InHand(t, act) == Some(w.a[|w.a| - 1])
    ensures |t.b.stock.queue| < |w.s.b.stock.queue| ==> w.b != [] && InHand(t, act) == Some(w.b[|w.b| - 1])
  {
    SnullProgress.SetupHasNoQueue(size);
    forall x, c | OrderOk(x) && Watch(x, c).Some? ensures OrderOk(Watch(x, c).value) {
      StepKeepsOrder(x, c);
    }
    assert OrderOk(WatchInit(napi, size));
    hide Watch, Step, OneEnd, InHand;
    InvariantOverRun(Watch, OrderOk, WatchInit(napi, size), run);
    StepAtOneEnd(w.s, act);
    WaitingKeepsBack(w.s.a, t.a, InHand(t, act), w.a);
    WaitingKeepsBack(w.s.b, t.b, InHand(t, act), w.b);
  }

  /** Every run of the machine is observed. */
  lemma EveryRunIsWatched(w: Watched, run: seq<Action>)
    requires Exec(Step, w.s, run).Some?
    ensures Exec(Watch, w, run).Some? && Exec(Watch, w, run).value.s == Exec(Step, w.s, run).value
  {
    hide Step, Waiting;
    ObserverFollows(Step, Watch, (x: Watched) => x.s, w, run);
  }
}
