/** What the receive statistics of snull count, and how far one poll goes, over every run. */
module SnullStats {
  import opened Basics
  import opened Runs
  import opened Snull

  /** Of the packets that have left a receive queue, how many came with a granted and how many with a refused
      dev_alloc_skb; the quota of the latest poll; and how many packets with a granted one it has taken. */
  datatype Tally = Tally(got: nat, lost: nat, quota: nat, polled: nat)

  datatype Watched = Watched(s: State, a: Tally, b: Tally)

  /** Kept from the action and the length of the queue before and after it; `own` is whether the action is on the side
      of this lane. */
  function Count(y: Tally, was: nat, now: nat, act: Action, own: bool): Tally {
    if act.PollStart? && own then y.(quota := act.quota, polled := 0)
    else if now >= was || act.Xmit? || act.PollStart? || act.Enable? then y
    else if !act.granted then y.(lost := y.lost + 1)
    else y.(got := y.got + 1, polled := if act.PollGo? then y.polled + 1 else y.polled)
  }

  function Watch(w: Watched, act: Action): Option<Watched> {
    match Step(w.s, act)
    case None => None
    case Some(t) =>
      Some(Watched(t, Count(w.a, |w.s.a.stock.queue|, |t.a.stock.queue|, act, !act.second),
                   Count(w.b, |w.s.b.stock.queue|, |t.b.stock.queue|, act, act.second)))
  }

  function WatchInit(napi: bool, size: nat): Watched {
    Watched(Init(napi, size), Tally(0, 0, 0, 0), Tally(0, 0, 0, 0))
  }

  /** What is left of the quota of a poll in its loop. */
  function Left(poll: Poll): Option<nat> {
    match poll
    case Loop(left) => Some(left)
    case PollPush(left, _) => Some(left)
    case PollCheck(left, _) => Some(left)
    case PollLook(left, _) => Some(left)
    case PollWake(left, _) => Some(left)
    case _ => None
  }

  predicate LaneOk(l: Lane, y: Tally) {
    && l.stats.rxPackets == y.got && l.stats.rxDropped == y.lost && y.polled <= y.quota
    && (Left(l.rx.poll).Some? ==> Left(l.rx.poll).value + y.polled == y.quota)
  }

  predicate WatchOk(w: Watched) {
    LaneOk(w.s.a, w.a) && LaneOk(w.s.b, w.b)
  }

  /** The count of one lane over a step of the first device. */
  ghost predicate CountsOn(was: Lane, now: Lane, act: Action, own: bool) {
    forall y :: LaneOk(was, y) ==> LaneOk(now, Count(y, |was.stock.queue|, |now.stock.queue|, act, own))
  }

  lemma HandleCounts(napi: bool, l: Lane, act: Action, own: bool)
    requires act.Go?
    ensures CountsOn(l, HandleRx(napi, l, act.granted).lane, act, own)
  {
  }

  /** Nothing is received. */
  predicate Quiet(was: Lane, now: Lane) {
    && now.stats.rxPackets == was.stats.rxPackets && now.stats.rxDropped == was.stats.rxDropped
    && now.rx.poll == was.rx.poll && |now.stock.queue| >= |was.stock.queue|
  }

  lemma QuietCounts(was: Lane, now: Lane, act: Action, own: bool)
    requires Quiet(was, now) && act.Go?
    ensures CountsOn(was, now, act, own)
  {
  }

  lemma GoIsQuiet(s: State, granted: bool)
    requires GoA(s, granted).Some? && !s.a.tx.Handle?
    ensures var t := GoA(s, granted).value; Quiet(s.a, t.a) && Quiet(s.b, t.b)
  {
    hide NextOf, HandleOnTwin, HandleOnSelf;
  }

  lemma HandleGoCounts(s: State, act: Action)
    requires act.Go? && s.a.tx.Handle?
    ensures var t := GoA(s, act.granted).value; CountsOn(s.a, t.a, act, true) && CountsOn(s.b, t.b, act, false)
  {
    hide HandleRx;
    HandleCounts(s.napi, s.a, act, true);
    HandleCounts(s.napi, s.b, act, false);
  }

  lemma GoCounts(s: State, act: Action)
    requires act.Go? && GoA(s, act.granted).Some?
    ensures var t := GoA(s, act.granted).value; CountsOn(s.a, t.a, act, true) && CountsOn(s.b, t.b, act, false)
  {
    hide GoA, CountsOn, Quiet;
    if s.a.tx.Handle? {
      HandleGoCounts(s, act);
    } else {
      GoIsQuiet(s, act.granted);
      QuietCounts(s.a, GoA(s, act.granted).value.a, act, true);
      QuietCounts(s.b, GoA(s, act.granted).value.b, act, false);
    }
  }

  lemma PollCounts(l: Lane, act: Action)
    requires act.PollGo? && PollStep(l, act.granted).Some?
    ensures CountsOn(l, PollStep(l, act.granted).value, act, true)
  {
    hide NextOf;
  }

  lemma StepACounts(s: State, act: Action)
    requires StepA(s, act).Some?
    ensures var t := StepA(s, act).value; CountsOn(s.a, t.a, act, true) && CountsOn(s.b, t.b, act, false)
  {
    match act
    case Xmit(_) =>
    case Go(_, _) => GoCounts(s, act);
    case PollGo(_, _) => PollCounts(s.a, act);
    case _ =>
  }

  lemma StepCounts(w: Watched, act: Action)
    requires WatchOk(w) && Watch(w, act).Some?
    ensures WatchOk(Watch(w, act).value)
  {
    hide StepA, Count, LaneOk;
    StepACounts(if act.second then Swap(w.s) else w.s, act);
  }

  lemma RunCounts(napi: bool, size: nat, run: seq<Action>, w: Watched)
    requires Exec(Watch, WatchInit(napi, size), run) == Some(w)
    ensures WatchOk(w)
  {
    forall x, act | WatchOk(x) && Watch(x, act).Some? ensures WatchOk(Watch(x, act).value) {
      StepCounts(x, act);
    }
    assert WatchOk(WatchInit(napi, size));
    hide WatchOk, Watch;
    InvariantOverRun(Watch, WatchOk, WatchInit(napi, size), run);
  }

  // ---------- main results ----------

  /** Over every run in either mode, rx_packets is the number of packets that left the queue with a granted
      dev_alloc_skb, and rx_dropped the number that left it with a refused one. */
  lemma DroppedAreRefused(napi: bool, size: nat, run: seq<Action>, w: Watched)
    requires Exec(Watch, WatchInit(napi, size), run) == Some(w)
    ensures w.s.a.stats.rxPackets == w.a.got && w.s.a.stats.rxDropped == w.a.lost
    ensures w.s.b.stats.rxPackets == w.b.got && w.s.b.stats.rxDropped == w.b.lost
  {
    RunCounts(napi, size, run, w);
  }

  /** A poll delivers its quota at most, and dropped packets do not count; its loop ends exactly when it has delivered
      the quota or finds the queue empty. */
  lemma PollEndsIff(napi: bool, size: nat, run: seq<Action>, w: Watched, granted: bool, t: State)
    requires Exec(Watch, WatchInit(napi, size), run) == Some(w)
    requires w.s.a.rx.poll.Loop? && Step(w.s, PollGo(false, granted)) == Some(t)
    ensures w.a.polled <= w.a.quota
    ensures t.a.rx.poll.Tail? <==> w.a.polled == w.a.quota || w.s.a.stock.queue == []
  {
    RunCounts(napi, size, run, w);
  }

  /** Every run of the machine is observed. */
  lemma EveryRunIsWatched(w: Watched, run: seq<Action>)
    requires Exec(Step, w.s, run).Some?
    ensures Exec(Watch, w, run).Some? && Exec(Watch, w, run).value.s == Exec(Step, w.s, run).value
  {
    hide Step, Count;
    ObserverFollows(Step, Watch, (x: Watched) => x.s, w, run);
  }
}
