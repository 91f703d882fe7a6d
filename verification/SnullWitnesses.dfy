/** Runs that show which conditions the results about snull need, and the settings in which they hold. */
module SnullWitnesses {
  import opened Basics
  import opened Runs
  import opened Snull
  import opened SnullLane
  import opened SnullInvariants
  import opened SnullFlow
  import opened SnullExact
  import opened SnullProgress

  lemma GoTo(init: State, s: State, a: Action, t: State)
    requires Leads(Step, init, s) && Step(s, a) == Some(t)
    ensures Leads(Step, init, t)
  {
    LeadsOn(Step, init, s, a);
  }

  const Next: Action := Go(false, true)
  const NextPoll: Action := PollGo(false, true)

  /** The second device sleeps; the first is between transmits and has room. */
  predicate Ready(s: State) {
    && s.napi && !s.oops && s.b == InitLane(s.size)
    && s.a.tx.Idle? && !s.a.txBit && !s.a.rx.rxBit && !s.a.stopped && s.a.stock.pool != []
  }

  /** A transmit up to the point where it has tested rx_int_enabled. */
  lemma HandOver(init: State, s: State) returns (u: State)
    requires Leads(Step, init, s) && Ready(s)
    ensures Leads(Step, init, u) && u.napi && !u.oops && u.size == s.size && u.b == s.b && !u.a.txBit
    ensures u.a.stock == Enqueue(s.a.stock.(pool := s.a.stock.pool[1..]), s.a.stock.pool[0])
    ensures u.a.stopped == (s.a.stock.pool[1..] == [])
    ensures u.a.tx == (if s.a.rx.intsOn then Handle(OnTwin) else Raise)
    ensures u.a.rx == s.a.rx.(rxBit := s.a.rx.intsOn)
  {
    u := s.(a := TakeBuffer(s.a));
    GoTo(init, s, Xmit(false), u);
    var t := u.(a := u.a.(stock := Enqueue(u.a.stock, s.a.stock.pool[0]), tx := Queued));
    GoTo(init, u, Next, t);
    u := t.(a := t.a.(tx := if s.a.rx.intsOn then RaiseRx else Raise));
    GoTo(init, t, Next, u);
    if s.a.rx.intsOn {
      t := u;
      u := t.(a := t.a.(tx := Handle(OnTwin), rx := s.a.rx.(rxBit := true)));
      GoTo(init, t, Next, u);
    }
  }

  /** The end of a transmit: SNULL_TX_INTR and its handler. */
  lemma FinishTransmit(init: State, s: State) returns (u: State)
    requires Leads(Step, init, s) && s.napi && !s.oops && s.b == InitLane(s.size) && s.a.tx.Raise? && !s.a.txBit
    ensures Leads(Step, init, u) && u.napi && !u.oops && u.size == s.size && u.b == s.b
    ensures u.a.tx.Idle? && !u.a.txBit && u.a.stock == s.a.stock && u.a.stopped == s.a.stopped && u.a.rx == s.a.rx
  {
    var t := s.(a := s.a.(txBit := true, tx := Handle(OnSelf)));
    GoTo(init, s, Next, t);
    u := HandleOnSelf(t, true);
    GoTo(init, t, Next, u);
  }

  /** With receive interrupts masked, a transmit just moves the top packet of the pool to the queue. */
  lemma MaskedTransmit(init: State, s: State) returns (u: State)
    requires Leads(Step, init, s) && Ready(s) && !s.a.rx.intsOn
    ensures Leads(Step, init, u) && u.napi && !u.oops && u.size == s.size && u.b == s.b
    ensures u.a.tx.Idle? && !u.a.txBit && u.a.rx == s.a.rx
    ensures u.a.stock == Enqueue(s.a.stock.(pool := s.a.stock.pool[1..]), s.a.stock.pool[0])
    ensures u.a.stopped == (s.a.stock.pool[1..] == [])
  {
    u := HandOver(init, s);
    u := FinishTransmit(init, u);
  }

  /** The first transmit masks receive interrupts and schedules the poll. */
  lemma FirstTransmit(size: nat) returns (u: State)
    requires size >= 1
    ensures Leads(Step, Init(true, size), u) && u.napi && !u.oops && u.size == size && u.b == InitLane(size)
    ensures u.a.tx.Idle? && !u.a.txBit && u.a.rx == Receiver(false, false, Scheduled, 0)
    ensures var k := SetupPool(size); u.a.stock == Enqueue(k.(pool := k.pool[1..]), k.pool[0])
    ensures u.a.stopped == (size == 1)
  {
    SetupIsOk(size);
    LeadsToItself(Step, Init(true, size));
    u := HandOver(Init(true, size), Init(true, size));
    var t := HandleOnTwin(u, true);
    GoTo(Init(true, size), u, Next, t);
    u := FinishTransmit(Init(true, size), t);
  }

  /** The poll takes the packet, puts it back, drops the lock, and is held up there. */
  lemma PollUpToCheck(init: State, s: State) returns (u: State)
    requires Leads(Step, init, s) && s.napi && !s.oops && s.a.rx.poll.Scheduled? && |s.a.stock.queue| == 1
    ensures Leads(Step, init, u) && u == s.(a := u.a)
    ensures u.a == s.a.(stock := PushBack(s.a.stock.(queue := []), s.a.stock.queue[0]),
            rx := s.a.rx.(poll := PollCheck(0, s.a.stock.queue[0])), stats := u.a.stats)
  {
    var p := s.a.stock.queue[0];
    var s1 := s.(a := s.a.(rx := s.a.rx.(poll := Loop(1))));
    GoTo(init, s, PollStart(false, 1), s1);
    assert s.a.stock.queue[1..] == [];
    var s2 := s1.(a := Receive(s1.a, true).(rx := s1.a.rx.(poll := PollPush(0, p))));
    GoTo(init, s1, NextPoll, s2);
    u := s2.(a := s2.a.(stock := PushBack(s2.a.stock, p), rx := s2.a.rx.(poll := PollCheck(0, p))));
    GoTo(init, s2, NextPoll, u);
  }

  /** Transmits go on until the pool is empty, and `p`, already queued, keeps its stale next. */
  lemma {:induction false} DrainPool(init: State, s: State, p: Packet) returns (u: State)
    requires Leads(Step, init, s) && Ready(s) && !s.a.rx.intsOn && p !in s.a.stock.pool
    ensures Leads(Step, init, u) && u.napi && !u.oops && u.size == s.size
    ensures u.a.tx.Idle? && u.a.rx == s.a.rx && u.a.stock.pool == [] && u.a.stopped
    ensures NextOf(u.a.stock, p) == NextOf(s.a.stock, p)
    decreases |s.a.stock.pool|
  {
    u := MaskedTransmit(init, s);
    if |s.a.stock.pool| > 1 {
      u := DrainPool(init, u, p);
    }
  }

  /** The poll resumes, finds the queue stopped and then a null next, and wakes the queue over the empty pool. */
  lemma WakeOverEmpty(init: State, s: State) returns (u: State)
    requires Leads(Step, init, s) && s.napi && !s.oops && s.a.tx.Idle? && s.a.stock.pool == [] && s.a.stopped
    requires s.a.rx.poll.PollCheck? && NextOf(s.a.stock, s.a.rx.poll.p).None?
    ensures Leads(Step, init, u) && !u.oops && u.a.tx.Idle? && u.a.stock.pool == [] && !u.a.stopped
  {
    var PollCheck(left, p) := s.a.rx.poll;
    var s1 := s.(a := s.a.(rx := s.a.rx.(poll := PollLook(left, p))));
    GoTo(init, s, NextPoll, s1);
    var s2 := s1.(a := s1.a.(rx := s1.a.rx.(poll := PollWake(left, p))));
    GoTo(init, s1, NextPoll, s2);
    u := s2.(a := s2.a.(stopped := false, rx := s2.a.rx.(poll := Loop(left))));
    GoTo(init, s2, NextPoll, u);
  }

  lemma NapiWakesOverEmpty(size: nat) returns (u: State)
    requires size >= 2
    ensures Leads(Step, Init(true, size), u) && !u.oops && u.a.tx.Idle? && u.a.stock.pool == [] && !u.a.stopped
  {
    var init := Init(true, size);
    SetupIsOk(size);
    u := FirstTransmit(size);
    var p := u.a.stock.queue[0];
    u := PollUpToCheck(init, u);
    assert p !in u.a.stock.pool[1..] by {
      StalePacketIsOut(size);
    }
    u := MaskedTransmit(init, u);
    u := DrainPool(init, u, p);
    u := WakeOverEmpty(init, u);
  }

  lemma NapiOops(size: nat) returns (u: State)
    requires size >= 2
    ensures Leads(Step, Init(true, size), u) && u.oops
  {
    var s := NapiWakesOverEmpty(size);
    u := s.(oops := true);
    GoTo(Init(true, size), s, Xmit(false), u);
  }

  /** The packets of a fresh pool are distinct. */
  lemma StalePacketIsOut(size: nat)
    requires size >= 1
    ensures |SetupPool(size).pool| == size
    ensures SetupPool(size).pool[0] !in SetupPool(size).pool[1..]
  {
    SetupIsOk(size);
    var pool := SetupPool(size).pool;
    EachPacketOnce(size, pool[0]);
    HeadOff(pool);
    assert multiset(pool[1..])[pool[0]] == 0;
  }

  /** snull_get_tx_buffer never meets an empty pool, in any run. */
  ghost predicate NeverOops(napi: bool, size: nat) {
    forall s :: Leads(Step, Init(napi, size), s) ==> !s.oops
  }

  /** Flow control holds over every interleaving exactly in interrupt mode, or with a pool of one packet: in
      NAPI mode the test of `pkt->next` after the unlock of snull_release_buffer can read a stale field. */
  lemma FlowControlIff(napi: bool, size: nat)
    ensures NeverOops(napi, size) <==> SafeSetting(napi, size)
  {
    var init := Init(napi, size);
    if SafeSetting(napi, size) {
      forall s | Leads(Step, init, s) ensures !s.oops {
        var run :| Exec(Step, init, run) == Some(s);
        SafeSettingIsSafe(napi, size, run);
      }
    } else if size == 0 {
      LeadsToItself(Step, init);
      GoTo(init, init, Xmit(false), init.(oops := true));
    } else {
      var u := NapiOops(size);
      assert Leads(Step, init, u) && u.oops;
    }
  }

  /** A packet can be overlooked, whatever the size of the pool: it is queued, and rx_int_enabled tested, after the
      poll has found the queue empty and before it enables interrupts. */
  lemma OverlookedReachable(size: nat)
    requires size >= 1
    ensures exists s :: Leads(Step, Init(true, size), s) && Overlooked(s)
  {
    var init := Init(true, size);
    SetupIsOk(size);
    var u := FirstTransmit(size);
    u := PollUpToCheck(init, u);
    u := FinishRelease(init, u);
    u := FinishPoll(init, u);
    u := MaskedTransmit(init, u);
    var t := u.(a := u.a.(rx := Receiver(false, true, Off, 0)));
    GoTo(init, u, Enable(false), t);
    assert Overlooked(t);
  }

  /** The poll comes back from snull_release_buffer, having woken the queue if its packet went into an empty pool. */
  lemma FinishRelease(init: State, s: State) returns (u: State)
    requires Leads(Step, init, s) && s.napi && !s.oops && s.a.rx.poll.PollCheck?
    requires s.a.stopped ==> NextOf(s.a.stock, s.a.rx.poll.p).None?
    ensures Leads(Step, init, u) && u == s.(a := s.a.(stopped := false, rx := s.a.rx.(poll := Loop(s.a.rx.poll.left))))
  {
    var PollCheck(left, p) := s.a.rx.poll;
    u := s.(a := s.a.(stopped := false, rx := s.a.rx.(poll := Loop(left))));
    if s.a.stopped {
      var s1 := s.(a := s.a.(rx := s.a.rx.(poll := PollLook(left, p))));
      GoTo(init, s, NextPoll, s1);
      var s2 := s1.(a := s1.a.(rx := s1.a.rx.(poll := PollWake(left, p))));
      GoTo(init, s1, NextPoll, s2);
      GoTo(init, s2, NextPoll, u);
    } else {
      GoTo(init, s, NextPoll, u);
    }
  }

  /** The poll finds the queue empty and completes; interrupts are still masked. */
  lemma FinishPoll(init: State, s: State) returns (u: State)
    requires Leads(Step, init, s) && s.napi && !s.oops && s.a.stock.queue == []
    requires s.a.rx.poll == Loop(0) && s.a.rx.enabling == 0
    ensures Leads(Step, init, u) && u == s.(a := s.a.(rx := s.a.rx.(poll := Off, enabling := 1)))
  {
    var t := s.(a := s.a.(rx := s.a.rx.(poll := Tail)));
    GoTo(init, s, NextPoll, t);
    u := t.(a := t.a.(rx := t.a.rx.(poll := Done)));
    GoTo(init, t, NextPoll, u);
    t := u;
    u := t.(a := t.a.(rx := t.a.rx.(poll := Off, enabling := 1)));
    GoTo(init, t, NextPoll, u);
  }

  // ---------- a stale look in interrupt mode ----------

  const NextB: Action := Go(true, true)

  /** Interrupt mode, with no receive interrupt pending for lane b. */
  predicate Setting(s: State) {
    !s.napi && !s.oops && !s.b.rx.rxBit && s.a.rx.intsOn
  }

  /** The second device transmits, up to the handler for its own interrupt. */
  lemma SecondTransmits() returns (u: State)
    ensures Leads(Step, Init(false, 2), u) && Setting(u) && u.a == InitLane(2) && u.b.tx == Handle(OnSelf)
  {
    var init := Init(false, 2);
    LeadsToItself(Step, init);
    SetupOfTwo();
    LeadsOn(Step, init, init, Xmit(true));
    u := Step(init, Xmit(true)).value;
    LeadsOn(Step, init, u, NextB);
    u := Step(u, NextB).value;
    LeadsOn(Step, init, u, NextB);
    u := Step(u, NextB).value;
    LeadsOn(Step, init, u, NextB);
    u := Step(u, NextB).value;
    assert u.b.tx == Handle(OnTwin) && u.b.stock.queue == [1] && u.b.rx.rxBit && u.a == InitLane(2);
    u := SecondTakesBack(init, u);
  }

  lemma SetupOfTwo()
    ensures SetupPool(2) == Stock([1, 0], [], map[0 := None, 1 := Some(0)])
  {
    assert SetupPool(1) == PushBack(SetupPool(0), 0);
    assert SetupPool(2) == PushBack(SetupPool(1), 1);
  }

  lemma SecondTakesBack(init: State, s: State) returns (u: State)
    requires Leads(Step, init, s) && !s.napi && !s.oops && s.b.tx == Handle(OnTwin) && s.b.stock.queue == [1]
    requires s.b.rx.rxBit
    requires s.a == InitLane(2) && !s.b.stopped
    ensures Leads(Step, init, u) && Setting(u) && u.a == s.a && u.b.tx == Handle(OnSelf)
  {
    LeadsOn(Step, init, s, NextB);
    u := Step(s, NextB).value;
    LeadsOn(Step, init, u, NextB);
    u := Step(u, NextB).value;
    LeadsOn(Step, init, u, NextB);
    u := Step(u, NextB).value;
    LeadsOn(Step, init, u, NextB);
    u := Step(u, NextB).value;
  }

  /** The first device puts the top packet of its pool on the queue. */
  lemma Queue(init: State, s: State) returns (u: State)
    requires Leads(Step, init, s) && Setting(s) && s.a.tx.Idle? && !s.a.stopped && s.a.stock.pool != []
    ensures Leads(Step, init, u) && Setting(u) && u.b == s.b && u.a.tx.Queued? && u.a.txBit == s.a.txBit
    ensures u.a.rx == s.a.rx
    ensures u.a.stock == Enqueue(s.a.stock.(pool := s.a.stock.pool[1..]), s.a.stock.pool[0])
    ensures u.a.stopped == (s.a.stock.pool[1..] == [])
  {
    LeadsOn(Step, init, s, Xmit(false));
    u := Step(s, Xmit(false)).value;
    LeadsOn(Step, init, u, Next);
    u := Step(u, Next).value;
  }

  lemma Interrupt(init: State, s: State) returns (u: State)
    requires Leads(Step, init, s) && Setting(s) && s.a.tx.Queued?
    ensures Leads(Step, init, u) && Setting(u)
    ensures u == s.(a := s.a.(tx := Handle(OnTwin), rx := s.a.rx.(rxBit := true)))
  {
    var t := s.(a := s.a.(tx := RaiseRx));
    GoTo(init, s, Next, t);
    u := t.(a := t.a.(rx := t.a.rx.(rxBit := true), tx := Handle(OnTwin)));
    GoTo(init, t, Next, u);
  }

  /** The handler that the second device is in takes the packet, so that of the first finds nothing to do. */
  lemma SecondTakes(init: State, s: State, p: Packet) returns (u: State)
    requires Leads(Step, init, s) && Setting(s) && s.b.tx == Handle(OnSelf) && s.a.rx.rxBit && s.a.stock.queue == [p]
    requires s.a.tx == Handle(OnTwin)
    ensures Leads(Step, init, u) && Setting(u) && u.b.tx == Push(OnSelf, p) && !u.b.txBit && u.a.tx.Raise?
    ensures !u.a.rx.rxBit
    ensures u.a.stock == s.a.stock.(queue := []) && u.a.stopped == s.a.stopped && u.a.txBit == s.a.txBit
  {
    LeadsOn(Step, init, s, NextB);
    u := Step(s, NextB).value;
    LeadsOn(Step, init, u, Next);
    u := Step(u, Next).value;
  }

  lemma Finish(init: State, s: State) returns (u: State)
    requires Leads(Step, init, s) && Setting(s) && s.a.tx.Raise?
    ensures Leads(Step, init, u) && Setting(u) && u.a.tx.Idle? && u.b == s.b
    ensures u.a.stock == s.a.stock && u.a.stopped == s.a.stopped && u.a.rx == s.a.rx
  {
    LeadsOn(Step, init, s, Next);
    u := Step(s, Next).value;
    LeadsOn(Step, init, u, Next);
    u := Step(u, Next).value;
  }

  /** The first device takes its packet back and puts it into the pool. */
  lemma TakeBack(init: State, s: State, p: Packet) returns (u: State)
    requires Leads(Step, init, s) && Setting(s) && s.a.tx == Handle(OnTwin) && s.a.rx.rxBit && s.a.stock.queue == [p]
    requires s.b.tx.Push? && !s.b.txBit
    ensures Leads(Step, init, u) && Setting(u) && u.a.tx == Check(OnTwin, p) && u.b == s.b && u.a.stopped == s.a.stopped
    ensures u.a.stock == PushBack(s.a.stock.(queue := []), p) && !u.a.rx.rxBit
  {
    LeadsOn(Step, init, s, Next);
    u := Step(s, Next).value;
    LeadsOn(Step, init, u, Next);
    u := Step(u, Next).value;
  }

  /** The second device puts its packet on top, sees the stopped queue, and is held up before it reads `next`. */
  lemma SecondPutsBack(init: State, s: State, p: Packet) returns (u: State)
    requires Leads(Step, init, s) && Setting(s) && s.b.tx == Push(OnSelf, p) && s.a.stopped
    ensures Leads(Step, init, u) && Setting(u) && u.b.tx == Look(OnSelf, p)
    ensures u.a == s.a.(stock := PushBack(s.a.stock, p))
  {
    LeadsOn(Step, init, s, NextB);
    u := Step(s, NextB).value;
    LeadsOn(Step, init, u, NextB);
    u := Step(u, NextB).value;
  }

  lemma WakeUp(init: State, s: State, p: Packet) returns (u: State)
    requires Leads(Step, init, s) && Setting(s) && s.a.tx == Check(OnTwin, p) && s.a.stopped
    requires NextOf(s.a.stock, p).None?
    ensures Leads(Step, init, u) && Setting(u) && u == s.(a := s.a.(stopped := false, tx := Raise))
  {
    u := s.(a := s.a.(tx := Look(OnTwin, p)));
    GoTo(init, s, Next, u);
    var t := u.(a := u.a.(tx := Wake(OnTwin, p)));
    GoTo(init, u, Next, t);
    u := t.(a := t.a.(stopped := false, tx := Raise));
    GoTo(init, t, Next, u);
  }

  /** The second device has packet 1 in hand, the first has sent packet 0 and is about to handle it. */
  lemma BothOut() returns (u: State)
    ensures Leads(Step, Init(false, 2), u) && Setting(u) && u.b.tx == Push(OnSelf, 1) && !u.b.txBit
    ensures u.a.tx == Handle(OnTwin) && u.a.rx.rxBit && u.a.stopped
    ensures u.a.stock.pool == [] && u.a.stock.queue == [0]
  {
    var init := Init(false, 2);
    SetupOfTwo();
    u := SecondTransmits();
    hide Step;
    u := Queue(init, u);
    u := Interrupt(init, u);
    u := SecondTakes(init, u, 1);
    u := Finish(init, u);
    u := Queue(init, u);
    u := Interrupt(init, u);
  }

  /** In interrupt mode with two packets: the second device looks at a packet that the first has sent since, and is
      about to wake a queue that is not stopped. */
  lemma StaleInInterruptMode() returns (u: State)
    ensures Leads(Step, Init(false, 2), u) && !u.a.stopped && u.a.stock.pool == [0] && u.b.tx == Wake(OnSelf, 1)
    ensures !StoppedExactly(ViewA(u))
  {
    var init := Init(false, 2);
    u := BothOut();
    u := TakeBack(init, u, 0);
    u := SecondPutsBack(init, u, 1);
    assert u.a.stock.pool == [1, 0] && NextOf(u.a.stock, 0).None?;
    u := WakeUp(init, u, 0);
    u := Finish(init, u);
    u := Queue(init, u);
    assert u.a.stock.pool == [0] && NextOf(u.a.stock, 1).None?;
    u := SecondDecides(init, u);
  }

  lemma SecondDecides(init: State, s: State) returns (u: State)
    requires Leads(Step, init, s) && Setting(s) && s.b.tx == Look(OnSelf, 1) && !s.a.stopped && s.a.stock.pool == [0]
    requires NextOf(s.a.stock, 1).None?
    ensures Leads(Step, init, u) && u.a == s.a && u.b.tx == Wake(OnSelf, 1) && !StoppedExactly(ViewA(u))
  {
    LeadsOn(Step, init, s, NextB);
    u := Step(s, NextB).value;
    assert WillWake(ViewA(u).Get(Twin), u.a.stock.pool);
  }

  // ---------- the settings in which the queue is stopped exactly when it should be ----------

  ghost predicate AlwaysExact(napi: bool, size: nat) {
    forall s :: Leads(Step, Init(napi, size), s) ==> Exact(s)
  }

  /** For every interleaving, a queue is stopped exactly when its pool is empty or one releaser owes it a wake-up:
      this holds of a pool of one packet, of three packets or more in interrupt mode, and of no other setting. */
  lemma StoppedExactlyIff(napi: bool, size: nat)
    ensures AlwaysExact(napi, size) <==> ExactSetting(napi, size)
  {
    var init := Init(napi, size);
    if ExactSetting(napi, size) {
      forall s | Leads(Step, init, s) ensures Exact(s) {
        var run :| Exec(Step, init, run) == Some(s);
        ExactSettingIsExact(napi, size, run, s);
      }
    } else if size == 0 {
      LeadsToItself(Step, init);
      assert !Exact(init);
    } else if napi {
      var u := NapiWakesOverEmpty(size);
      assert !Exact(u);
    } else {
      var u := StaleInInterruptMode();
      assert !Exact(u);
    }
  }
}
