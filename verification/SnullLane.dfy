/** One lane seen from its packets: the lists, the stopped flag, and the three parties that may hold a packet
    or owe the queue a wake-up, namely the transmit of the home device, the transmit of the twin, and the
    twin's poll.  Module SnullInvariants shows that every step of the machine is one of these moves. */
module SnullLane {
  import opened Basics
  import opened Snull

  datatype Party =
    | Nobody
    | Holds(p: Packet)   // the packet is in its hands
    | Checks(p: Packet)  // has put it back and is about to test whether the queue is stopped
    | Looks(p: Packet)   // found it stopped and is about to read p->next
    | Wakes              // is about to call netif_wake_queue

  datatype Who = Own | Twin | Poller

  datatype View = View(stock: Stock, stopped: bool, own: Party, twin: Party, poller: Party) {
    function Get(who: Who): Party {
      match who
      case Own => own
      case Twin => twin
      case Poller => poller
    }

    function Set(who: Who, party: Party): (v: View)
      ensures v.Get(who) == party && v.stock == stock && v.stopped == stopped
      ensures forall w :: w != who ==> v.Get(w) == Get(w)
    {
      match who
      case Own => this.(own := party)
      case Twin => this.(twin := party)
      case Poller => this.(poller := party)
    }
  }

  function OwnParty(tx: Tx): Party {
    match tx
    case Have(p) => Holds(p)
    case Push(OnTwin, p) => Holds(p)
    case Check(OnTwin, p) => Checks(p)
    case Look(OnTwin, p) => Looks(p)
    case Wake(OnTwin, _) => Wakes
    case _ => Nobody
  }

  function TwinParty(tx: Tx): Party {
    match tx
    case Push(OnSelf, p) => Holds(p)
    case Check(OnSelf, p) => Checks(p)
    case Look(OnSelf, p) => Looks(p)
    case Wake(OnSelf, _) => Wakes
    case _ => Nobody
  }

  function PollParty(poll: Poll): Party {
    match poll
    case PollPush(_, p) => Holds(p)
    case PollCheck(_, p) => Checks(p)
    case PollLook(_, p) => Looks(p)
    case PollWake(_, _) => Wakes
    case _ => Nobody
  }

  function ViewOf(l: Lane, twin: Tx): View {
    View(l.stock, l.stopped, OwnParty(l.tx), TwinParty(twin), PollParty(l.rx.poll))
  }

  datatype Move =
    | Stay
    | TakeFromPool           // snull_get_tx_buffer
    | IntoQueue              // snull_enqueue_buf
    | FromQueue(who: Who)    // a packet is received into somebody's hands
    | IntoPool(who: Who)     // the locked part of snull_release_buffer
    | TestStopped(who: Who)  // the first test that follows it
    | TestNext(who: Who)     // the second
    | WakeQueue(who: Who)

  function Apply(v: View, m: Move): Option<View> {
    match m
    case Stay => Some(v)
    case TakeFromPool =>
      if v.stock.pool == [] || v.stopped || !v.own.Nobody? then None
      else
        var rest := v.stock.pool[1..];
        Some(v.(stock := v.stock.(pool := rest), stopped := rest == [], own := Holds(v.stock.pool[0])))
    case IntoQueue =>
      if v.own.Holds? then Some(v.(stock := Enqueue(v.stock, v.own.p), own := Nobody)) else None
    case FromQueue(who) =>
      if v.stock.queue == [] || !v.Get(who).Nobody? then None
      else Some(v.(stock := v.stock.(queue := v.stock.queue[1..])).Set(who, Holds(v.stock.queue[0])))
    case IntoPool(who) =>
      if v.Get(who).Holds? then Some(v.(stock := PushBack(v.stock, v.Get(who).p)).Set(who, Checks(v.Get(who).p)))
      else None
    case TestStopped(who) =>
      if v.Get(who).Checks? then Some(v.Set(who, if v.stopped then Looks(v.Get(who).p) else Nobody)) else None
    case TestNext(who) =>
      if v.Get(who).Looks? then Some(v.Set(who, if NextOf(v.stock, v.Get(who).p).None? then Wakes else Nobody))
      else None
    case WakeQueue(who) =>
      if v.Get(who).Wakes? then Some(v.(stopped := false).Set(who, Nobody)) else None
  }

  // ---------- invariants of a view ----------

  /** The packets of a lane, each once. */
  function AllPackets(size: nat): multiset<Packet> {
    if size == 0 then multiset{} else AllPackets(size - 1) + multiset{size - 1}
  }

  function InHand(party: Party): multiset<Packet> {
    if party.Holds? then multiset{party.p} else multiset{}
  }

  function Hands(v: View): multiset<Packet> {
    InHand(v.own) + InHand(v.twin) + InHand(v.poller)
  }

  function Inventory(v: View): multiset<Packet> {
    multiset(v.stock.pool) + multiset(v.stock.queue) + Hands(v)
  }

  /** Every packet of the lane is in exactly one place. */
  predicate Conserved(size: nat, v: View) {
    Inventory(v) == AllPackets(size)
  }

  /** In the pool, `next` is the link to the packet below. */
  predicate Linked(k: Stock) {
    forall i :: 0 <= i < |k.pool| ==> LinkedAt(k, i)
  }

  predicate LinkedAt(k: Stock, i: nat)
    requires i < |k.pool|
  {
    NextOf(k, k.pool[i]) == if i + 1 < |k.pool| then Some(k.pool[i + 1]) else None
  }

  /** `party` is going to wake the queue: it is about to, or the packet it put back is the bottom one. */
  predicate WillWake(party: Party, pool: seq<Packet>)
    requires pool != []
  {
    party.Wakes? || ((party.Checks? || party.Looks?) && party.p == pool[|pool| - 1])
  }

  predicate Owed(v: View)
    requires v.stock.pool != []
  {
    exists who :: WillWake(v.Get(who), v.stock.pool)
  }

  /** No lost wake-up: a stopped queue with packets in the pool has somebody about to wake it. */
  predicate WakeOk(v: View) {
    v.stopped && v.stock.pool != [] ==> Owed(v)
  }

  predicate ViewOk(size: nat, v: View) {
    Conserved(size, v) && Linked(v.stock) && WakeOk(v)
  }

  // ---------- how the moves keep them ----------

  lemma {:induction false} EachPacketOnce(size: nat, p: Packet)
    ensures AllPackets(size)[p] == if p < size then 1 else 0
  {
    if size > 0 {
      EachPacketOnce(size - 1, p);
    }
  }

  /** A packet held by somebody is on no list. */
  lemma HeldIsOffList(size: nat, v: View, who: Who)
    requires Conserved(size, v) && v.Get(who).Holds?
    ensures v.Get(who).p !in v.stock.pool && v.Get(who).p !in v.stock.queue
  {
    var p := v.Get(who).p;
    EachPacketOnce(size, p);
    assert InHand(v.Get(who))[p] == 1;
    assert Inventory(v)[p] <= 1;
    assert multiset(v.stock.pool)[p] == 0 && multiset(v.stock.queue)[p] == 0;
  }

  lemma PushKeepsLinks(k: Stock, p: Packet)
    requires Linked(k) && p !in k.pool
    ensures Linked(PushBack(k, p))
  {
    var k' := PushBack(k, p);
    forall i | 0 <= i < |k'.pool| ensures LinkedAt(k', i) {
      if i > 0 {
        assert LinkedAt(k, i - 1);
        assert k'.pool[i] == k.pool[i - 1] != p;
      }
    }
  }

  lemma EnqueueKeepsLinks(k: Stock, p: Packet)
    requires Linked(k) && p !in k.pool
    ensures Linked(Enqueue(k, p))
  {
    var k' := Enqueue(k, p);
    forall i | 0 <= i < |k'.pool| ensures LinkedAt(k', i) {
      assert LinkedAt(k, i);
      assert k'.pool[i] == k.pool[i] != p;
    }
  }

  lemma HeadOff(list: seq<Packet>)
    requires list != []
    ensures multiset(list) == multiset{list[0]} + multiset(list[1..])
  {
    assert list == [list[0]] + list[1..];
  }

  lemma PutOn(p: Packet, list: seq<Packet>)
    ensures multiset([p] + list) == multiset{p} + multiset(list)
  {
  }

  lemma TakeFromPoolKeeps(size: nat, v: View)
    requires ViewOk(size, v) && Apply(v, TakeFromPool).Some?
    ensures ViewOk(size, Apply(v, TakeFromPool).value)
  {
    var w := Apply(v, TakeFromPool).value;
    HeadOff(v.stock.pool);
    assert Inventory(w) == Inventory(v);
    forall i | 0 <= i < |w.stock.pool| ensures LinkedAt(w.stock, i) {
      assert LinkedAt(v.stock, i + 1);
    }
  }

  lemma IntoQueueConserves(v: View)
    requires Apply(v, IntoQueue).Some?
    ensures Inventory(Apply(v, IntoQueue).value) == Inventory(v)
  {
    PutOn(v.own.p, v.stock.queue);
  }

  lemma IntoQueueKeeps(size: nat, v: View)
    requires ViewOk(size, v) && Apply(v, IntoQueue).Some?
    ensures ViewOk(size, Apply(v, IntoQueue).value)
  {
    var w := Apply(v, IntoQueue).value;
    HeldIsOffList(size, v, Own);
    EnqueueKeepsLinks(v.stock, v.own.p);
    IntoQueueConserves(v);
    hide Linked, Inventory;
    if v.stopped && v.stock.pool != [] {
      StillOwed(v, Own, w);
    }
  }

  /** What changing one party does to the packets in hand. */
  lemma HandsAfter(v: View, who: Who, party: Party)
    ensures Hands(v.Set(who, party)) + InHand(v.Get(who)) == Hands(v) + InHand(party)
  {
    hide InHand;
    var x, y := InHand(v.Get(who)), InHand(party);
    match who
    case Own => Exchange(x, InHand(v.twin), InHand(v.poller), y);
    case Twin => Exchange(x, InHand(v.own), InHand(v.poller), y);
    case Poller => Exchange(x, InHand(v.own), InHand(v.twin), y);
  }

  lemma Exchange(x: multiset<Packet>, b: multiset<Packet>, c: multiset<Packet>, y: multiset<Packet>)
    ensures y + b + c + x == x + b + c + y
    ensures b + y + c + x == b + x + c + y
    ensures b + c + y + x == b + c + x + y
  {
  }

  /** A packet that leaves a hand for a list, or a list for a hand, is still there once. */
  lemma Regroup(pool: multiset<Packet>, queue: multiset<Packet>, x: multiset<Packet>, h: multiset<Packet>)
    ensures pool + (x + queue) + h == pool + queue + (h + x)
    ensures (x + pool) + queue + h == pool + queue + (h + x)
  {
  }

  lemma FromQueueConserves(size: nat, v: View, who: Who)
    requires Conserved(size, v) && Apply(v, FromQueue(who)).Some?
    ensures Conserved(size, Apply(v, FromQueue(who)).value)
  {
    var w := Apply(v, FromQueue(who)).value;
    HeadOff(v.stock.queue);
    TakenInHand(v, who, w, v.stock.queue[0]);
    hide Hands;
    Regroup(multiset(v.stock.pool), multiset(w.stock.queue), multiset{v.stock.queue[0]}, Hands(v));
  }

  lemma TakenInHand(v: View, who: Who, w: View, p: Packet)
    requires v.Get(who).Nobody? && w.Get(who) == Holds(p)
    requires forall x :: x != who ==> w.Get(x) == v.Get(x)
    ensures Hands(w) == Hands(v) + multiset{p}
  {
    HandsAfter(v, who, Holds(p));
    assert v.Set(who, Holds(p)).Get(Own) == w.Get(Own) && v.Set(who, Holds(p)).Get(Twin) == w.Get(Twin);
    assert v.Set(who, Holds(p)).Get(Poller) == w.Get(Poller);
    assert Hands(v.Set(who, Holds(p))) == Hands(w);
  }

  lemma FromQueueKeeps(size: nat, v: View, who: Who)
    requires ViewOk(size, v) && Apply(v, FromQueue(who)).Some?
    ensures ViewOk(size, Apply(v, FromQueue(who)).value)
  {
    FromQueueConserves(size, v, who);
    FromQueueKeepsWake(v, who);
  }

  lemma FromQueueKeepsWake(v: View, who: Who)
    requires Linked(v.stock) && WakeOk(v) && Apply(v, FromQueue(who)).Some?
    ensures Linked(Apply(v, FromQueue(who)).value.stock) && WakeOk(Apply(v, FromQueue(who)).value)
  {
    var w := Apply(v, FromQueue(who)).value;
    forall i | 0 <= i < |w.stock.pool| ensures LinkedAt(w.stock, i) {
      assert LinkedAt(v.stock, i);
    }
    if v.stopped && v.stock.pool != [] {
      StillOwed(v, who, w);
    }
  }

  lemma IntoPoolConserves(size: nat, v: View, who: Who)
    requires Conserved(size, v) && Apply(v, IntoPool(who)).Some?
    ensures Conserved(size, Apply(v, IntoPool(who)).value)
  {
    var w := Apply(v, IntoPool(who)).value;
    var p := v.Get(who).p;
    PutOn(p, v.stock.pool);
    PutFromHand(v, who, w, p);
    hide Hands;
    Regroup(multiset(v.stock.pool), multiset(v.stock.queue), multiset{p}, Hands(w));
  }

  lemma PutFromHand(v: View, who: Who, w: View, p: Packet)
    requires v.Get(who) == Holds(p) && w.Get(who) == Checks(p)
    requires forall x :: x != who ==> w.Get(x) == v.Get(x)
    ensures Hands(v) == Hands(w) + multiset{p}
  {
    HandsAfter(v, who, Checks(p));
    assert v.Set(who, Checks(p)).Get(Own) == w.Get(Own) && v.Set(who, Checks(p)).Get(Twin) == w.Get(Twin);
    assert v.Set(who, Checks(p)).Get(Poller) == w.Get(Poller);
    assert Hands(v.Set(who, Checks(p))) == Hands(w);
  }

  lemma IntoPoolKeeps(size: nat, v: View, who: Who)
    requires ViewOk(size, v) && Apply(v, IntoPool(who)).Some?
    ensures ViewOk(size, Apply(v, IntoPool(who)).value)
  {
    HeldIsOffList(size, v, who);
    PushKeepsLinks(v.stock, v.Get(who).p);
    IntoPoolConserves(size, v, who);
    hide Conserved, Linked;
    IntoPoolKeepsWake(v, who);
  }

  lemma IntoPoolKeepsWake(v: View, who: Who)
    requires WakeOk(v) && Apply(v, IntoPool(who)).Some?
    ensures WakeOk(Apply(v, IntoPool(who)).value)
  {
    var w := Apply(v, IntoPool(who)).value;
    if v.stopped && v.stock.pool == [] {
      assert WillWake(w.Get(who), w.stock.pool);
    } else if v.stopped {
      StillOwed(v, who, w);
    }
  }

  /** Whoever was going to wake the queue still is, if it is not the one that moved. */
  lemma StillOwed(v: View, who: Who, w: View)
    requires v.stock.pool != [] && w.stock.pool != [] && Owed(v)
    requires v.stock.pool[|v.stock.pool| - 1] == w.stock.pool[|w.stock.pool| - 1]
    requires !WillWake(v.Get(who), v.stock.pool) || WillWake(w.Get(who), w.stock.pool)
    requires forall x :: x != who ==> w.Get(x) == v.Get(x)
    ensures Owed(w)
  {
    var x :| WillWake(v.Get(x), v.stock.pool);
    assert WillWake(w.Get(x), w.stock.pool);
  }

  /** A step of a party that holds no packet, to another such state, moves no packet. */
  lemma PartyConserves(size: nat, v: View, who: Who, w: View)
    requires Conserved(size, v) && w.stock == v.stock && !v.Get(who).Holds? && !w.Get(who).Holds?
    requires forall x :: x != who ==> w.Get(x) == v.Get(x)
    ensures Conserved(size, w)
  {
    assert forall x :: InHand(w.Get(x)) == InHand(v.Get(x));
    assert InHand(w.Get(Own)) == InHand(v.Get(Own)) && InHand(w.Get(Twin)) == InHand(v.Get(Twin));
    assert InHand(w.Get(Poller)) == InHand(v.Get(Poller));
    hide InHand;
    assert Hands(w) == Hands(v);
  }

  lemma TestStoppedKeeps(size: nat, v: View, who: Who)
    requires ViewOk(size, v) && Apply(v, TestStopped(who)).Some?
    ensures ViewOk(size, Apply(v, TestStopped(who)).value)
  {
    var w := Apply(v, TestStopped(who)).value;
    PartyConserves(size, v, who, w);
    hide Conserved;
    if v.stopped && v.stock.pool != [] {
      StillOwed(v, who, w);
    }
  }

  /** The bottom packet of the pool has no next, so whoever put it back sees that it has to wake the queue. */
  lemma TestNextKeeps(size: nat, v: View, who: Who)
    requires ViewOk(size, v) && Apply(v, TestNext(who)).Some?
    ensures ViewOk(size, Apply(v, TestNext(who)).value)
  {
    var w := Apply(v, TestNext(who)).value;
    PartyConserves(size, v, who, w);
    hide Conserved;
    if v.stopped && v.stock.pool != [] {
      assert LinkedAt(v.stock, |v.stock.pool| - 1);
      StillOwed(v, who, w);
    }
  }

  lemma WakeQueueKeeps(size: nat, v: View, who: Who)
    requires ViewOk(size, v) && Apply(v, WakeQueue(who)).Some?
    ensures ViewOk(size, Apply(v, WakeQueue(who)).value)
  {
    PartyConserves(size, v, who, Apply(v, WakeQueue(who)).value);
    hide Conserved;
  }

  lemma MoveKeepsView(size: nat, v: View, m: Move)
    requires ViewOk(size, v) && Apply(v, m).Some?
    ensures ViewOk(size, Apply(v, m).value)
  {
    match m
    case Stay =>
    case TakeFromPool => TakeFromPoolKeeps(size, v);
    case IntoQueue => IntoQueueKeeps(size, v);
    case FromQueue(who) => FromQueueKeeps(size, v, who);
    case IntoPool(who) => IntoPoolKeeps(size, v, who);
    case TestStopped(who) => TestStoppedKeeps(size, v, who);
    case TestNext(who) => TestNextKeeps(size, v, who);
    case WakeQueue(who) => WakeQueueKeeps(size, v, who);
  }

  // ---------- the pool as it is set up ----------

  predicate SetIsUp(k: Stock, size: nat) {
    multiset(k.pool) == AllPackets(size) && k.queue == [] && |k.pool| == size && Linked(k)
  }

  lemma SetupOne(k: Stock, p: Packet)
    requires SetIsUp(k, p)
    ensures SetIsUp(PushBack(k, p), p + 1)
  {
    EachPacketOnce(p, p);
    assert multiset(k.pool)[p] == 0;
    PushKeepsLinks(k, p);
    PutOn(p, k.pool);
  }

  /** snull_setup_pool leaves every packet in the pool, linked. */
  lemma {:induction false} SetupIsOk(size: nat)
    ensures SetIsUp(SetupPool(size), size)
  {
    if size > 0 {
      SetupIsOk(size - 1);
      SetupOne(SetupPool(size - 1), size - 1);
    }
  }
}
