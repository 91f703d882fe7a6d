/** The two snull interfaces as a step machine at the granularity of their locks.

    The state is cut into two lanes.  A lane is everything that concerns the packets of one home device: its
    pool and transmit queue, the receive queue of the other device, which holds nothing but these packets, and
    the receive side of the other device that drains it.  A packet is its number within its lane.

    Transmits of one device are serialised and only start while its queue is not stopped, as the kernel sees
    to it; `lockup` is 0 and there is no transmit timeout. */
module Snull {
  import opened Basics

  type Packet = nat

  /** Which of its two snull_interrupt calls a transmit is in: for the twin device, then for its own. */
  datatype Stage = OnTwin | OnSelf

  /** snull_tx of one device. */
  datatype Tx =
    | Idle
    | Have(p: Packet)                 // after snull_get_tx_buffer
    | Queued                          // after snull_enqueue_buf, about to test rx_int_enabled
    | RaiseRx                         // found it set, about to set SNULL_RX_INTR for the twin
    | Raise                           // about to set SNULL_TX_INTR for its own device
    | Handle(stage: Stage)            // about to enter the interrupt handler
    | Push(stage: Stage, p: Packet)   // in snull_release_buffer, before the locked push
    | Check(stage: Stage, p: Packet)  // lock dropped, about to test netif_queue_stopped
    | Look(stage: Stage, p: Packet)   // the queue was stopped, about to read p->next
    | Wake(stage: Stage, p: Packet)   // about to call netif_wake_queue

  /** snull_poll of the receiving device. */
  datatype Poll =
    | Off | Scheduled
    | Loop(left: nat)
    | PollPush(left: nat, p: Packet) | PollCheck(left: nat, p: Packet)
    | PollLook(left: nat, p: Packet) | PollWake(left: nat, p: Packet)
    | Tail                            // the loop is over, about to test rx_queue once more
    | Done                            // found it empty, about to call netif_rx_complete

  /** Packets: where they are, and their `next` fields. */
  datatype Stock = Stock(pool: seq<Packet>, queue: seq<Packet>, next: map<Packet, Option<Packet>>)

  /** The receive side of the twin: its SNULL_RX_INTR bit, rx_int_enabled, its poll routine, and how many
      poll routines are between netif_rx_complete and the store that enables interrupts. */
  datatype Receiver = Receiver(rxBit: bool, intsOn: bool, poll: Poll, enabling: nat)

  /** Statistics: packets taken from the pool, tx_packets of the home device, rx_packets and rx_dropped of the twin. */
  datatype Stats = Stats(sent: nat, txPackets: nat, rxPackets: nat, rxDropped: nat)

  datatype Lane = Lane(stock: Stock, stopped: bool, tx: Tx, txBit: bool, rx: Receiver, stats: Stats)

  /** `napi` is use_napi, `size` is pool_size; `oops` records that an empty pool was dereferenced. */
  datatype State = State(napi: bool, size: nat, a: Lane, b: Lane, oops: bool)

  /** `second` picks the device whose lane the action belongs to; `granted` tells whether dev_alloc_skb succeeds. */
  datatype Action =
    | Xmit(second: bool) | Go(second: bool, granted: bool)
    | PollStart(second: bool, quota: nat) | PollGo(second: bool, granted: bool) | Enable(second: bool)

  /** snull_setup_pool. */
  function SetupPool(size: nat): Stock {
    if size == 0 then Stock([], [], map[]) else PushBack(SetupPool(size - 1), size - 1)
  }

  function InitLane(size: nat): Lane {
    Lane(SetupPool(size), false, Idle, false, Receiver(false, true, Off, 0), Stats(0, 0, 0, 0))
  }

  function Init(napi: bool, size: nat): State {
    State(napi, size, InitLane(size), InitLane(size), false)
  }

  function Head(list: seq<Packet>): Option<Packet> {
    if list == [] then None else Some(list[0])
  }

  /** What `p->next` holds: it is written when p is put on a list, and not touched when p is taken off. */
  function NextOf(k: Stock, p: Packet): Option<Packet> {
    if p in k.next then k.next[p] else None
  }

  // ---------- the locked sections ----------

  /** snull_get_tx_buffer; the pool must not be empty. */
  function TakeBuffer(l: Lane): Lane
    requires l.stock.pool != []
  {
    var rest := l.stock.pool[1..];
    l.(stock := l.stock.(pool := rest), stopped := l.stopped || rest == [], tx := Have(l.stock.pool[0]),
    stats := l.stats.(sent := l.stats.sent + 1))
  }

  /** snull_enqueue_buf. */
  function Enqueue(k: Stock, p: Packet): Stock {
    k.(queue := [p] + k.queue, next := k.next[p := Head(k.queue)])
  }

  /** The locked part of snull_release_buffer. */
  function PushBack(k: Stock, p: Packet): Stock {
    k.(pool := [p] + k.pool, next := k.next[p := Head(k.pool)])
  }

  /** A packet leaves the receive queue and is delivered or dropped. */
  function Receive(l: Lane, granted: bool): Lane
    requires l.stock.queue != []
  {
    l.(stock := l.stock.(queue := l.stock.queue[1..]),
    stats := if granted then l.stats.(rxPackets := l.stats.rxPackets + 1)
    else l.stats.(rxDropped := l.stats.rxDropped + 1))
  }

  /** The lane whose receive side the interrupt handler serves, after the handler; and the packet it took. */
  datatype Handled = Handled(lane: Lane, taken: Option<Packet>)

  function HandleRx(napi: bool, l: Lane, granted: bool): Handled {
    if !l.rx.rxBit then Handled(l, None)
    else
      var cleared := l.(rx := l.rx.(rxBit := false));
      if napi then
        Handled(cleared.(rx := cleared.rx.(intsOn := false,
                         poll := if l.rx.poll.Off? then Scheduled else l.rx.poll)), None)
      else if l.stock.queue == [] then Handled(cleared, None)
      else Handled(Receive(cleared, granted), Some(l.stock.queue[0]))
  }

  function HandleTx(l: Lane): Lane {
    if l.txBit then l.(txBit := false, stats := l.stats.(txPackets := l.stats.txPackets + 1)) else l
  }

  // ---------- steps of the transmit of lane a ----------

  function After(stage: Stage): Tx {
    if stage.OnTwin? then Raise else Idle
  }

  /** Entering the handler for the twin serves the queue of lane a and the TX bit of lane b. */
  function HandleOnTwin(s: State, granted: bool): State {
    var h := HandleRx(s.napi, s.a, granted);
    s.(a := h.lane.(tx := if h.taken.Some? then Push(OnTwin, h.taken.value) else After(OnTwin)), b := HandleTx(s.b))
  }

  /** Entering the handler for the own device serves the queue of lane b and the TX bit of lane a. */
  function HandleOnSelf(s: State, granted: bool): State {
    var h := HandleRx(s.napi, s.b, granted);
    s.(b := h.lane, a := HandleTx(s.a).(tx := if h.taken.Some? then Push(OnSelf, h.taken.value) else After(OnSelf)))
  }

  function GoA(s: State, granted: bool): Option<State> {
    match s.a.tx
    case Idle => None
    case Have(p) =>
      Some(s.(a := s.a.(stock := Enqueue(s.a.stock, p), tx := Queued)))
    case Queued =>
      Some(s.(a := s.a.(tx := if s.a.rx.intsOn then RaiseRx else Raise)))
    case RaiseRx =>
      Some(s.(a := s.a.(rx := s.a.rx.(rxBit := true), tx := Handle(OnTwin))))
    case Raise =>
      Some(s.(a := s.a.(txBit := true, tx := Handle(OnSelf))))
    case Handle(stage) =>
      Some(if stage.OnTwin? then HandleOnTwin(s, granted) else HandleOnSelf(s, granted))
    case Push(stage, p) =>
      Some(if stage.OnTwin? then s.(a := s.a.(stock := PushBack(s.a.stock, p), tx := Check(stage, p)))
           else s.(b := s.b.(stock := PushBack(s.b.stock, p)), a := s.a.(tx := Check(stage, p))))
    case Check(stage, p) =>
      var home := if stage.OnTwin? then s.a else s.b;
      Some(s.(a := s.a.(tx := if home.stopped then Look(stage, p) else After(stage))))
    case Look(stage, p) =>
      var home := if stage.OnTwin? then s.a else s.b;
      Some(s.(a := s.a.(tx := if NextOf(home.stock, p).None? then Wake(stage, p) else After(stage))))
    case Wake(stage, p) =>
      Some(if stage.OnTwin? then s.(a := s.a.(stopped := false, tx := After(stage)))
           else s.(b := s.b.(stopped := false), a := s.a.(tx := After(stage))))
  }

  function XmitA(s: State): Option<State> {
    if !s.a.tx.Idle? || s.a.stopped then None
    else if s.a.stock.pool == [] then Some(s.(oops := true))
    else Some(s.(a := TakeBuffer(s.a)))
  }

  /** One step of snull_poll on the queue of a lane. */
  function PollStep(l: Lane, granted: bool): Option<Lane> {
    match l.rx.poll
    case Off => None
    case Scheduled => None
    case Loop(left) =>
      if left == 0 || l.stock.queue == [] then Some(l.(rx := l.rx.(poll := Tail)))
      else
        var quota := if granted then left - 1 else left;
        Some(Receive(l, granted).(rx := l.rx.(poll := PollPush(quota, l.stock.queue[0]))))
    case PollPush(left, p) =>
      Some(l.(stock := PushBack(l.stock, p), rx := l.rx.(poll := PollCheck(left, p))))
    case PollCheck(left, p) =>
      Some(l.(rx := l.rx.(poll := if l.stopped then PollLook(left, p) else Loop(left))))
    case PollLook(left, p) =>
      Some(l.(rx := l.rx.(poll := if NextOf(l.stock, p).None? then PollWake(left, p) else Loop(left))))
    case PollWake(left, p) =>
      Some(l.(stopped := false, rx := l.rx.(poll := Loop(left))))
    case Tail =>
      Some(l.(rx := l.rx.(poll := if l.stock.queue == [] then Done else Scheduled)))
    case Done =>
      Some(l.(rx := l.rx.(poll := Off, enabling := l.rx.enabling + 1)))
  }

  function PollA(s: State, a: Action): Option<State> {
    match a
    case PollStart(_, quota) =>
      if s.a.rx.poll.Scheduled? then Some(s.(a := s.a.(rx := s.a.rx.(poll := Loop(quota))))) else None
    case PollGo(_, granted) =>
      (match PollStep(s.a, granted)
       case None => None
       case Some(l) => Some(s.(a := l)))
    case Enable(_) =>
      if s.a.rx.enabling == 0 then None
      else Some(s.(a := s.a.(rx := s.a.rx.(intsOn := true, enabling := s.a.rx.enabling - 1))))
    case _ => None
  }

  function Swap(s: State): State {
    s.(a := s.b, b := s.a)
  }

  /** An action of the first device, on its lane `a`. */
  function StepA(s: State, a: Action): Option<State> {
    if s.oops then None
    else
      match a
      case Xmit(_) => XmitA(s)
      case Go(_, granted) => GoA(s, granted)
      case _ => PollA(s, a)
  }

  /** The second device does the same with the lanes exchanged. */
  function Step(s: State, a: Action): Option<State> {
    if !a.second then StepA(s, a)
    else
      match StepA(Swap(s), a)
      case None => None
      case Some(t) => Some(Swap(t))
  }
}
