/** The scull devices that only one user may have open: `sculluid`, which refuses, and `scullwuid`, which blocks.

    The sections under the spin lock are single steps.  The wait condition is evaluated without the lock, one
    read of the count and two of the owner at a time. */
module UidOpen {
  import opened Basics
  import opened Runs

  /** uid, effective uid, and CAP_DAC_OVERRIDE. */
  datatype Cred = Cred(uid: nat, euid: nat, override: bool)

  datatype Pc =
    | Asking                     // about to take the lock
    | LookCount(joined: bool)    // evaluating the wait condition: about to read the count,
    | LookUid(joined: bool)      // the owner for the uid,
    | LookEuid(joined: bool)     // the owner for the euid
    | Join                       // about to join the wait queue
    | Asleep                     // in schedule()
    | Holding                    // has the device open
    | Owe                        // closed as the last one, lock released, about to wake the queue

  /** `nonblock` is O_NONBLOCK on scullwuid; sculluid always behaves so. */
  datatype Opener = Opener(cred: Cred, nonblock: bool, pc: Pc)

  datatype State = State(count: int, owner: nat, openers: map<Pid, Opener>, queue: set<Pid>)

  datatype Action = Open(p: Pid, cred: Cred, nonblock: bool) | Go(p: Pid) | Close(p: Pid) | Signal(p: Pid)

  const Init: State := State(0, 0, map[], {})

  /** scull_w_available. */
  predicate Available(count: int, owner: nat, c: Cred) {
    count == 0 || owner == c.uid || owner == c.euid || c.override
  }

  /** The device may be shared with what the recorded owner stands for. */
  predicate Matches(owner: nat, c: Cred) {
    owner == c.uid || owner == c.euid || c.override
  }

  function At(openers: map<Pid, Opener>, p: Pid, pc: Pc): map<Pid, Opener>
    requires p in openers
  {
    openers[p := openers[p].(pc := pc)]
  }

  /** The locked section of an open. */
  function AskStep(s: State, p: Pid): State
    requires p in s.openers
  {
    var o := s.openers[p];
    if Available(s.count, s.owner, o.cred) then
      State(s.count + 1, if s.count == 0 then o.cred.uid else s.owner, At(s.openers, p, Holding), s.queue)
    else if o.nonblock then
      s.(openers := s.openers - {p})
    else
      s.(openers := At(s.openers, p, LookCount(false)))
  }

  /** wait_event_interruptible(scull_w_wait, scull_w_available()). */
  function WaitStep(s: State, p: Pid): Option<State>
    requires p in s.openers
  {
    var c := s.openers[p].cred;
    var retry := s.(openers := At(s.openers, p, Asking), queue := s.queue - {p});
    match s.openers[p].pc
    case LookCount(joined) =>
      Some(if s.count == 0 then retry else s.(openers := At(s.openers, p, LookUid(joined))))
    case LookUid(joined) =>
      Some(if s.owner == c.uid then retry else s.(openers := At(s.openers, p, LookEuid(joined))))
    case LookEuid(joined) =>
      Some(if s.owner == c.euid || c.override then retry
           else s.(openers := At(s.openers, p, if joined then Asleep else Join)))
    case Join =>
      Some(s.(openers := At(s.openers, p, LookCount(true)), queue := s.queue + {p}))
    case Asleep =>
      if p in s.queue then None else Some(s.(openers := At(s.openers, p, Join)))
    case _ => None
  }

  function Step(s: State, a: Action): Option<State> {
    if a.Open? then
      if a.p in s.openers then None else Some(s.(openers := s.openers[a.p := Opener(a.cred, a.nonblock, Asking)]))
    else if a.p !in s.openers then None
    else
      match a
      case Go(p) =>
        (match s.openers[p].pc
         case Asking => Some(AskStep(s, p))
         case Holding => None
         case Owe => Some(s.(openers := s.openers - {p}, queue := {}))
         case _ => WaitStep(s, p))
      case Close(p) =>
        if !s.openers[p].pc.Holding? then None
        else Some(s.(count := s.count - 1,
                  openers := if s.count - 1 == 0 then At(s.openers, p, Owe) else s.openers - {p}))
      case Signal(p) =>
        if s.openers[p].pc.Asleep? then Some(s.(openers := s.openers - {p}, queue := s.queue - {p})) else None
  }

  // ---------- invariants ----------

  function Holders(openers: map<Pid, Opener>): set<Pid> {
    set p | p in openers && openers[p].pc.Holding?
  }

  predicate HoldersOk(s: State) {
    && s.count == |Holders(s.openers)|
    && (forall p :: p in s.openers && s.openers[p].pc.Holding? ==> Matches(s.owner, s.openers[p].cred))
  }

  predicate SomeoneOwes(openers: map<Pid, Opener>) {
    exists p :: p in openers && openers[p].pc.Owe?
  }

  predicate Waiting(pc: Pc) {
    (pc.LookCount? && pc.joined) || (pc.LookUid? && pc.joined) || (pc.LookEuid? && pc.joined) || pc.Asleep?
  }

  /** What a queued opener can rely on while nobody owes it a wake-up. */
  predicate Knows(o: Opener, count: int, owner: nat) {
    && (o.pc.LookUid? ==> count > 0)
    && (o.pc.LookEuid? ==> count > 0 && owner != o.cred.uid)
    && (o.pc.Asleep? ==> count > 0 && !Available(count, owner, o.cred))
  }

  predicate QueueOk(s: State) {
    && (forall p :: p in s.queue ==> p in s.openers && Waiting(s.openers[p].pc))
    && (SomeoneOwes(s.openers) ||
        forall p :: p in s.queue ==> p in s.openers && Knows(s.openers[p], s.count, s.owner))
  }

  predicate Inv(s: State) {
    HoldersOk(s) && QueueOk(s)
  }

  lemma HoldersAfter(openers: map<Pid, Opener>, p: Pid, pc: Pc)
    requires p in openers
    ensures Holders(At(openers, p, pc)) == if pc.Holding? then Holders(openers) + {p} else Holders(openers) - {p}
    ensures Holders(openers - {p}) == Holders(openers) - {p}
  {
  }

  lemma AskKeepsHolders(s: State, p: Pid)
    requires HoldersOk(s) && p in s.openers && s.openers[p].pc.Asking?
    ensures HoldersOk(AskStep(s, p))
  {
    HoldersAfter(s.openers, p, Holding);
    HoldersAfter(s.openers, p, LookCount(false));
    if s.count == 0 {
      assert forall q :: q in s.openers ==> q !in Holders(s.openers);
    }
  }

  lemma RelabelKeepsHolders(s: State, p: Pid, pc: Pc, t: State)
    requires HoldersOk(s) && p in s.openers && !s.openers[p].pc.Holding? && !pc.Holding?
    requires t.count == s.count && t.owner == s.owner && t.openers == At(s.openers, p, pc)
    ensures HoldersOk(t)
  {
    HoldersAfter(s.openers, p, pc);
  }

  lemma WaitKeepsHolders(s: State, p: Pid)
    requires HoldersOk(s) && p in s.openers && WaitStep(s, p).Some?
    ensures HoldersOk(WaitStep(s, p).value)
  {
    var t := WaitStep(s, p).value;
    RelabelKeepsHolders(s, p, t.openers[p].pc, t);
  }

  lemma StepKeepsHolders(s: State, a: Action)
    requires HoldersOk(s) && Step(s, a).Some?
    ensures HoldersOk(Step(s, a).value)
  {
    match a
    case Open(_, _, _) => assert Holders(Step(s, a).value.openers) == Holders(s.openers);
    case Go(p) =>
      if s.openers[p].pc.Asking? { AskKeepsHolders(s, p); }
      else if s.openers[p].pc.Owe? { LeaveKeepsHolders(s, a); }
      else { WaitKeepsHolders(s, p); }
    case _ => LeaveKeepsHolders(s, a);
  }

  /** A wake-up, a close and an interrupted sleep. */
  lemma LeaveKeepsHolders(s: State, a: Action)
    requires HoldersOk(s) && Step(s, a).Some? && (a.Close? || a.Signal? || (a.Go? && s.openers[a.p].pc.Owe?))
    ensures HoldersOk(Step(s, a).value)
  {
    HoldersAfter(s.openers, a.p, Owe);
    hide Holders;
  }

  lemma OwingStays(openers: map<Pid, Opener>, p: Pid, after: map<Pid, Opener>)
    requires SomeoneOwes(openers)
    requires forall q :: q in openers && q != p ==> q in after && after[q] == openers[q]
    requires p in openers && openers[p].pc.Owe? ==> p in after && after[p].pc.Owe?
    ensures SomeoneOwes(after)
  {
    var w :| w in openers && openers[w].pc.Owe?;
    assert w in after && after[w].pc.Owe?;
  }

  lemma AskKeepsQueue(s: State, p: Pid)
    requires Inv(s) && p in s.openers && s.openers[p].pc.Asking?
    ensures QueueOk(AskStep(s, p))
  {
    if SomeoneOwes(s.openers) {
      OwingStays(s.openers, p, AskStep(s, p).openers);
    }
  }

  /** An opener may join, leave or stay on the queue with what it knows. */
  lemma QueueMoves(s: State, p: Pid, pc: Pc, queue: set<Pid>)
    requires QueueOk(s) && p in s.openers && !s.openers[p].pc.Owe? && queue <= s.queue + {p}
    requires p in queue ==> Waiting(pc)
    requires p in queue ==> SomeoneOwes(s.openers) || Knows(s.openers[p].(pc := pc), s.count, s.owner)
    ensures QueueOk(s.(openers := At(s.openers, p, pc), queue := queue))
  {
    if SomeoneOwes(s.openers) {
      OwingStays(s.openers, p, At(s.openers, p, pc));
    }
  }

  lemma WaitKnows(s: State, p: Pid)
    requires QueueOk(s) && s.count >= 0 && p in s.openers && WaitStep(s, p).Some?
    ensures var t := WaitStep(s, p).value;
            && p in t.openers && t == s.(openers := At(s.openers, p, t.openers[p].pc), queue := t.queue)
            && !s.openers[p].pc.Owe? && t.queue <= s.queue + {p}
            && (p in t.queue ==> Waiting(t.openers[p].pc))
            && (p in t.queue ==> SomeoneOwes(s.openers) || Knows(t.openers[p], s.count, s.owner))
  {
    hide SomeoneOwes;
  }

  lemma WaitKeepsQueue(s: State, p: Pid)
    requires Inv(s) && p in s.openers && WaitStep(s, p).Some?
    ensures QueueOk(WaitStep(s, p).value)
  {
    hide WaitStep, Waiting, Knows, SomeoneOwes;
    WaitKnows(s, p);
    QueueMoves(s, p, WaitStep(s, p).value.openers[p].pc, WaitStep(s, p).value.queue);
  }

  lemma CloseKeepsQueue(s: State, p: Pid)
    requires Inv(s) && Step(s, Close(p)).Some?
    ensures QueueOk(Step(s, Close(p)).value)
  {
    var t := Step(s, Close(p)).value;
    if SomeoneOwes(s.openers) {
      OwingStays(s.openers, p, t.openers);
    } else if s.count - 1 == 0 {
      assert p in t.openers && t.openers[p].pc.Owe?;
    } else {
      assert p in Holders(s.openers);
    }
  }

  lemma StepKeepsInv(s: State, a: Action)
    requires Inv(s) && Step(s, a).Some?
    ensures Inv(Step(s, a).value)
  {
    StepKeepsHolders(s, a);
    var t := Step(s, a).value;
    match a
    case Go(p) =>
      if s.openers[p].pc.Asking? { AskKeepsQueue(s, p); }
      else if !s.openers[p].pc.Owe? { WaitKeepsQueue(s, p); }
    case Close(p) => CloseKeepsQueue(s, p);
    case Open(p, _, _) => if SomeoneOwes(s.openers) { OwingStays(s.openers, p, t.openers); }
    case Signal(p) => if SomeoneOwes(s.openers) { OwingStays(s.openers, p, t.openers); }
  }

  lemma RunKeepsInv(run: seq<Action>)
    requires Exec(Step, Init, run).Some?
    ensures Inv(Exec(Step, Init, run).value)
  {
    forall x, a | Inv(x) && Step(x, a).Some? ensures Inv(Step(x, a).value) {
      StepKeepsInv(x, a);
    }
    InvariantOverRun(Step, Inv, Init, run);
  }

  // ---------- what the opens asked for ----------

  /** The machine with an observer, who keeps the latest open action of each process, and the uid of the one whose
      open last found the device free. */
  datatype Watched = Watched(s: State, opens: map<Pid, Action>, grabber: nat)

  const WatchInit: Watched := Watched(Init, map[], 0)

  function Observe(w: Watched, a: Action, t: State): Watched {
    if a.Open? then Watched(t, w.opens[a.p := a], w.grabber)
    else if a.p in w.opens && w.opens[a.p].Open? && Holders(w.s.openers) == {} && Holders(t.openers) != {} then
      Watched(t, w.opens, w.opens[a.p].cred.uid)
    else Watched(t, w.opens, w.grabber)
  }

  function Watch(w: Watched, a: Action): Option<Watched> {
    match Step(w.s, a)
    case None => None
    case Some(t) => Some(Observe(w, a, t))
  }

  predicate InWait(pc: Pc) {
    pc.LookCount? || pc.LookUid? || pc.LookEuid? || pc.Join? || pc.Asleep?
  }

  /** The process is what its open action said, and if that was non-blocking it is not waiting. */
  predicate AsAsked(o: Opener, open: Action) {
    open.Open? && o.cred == open.cred && o.nonblock == open.nonblock && (open.nonblock ==> !InWait(o.pc))
  }

  predicate AllAsAsked(w: Watched) {
    forall p :: p in w.s.openers ==> p in w.opens && AsAsked(w.s.openers[p], w.opens[p])
  }

  predicate OwnerOk(w: Watched) {
    Holders(w.s.openers) != {} ==> w.s.owner == w.grabber
  }

  predicate WatchOk(w: Watched) {
    Inv(w.s) && AllAsAsked(w) && OwnerOk(w)
  }

  /** A step touches no opener but the one that acts. */
  lemma OthersStay(s: State, a: Action)
    requires Step(s, a).Some?
    ensures forall q :: q != a.p ==> (q in Step(s, a).value.openers <==> q in s.openers)
    ensures forall q :: q != a.p && q in s.openers ==> Step(s, a).value.openers[q] == s.openers[q]
  {
  }

  lemma ActorAsAsked(w: Watched, a: Action)
    requires AllAsAsked(w) && Step(w.s, a).Some? && a.p in Step(w.s, a).value.openers
    ensures var v := Observe(w, a, Step(w.s, a).value);
            a.p in v.opens && AsAsked(v.s.openers[a.p], v.opens[a.p])
  {
    hide Holders, Available;
    if !a.Open? {
      assert AsAsked(w.s.openers[a.p], w.opens[a.p]);
    }
  }

  lemma StepKeepsAsked(w: Watched, a: Action)
    requires AllAsAsked(w) && Step(w.s, a).Some?
    ensures AllAsAsked(Observe(w, a, Step(w.s, a).value))
  {
    OthersStay(w.s, a);
    if a.p in Step(w.s, a).value.openers {
      ActorAsAsked(w, a);
    }
    hide Step, Holders, AsAsked;
  }

  lemma AskOwner(s: State, p: Pid)
    requires HoldersOk(s) && p in s.openers && s.openers[p].pc.Asking?
    ensures var t := AskStep(s, p);
            if Holders(s.openers) == {} then t.owner == s.openers[p].cred.uid && p in Holders(t.openers)
            else t.owner == s.owner
  {
    hide Matches;
    if Holders(s.openers) != {} {
      assert |Holders(s.openers)| > 0;
    }
  }

  lemma OtherStepKeepsOwner(s: State, a: Action)
    requires HoldersOk(s) && Step(s, a).Some? && !(a.Go? && s.openers[a.p].pc.Asking?)
    ensures Step(s, a).value.owner == s.owner && Holders(Step(s, a).value.openers) <= Holders(s.openers)
  {
    hide Matches, Available;
  }

  lemma StepKeepsOwner(w: Watched, a: Action)
    requires HoldersOk(w.s) && AllAsAsked(w) && OwnerOk(w) && Step(w.s, a).Some?
    ensures OwnerOk(Observe(w, a, Step(w.s, a).value))
  {
    if a.Go? && w.s.openers[a.p].pc.Asking? {
      AskOwner(w.s, a.p);
      assert AsAsked(w.s.openers[a.p], w.opens[a.p]);
      if Holders(w.s.openers) == {} && a.p in Holders(AskStep(w.s, a.p).openers) {
        assert Holders(AskStep(w.s, a.p).openers) != {};
      }
      hide AskStep, Holders, AllAsAsked;
    } else {
      OtherStepKeepsOwner(w.s, a);
      hide Step, Holders, AllAsAsked;
    }
  }

  lemma WatchKeepsOk(w: Watched, a: Action)
    requires WatchOk(w) && Watch(w, a).Some?
    ensures WatchOk(Watch(w, a).value)
  {
    hide Step, HoldersOk, QueueOk, AllAsAsked, OwnerOk;
    StepKeepsInv(w.s, a);
    StepKeepsAsked(w, a);
    StepKeepsOwner(w, a);
  }

  /** Every run of the machine is observed. */
  lemma EveryRunIsWatched(w: Watched, run: seq<Action>)
    requires Exec(Step, w.s, run).Some?
    ensures Exec(Watch, w, run).Some? && Exec(Watch, w, run).value.s == Exec(Step, w.s, run).value
  {
    hide Step;
    ObserverFollows(Step, Watch, (x: Watched) => x.s, w, run);
  }

  lemma WatchRunOk(run: seq<Action>)
    requires Exec(Watch, WatchInit, run).Some?
    ensures WatchOk(Exec(Watch, WatchInit, run).value)
  {
    assert WatchOk(WatchInit);
    forall x, a | WatchOk(x) && Watch(x, a).Some? ensures WatchOk(Watch(x, a).value) {
      WatchKeepsOk(x, a);
    }
    hide Watch, WatchOk;
    InvariantOverRun(Watch, WatchOk, WatchInit, run);
  }

  // ---------- main results ----------

  /** In every reachable state the count is the number of holders, and every holder matches the recorded owner
      by uid or euid or has the capability. */
  lemma HoldersMatchOwner(run: seq<Action>, s: State)
    requires Exec(Step, Init, run) == Some(s)
    ensures s.count == |Holders(s.openers)|
    ensures forall p :: p in Holders(s.openers) ==>
              var c := s.openers[p].cred; s.owner == c.uid || s.owner == c.euid || c.override
  {
    RunKeepsInv(run);
  }

  /** A plain user can only ever share the device with the user who has it. */
  lemma PlainUsersShareOnlyWithThemselves(run: seq<Action>, s: State, p: Pid, q: Pid)
    requires Exec(Step, Init, run) == Some(s) && p in Holders(s.openers) && q in Holders(s.openers)
    requires !s.openers[p].cred.override && s.openers[p].cred.uid == s.openers[p].cred.euid
    requires !s.openers[q].cred.override && s.openers[q].cred.uid == s.openers[q].cred.euid
    ensures s.openers[p].cred.uid == s.openers[q].cred.uid
  {
    HoldersMatchOwner(run, s);
  }

  /** An open is granted exactly when nobody has the device or the opener matches the owner. */
  lemma GrantedIff(run: seq<Action>, s: State, p: Pid)
    requires Exec(Step, Init, run) == Some(s) && p in s.openers && s.openers[p].pc.Asking?
    ensures p in Holders(AskStep(s, p).openers) <==>
            var c := s.openers[p].cred;
            Holders(s.openers) == {} || s.owner == c.uid || s.owner == c.euid || c.override
  {
    HoldersMatchOwner(run, s);
  }

  /** A sleeping opener for whom the device is available: some releaser is between its unlock and its wake-up. */
  lemma SleepingOpenerIsWoken(run: seq<Action>, s: State, p: Pid)
    requires Exec(Step, Init, run) == Some(s)
    requires p in s.queue && p in s.openers && s.openers[p].pc.Asleep?
    requires var c := s.openers[p].cred; s.count == 0 || s.owner == c.uid || s.owner == c.euid || c.override
    ensures SomeoneOwes(s.openers)
  {
    RunKeepsInv(run);
  }

  /** An opener that asked not to block is never in the wait loop nor on the queue. */
  lemma NonblockingNeverWaits(run: seq<Action>, w: Watched, p: Pid)
    requires Exec(Watch, WatchInit, run) == Some(w) && p in w.s.openers
    ensures p in w.opens && w.opens[p].Open?
    ensures w.opens[p].nonblock ==> !InWait(w.s.openers[p].pc) && p !in w.s.queue
  {
    WatchRunOk(run);
    assert AsAsked(w.s.openers[p], w.opens[p]);
  }

  /** What an open comes to, in terms of what was asked: it is granted when the device is free or the opener matches
      the uid that grabbed it; otherwise it is refused exactly when it was not to block, and waits exactly when it was.
  */
  lemma OpenComesTo(run: seq<Action>, w: Watched, p: Pid)
    requires Exec(Watch, WatchInit, run) == Some(w) && p in w.s.openers && w.s.openers[p].pc.Asking?
    ensures p in w.opens && w.opens[p].Open? && Step(w.s, Go(p)).Some?
    ensures var t := Step(w.s, Go(p)).value;
            var c := w.opens[p].cred;
            var free := Holders(w.s.openers) == {} || w.grabber == c.uid || w.grabber == c.euid || c.override;
            && (p in Holders(t.openers) <==> free)
            && (p !in t.openers <==> !free && w.opens[p].nonblock)
            && (p in t.openers && InWait(t.openers[p].pc) <==> !free && !w.opens[p].nonblock)
  {
    WatchRunOk(run);
    assert AsAsked(w.s.openers[p], w.opens[p]);
    assert Holders(w.s.openers) == {} <==> w.s.count == 0;
  }

  /** Once granted or waiting, a process goes only by closing, by finishing the wake-up that its close owes, or by a
      signal while asleep. */
  lemma LeavesIff(run: seq<Action>, w: Watched, a: Action, p: Pid)
    requires Exec(Watch, WatchInit, run) == Some(w) && p in w.s.openers && !w.s.openers[p].pc.Asking?
    requires Step(w.s, a).Some?
    ensures p !in Step(w.s, a).value.openers <==>
            || (a == Close(p) && |Holders(w.s.openers)| > 1)
            || (a == Go(p) && w.s.openers[p].pc.Owe?)
            || (a == Signal(p) && w.s.openers[p].pc.Asleep?)
  {
    WatchRunOk(run);
    OthersStay(w.s, a);
    if a == Close(p) {
      assert p in Holders(w.s.openers);
    }
  }

  /** A sleeping opener is woken by a releaser that closed as the last one, or by a signal, and by nothing else. */
  lemma StaysAsleepIff(s: State, a: Action, p: Pid)
    requires p in s.openers && s.openers[p].pc.Asleep? && p in s.queue && Step(s, a).Some?
    ensures var t := Step(s, a).value;
            (p in t.openers && t.openers[p].pc.Asleep? && p in t.queue) <==>
            !(a == Signal(p) || (a.Go? && s.openers[a.p].pc.Owe?))
  {
  }

  /** The owner on record is the uid of the opener that last found the device free. */
  lemma OwnerIsGrabber(run: seq<Action>, w: Watched)
    requires Exec(Watch, WatchInit, run) == Some(w) && Holders(w.s.openers) != {}
    ensures w.s.owner == w.grabber
  {
    WatchRunOk(run);
  }

  function Goes(p: Pid, k: nat): seq<Action> {
    seq(k, _ => Go(p))
  }

  /** Undisturbed, the test in the wait loop ends it if the device is available, and leads on to sleep if it is not. */
  lemma LookTellsAvailable(s: State, p: Pid)
    requires p in s.openers && s.openers[p].pc.LookCount?
    ensures var o := s.openers[p];
            var stay := s.(openers := At(s.openers, p, if o.pc.joined then Asleep else Join));
            var retry := s.(openers := At(s.openers, p, Asking), queue := s.queue - {p});
            if s.count == 0 || s.owner == o.cred.uid || s.owner == o.cred.euid || o.cred.override then
              exists k :: 1 <= k <= 3 && Exec(Step, s, Goes(p, k)) == Some(retry)
            else Exec(Step, s, Goes(p, 3)) == Some(stay)
  {
    var o := s.openers[p];
    var s1 := s.(openers := At(s.openers, p, LookUid(o.pc.joined)));
    var s2 := s.(openers := At(s.openers, p, LookEuid(o.pc.joined)));
    assert forall x, y :: At(At(s.openers, p, x), p, y) == At(s.openers, p, y);
    assert Goes(p, 3)[1..] == Goes(p, 2) && Goes(p, 2)[1..] == Goes(p, 1) && Goes(p, 1)[1..] == [];
    OneStep(s, p);
    OneStep(s1, p);
    OneStep(s2, p);
    if s.count == 0 {
      assert Exec(Step, s, Goes(p, 1)) == Step(s, Go(p));
    } else if s.owner == o.cred.uid {
      assert Step(s, Go(p)) == Some(s1) && Exec(Step, s, Goes(p, 2)) == Step(s1, Go(p));
    } else {
      assert Step(s, Go(p)) == Some(s1) && Step(s1, Go(p)) == Some(s2);
      assert Exec(Step, s, Goes(p, 3)) == Exec(Step, s1, Goes(p, 2)) == Step(s2, Go(p));
    }
  }

  lemma OneStep(s: State, p: Pid)
    ensures Exec(Step, s, Goes(p, 1)) == Step(s, Go(p))
  {
    assert Goes(p, 1)[1..] == [];
  }
}
