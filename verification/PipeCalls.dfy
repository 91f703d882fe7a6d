/** The scullpipe device as its callers see it: what the calls asked for, what they moved and what they returned. */
module PipeCalls {
  import opened Basics
  import opened Runs
  import opened PipeRing
  import opened Pipe
  import PipeTheorems

  datatype Call = NoCall | Reading(count: nat) | Writing(data: seq<byte>)

  /** What a process has asked for: its open, its latest call, and the chunk that call has moved. */
  datatype Asked = Asked(open: Action, call: Call, moved: seq<byte>)

  /** The machine with an observer of the actions: `offered` joins, since the last open and in the order of the
      semaphore, so much of the data of each write action as was accepted; `delivered` what the reads took. */
  datatype Watched = Watched(s: State, asked: map<Pid, Asked>, offered: seq<byte>, delivered: seq<byte>)

  function WatchInit(buf: seq<byte>): Watched {
    Watched(Init(buf), map[], [], [])
  }

  /** The chunk that a write of `data` moved when it accepted `n` bytes. */
  function Offer(call: Call, n: nat): seq<byte> {
    if call.Writing? && n <= |call.data| then call.data[..n] else []
  }

  function Moves(w: Watched, a: Action, t: State): Watched {
    if !a.Go? || a.p !in t.procs || a.p !in w.asked then w.(s := t)
    else
      var me := w.asked[a.p];
      match t.procs[a.p].pc
      case RMoved(got) => w.(s := t, asked := w.asked[a.p := me.(moved := got)], delivered := w.delivered + got)
      case WMoved(sent) =>
        var chunk := Offer(me.call, |sent|);
        w.(s := t, asked := w.asked[a.p := me.(moved := chunk)], offered := w.offered + chunk)
      case _ => w.(s := t)
  }

  function Observe(w: Watched, a: Action, t: State): Watched {
    match a
    case Open(p, _, _, _) => Watched(t, w.asked[p := Asked(a, NoCall, [])], [], [])
    case Read(p, count) =>
      w.(s := t, asked := if p in w.asked then w.asked[p := w.asked[p].(call := Reading(count))] else w.asked)
    case Write(p, data) =>
      w.(s := t, asked := if p in w.asked then w.asked[p := w.asked[p].(call := Writing(data))] else w.asked)
    case Close(p) => w.(s := t, asked := w.asked - {p})
    case _ => Moves(w, a, t)
  }

  function Watch(w: Watched, a: Action): Option<Watched> {
    match Step(w.s, a)
    case None => None
    case Some(t) => Some(Observe(w, a, t))
  }

  // ---------- a process carries what it was asked ----------

  predicate InWait(pc: Pc) {
    || InReadWait(pc)
    || pc.WJoin? || pc.WLook1? || pc.WLook2? || pc.WLook3? || pc.WLook4? || pc.WSleep? || pc.WFinish?
  }

  predicate CarriesCall(pc: Pc, call: Call, moved: seq<byte>) {
    match pc
    case Idle => true
    case RWant(count) => call == Reading(count)
    case RTest(count) => call == Reading(count)
    case RLook(count, _) => call == Reading(count)
    case RLook2(count, _, _) => call == Reading(count)
    case RJoin(count) => call == Reading(count)
    case RSleep(count) => call == Reading(count)
    case RMoved(got) => call.Reading? && got == moved && |got| <= call.count
    case ROwe(got) => call.Reading? && got == moved && |got| <= call.count
    case WWant(data) => call == Writing(data)
    case WTest(data) => call == Writing(data)
    case WJoin(data) => call == Writing(data)
    case WLook1(data) => call == Writing(data)
    case WLook2(data, _) => call == Writing(data)
    case WLook3(data) => call == Writing(data)
    case WLook4(data, _) => call == Writing(data)
    case WSleep(data) => call == Writing(data)
    case WFinish(data) => call == Writing(data)
    case WMoved(sent) => call.Writing? && sent == moved && |sent| <= |call.data| && sent == call.data[..|sent|]
    case WOwe(sent) => call.Writing? && sent == moved && |sent| <= |call.data| && sent == call.data[..|sent|]
  }

  predicate Carries(x: Proc, asked: Asked) {
    && asked.open.Open? && x.forRead == asked.open.forRead && x.forWrite == asked.open.forWrite
    && x.nonblock == asked.open.nonblock && (asked.open.nonblock ==> !InWait(x.pc))
    && CarriesCall(x.pc, asked.call, asked.moved)
  }

  predicate AllCarry(w: Watched) {
    && w.asked.Keys == w.s.procs.Keys
    && (forall p :: p in w.s.procs ==> p in w.asked && Carries(w.s.procs[p], w.asked[p]))
  }

  /** What a step may do to the process that acts: it keeps its modes, and moves its call on. */
  lemma ReadCarries(s: State, p: Pid, asked: Asked)
    requires p in s.procs && s.ring.Valid() && Carries(s.procs[p], asked) && ReadStep(s, p).Some?
    ensures var t := ReadStep(s, p).value;
            && p in t.procs && t.procs == At(s.procs, p, t.procs[p].pc) && !t.procs[p].pc.WMoved?
            && Carries(t.procs[p], if t.procs[p].pc.RMoved? then asked.(moved := t.procs[p].pc.got) else asked)
  {
    hide ReadCount;
  }

  lemma ReadWaitCarries(s: State, p: Pid, asked: Asked)
    requires p in s.procs && s.ring.Valid() && Carries(s.procs[p], asked) && ReadWaitStep(s, p).Some?
    ensures var t := ReadWaitStep(s, p).value;
            && p in t.procs && t.procs == At(s.procs, p, t.procs[p].pc) && !t.procs[p].pc.RMoved?
                && !t.procs[p].pc.WMoved?
            && Carries(t.procs[p], asked)
  {
  }

  lemma WriteCarries(s: State, p: Pid, asked: Asked)
    requires p in s.procs && s.ring.Valid() && Carries(s.procs[p], asked) && WriteStep(s, p).Some?
    ensures var t := WriteStep(s, p).value;
            && p in t.procs && t.procs == At(s.procs, p, t.procs[p].pc) && !t.procs[p].pc.RMoved?
            && (t.procs[p].pc.WMoved? ==> Offer(asked.call, |t.procs[p].pc.sent|) == t.procs[p].pc.sent)
            && Carries(t.procs[p], if t.procs[p].pc.WMoved? then asked.(moved := t.procs[p].pc.sent) else asked)
  {
    hide Patched, SpaceFree, WriteCount;
    if s.procs[p].pc.WTest? {
      WriteTestCarries(s, p, asked);
    }
  }

  lemma WriteTestCarries(s: State, p: Pid, asked: Asked)
    requires p in s.procs && s.ring.Valid() && Carries(s.procs[p], asked) && s.procs[p].pc.WTest?
    requires WriteStep(s, p).Some?
    ensures var t := WriteStep(s, p).value;
            && p in t.procs && t.procs == At(s.procs, p, t.procs[p].pc) && !t.procs[p].pc.RMoved?
            && (t.procs[p].pc.WMoved? ==> Offer(asked.call, |t.procs[p].pc.sent|) == t.procs[p].pc.sent)
            && Carries(t.procs[p], if t.procs[p].pc.WMoved? then asked.(moved := t.procs[p].pc.sent) else asked)
  {
    hide Patched, SpaceFree, WriteCount;
  }

  lemma WriteWaitCarries(s: State, p: Pid, asked: Asked)
    requires p in s.procs && s.ring.Valid() && Carries(s.procs[p], asked) && WriteWaitStep(s, p).Some?
    ensures var t := WriteWaitStep(s, p).value;
            && p in t.procs && t.procs == At(s.procs, p, t.procs[p].pc) && !t.procs[p].pc.RMoved?
                && !t.procs[p].pc.WMoved?
            && Carries(t.procs[p], asked)
  {
  }

  lemma SignalCarries(s: State, p: Pid, asked: Asked)
    requires p in s.procs && Carries(s.procs[p], asked) && SignalStep(s, p).Some?
    ensures var t := SignalStep(s, p).value;
            p in t.procs && t.procs == At(s.procs, p, t.procs[p].pc) && Carries(t.procs[p], asked)
  {
  }

  lemma GoCarries(w: Watched, p: Pid)
    requires AllCarry(w) && p in w.s.procs && w.s.ring.Valid() && GoStep(w.s, p).Some?
    ensures AllCarry(Observe(w, Go(p), GoStep(w.s, p).value))
    ensures var t := GoStep(w.s, p).value;
            p in t.procs && (t.procs[p].pc.WMoved? ==>
                Offer(w.asked[p].call, |t.procs[p].pc.sent|) == t.procs[p].pc.sent)
  {
    hide ReadStep, ReadWaitStep, WriteStep, WriteWaitStep, Carries;
    var pc, me := w.s.procs[p].pc, w.asked[p];
    if InRead(pc) {
      ReadCarries(w.s, p, me);
    } else if InReadWait(pc) {
      ReadWaitCarries(w.s, p, me);
    } else if InWrite(pc) {
      WriteCarries(w.s, p, me);
    } else {
      WriteWaitCarries(w.s, p, me);
    }
    hide GoStep, InRead, InReadWait, InWrite, Offer;
  }

  lemma StepCarries(w: Watched, a: Action)
    requires AllCarry(w) && Step(w.s, a).Some?
    ensures AllCarry(Observe(w, a, Step(w.s, a).value))
  {
    match a
    case Go(p) =>
      GoCarries(w, p);
      hide GoStep, Observe;
    case Signal(p) =>
      SignalCarries(w.s, p, w.asked[p]);
      hide SignalStep, Carries;
    case _ =>
      hide GoStep, SignalStep, CarriesCall;
      OtherCarries(w, a);
  }

  /** An open, a close, and the entry into a call. */
  lemma OtherCarries(w: Watched, a: Action)
    requires AllCarry(w) && Step(w.s, a).Some? && !a.Go? && !a.Signal?
    ensures AllCarry(Observe(w, a, Step(w.s, a).value))
  {
    hide GoStep, SignalStep;
  }

  // ---------- first in, first out, from caller to caller ----------

  predicate CallsOk(w: Watched) {
    PipeTheorems.FifoOk(PipeTheorems.Observed(w.s, PipeTheorems.Log(w.offered, w.delivered))) && AllCarry(w)
  }

  /** The observer of the actions logs what the observer of the machine does. */
  lemma SameLog(w: Watched, a: Action)
    requires AllCarry(w) && Step(w.s, a).Some?
    ensures var t := Step(w.s, a).value;
            var v := Observe(w, a, t);
            v.s == t && PipeTheorems.Log(v.offered, v.delivered)
                        == PipeTheorems.Observe(PipeTheorems.Log(w.offered, w.delivered), a, t)
  {
    if a.Go? {
      GoCarries(w, a.p);
      hide GoStep, Offer, AllCarry;
    }
  }

  lemma WatchKeepsOk(w: Watched, a: Action)
    requires CallsOk(w) && Watch(w, a).Some?
    ensures CallsOk(Watch(w, a).value)
  {
    hide Step, AllCarry, Observe, PipeTheorems.FifoOk, PipeTheorems.Observe;
    StepCarries(w, a);
    SameLog(w, a);
    PipeTheorems.WatchKeepsFifo(PipeTheorems.Observed(w.s, PipeTheorems.Log(w.offered, w.delivered)), a);
  }

  lemma WatchRunOk(buf: seq<byte>, run: seq<Action>)
    requires 2 <= |buf| && Exec(Watch, WatchInit(buf), run).Some?
    ensures CallsOk(Exec(Watch, WatchInit(buf), run).value)
  {
    InitInv(buf);
    forall x, a | CallsOk(x) && Watch(x, a).Some? ensures CallsOk(Watch(x, a).value) {
      WatchKeepsOk(x, a);
    }
    assert CallsOk(WatchInit(buf));
    hide Watch, CallsOk;
    InvariantOverRun(Watch, CallsOk, WatchInit(buf), run);
  }

  /** Over every run: what the reads took since the last open, followed by the ring contents, is the data that the
      write actions offered, so much of each as it had accepted, although a call moves one contiguous chunk only. */
  lemma PipeIsFifo(buf: seq<byte>, run: seq<Action>, w: Watched)
    requires 2 <= |buf| && Exec(Watch, WatchInit(buf), run) == Some(w)
    ensures w.s.ring.Valid() && w.offered == w.delivered + w.s.ring.Bytes()
    ensures |w.offered| - |w.delivered| <= |w.s.ring.buf| - 1
  {
    WatchRunOk(buf, run);
  }

  /** How much a call moves: of the data of the latest write action as much as is offered, free, and left before the end
      of the buffer; for the count of the latest read action as much as is asked for, held, and left before the end. */
  lemma ChunksAreExact(buf: seq<byte>, run: seq<Action>, w: Watched, p: Pid, v: Watched)
    requires 2 <= |buf| && Exec(Watch, WatchInit(buf), run) == Some(w) && Watch(w, Go(p)) == Some(v)
    ensures p in w.s.procs && p in v.s.procs && p in w.asked && w.s.ring.Valid()
    ensures v.s.procs[p].pc.WMoved? ==>
              && w.asked[p].call.Writing?
              && var data, held := w.asked[p].call.data, |w.s.ring.Bytes()|;
                 var n := Min(Min(|data|, |w.s.ring.buf| - 1 - held), |w.s.ring.buf| - w.s.ring.wp);
                 0 <= n <= |data| && v.offered == w.offered + data[..n]
    ensures v.s.procs[p].pc.RMoved? ==>
              && w.asked[p].call.Reading?
              && var count, held := w.asked[p].call.count, w.s.ring.Bytes();
                 var n := Min(Min(count, |held|), |w.s.ring.buf| - w.s.ring.rp);
                 0 <= n <= |held| && v.delivered == w.delivered + held[..n]
  {
    hide Carries, CallsOk, Watch, Contents;
    WatchRunOk(buf, run);
    StaysIn(w, p, v);
    if v.s.procs[p].pc.WMoved? {
      WriteChunkIs(w, p, v);
    } else if v.s.procs[p].pc.RMoved? {
      ReadChunkIs(w, p, v);
    }
  }

  lemma StaysIn(w: Watched, p: Pid, v: Watched)
    requires CallsOk(w) && Watch(w, Go(p)) == Some(v)
    ensures p in w.s.procs && p in v.s.procs && p in w.asked && w.s.ring.Valid()
  {
    GoCarries(w, p);
    hide GoStep, Moves, Carries;
  }

  lemma WriteChunkIs(w: Watched, p: Pid, v: Watched)
    requires CallsOk(w) && Watch(w, Go(p)) == Some(v) && p in v.s.procs && v.s.procs[p].pc.WMoved?
    ensures p in w.s.procs && p in w.asked && w.asked[p].call.Writing? && w.s.ring.Valid()
    ensures var data, held := w.asked[p].call.data, |w.s.ring.Bytes()|;
            var n := Min(Min(|data|, |w.s.ring.buf| - 1 - held), |w.s.ring.buf| - w.s.ring.wp);
            0 <= n <= |data| && v.offered == w.offered + data[..n]
  {
    hide Step, Contents, WriteCount, SpaceFree;
    WMovedFrom(w.s, p, v.s);
    assert Carries(w.s.procs[p], w.asked[p]);
    var Ring(buf, rp, wp) := w.s.ring;
    hide Inv, AllCarry;
    WriteCountIs(buf, rp, wp, |w.s.procs[p].pc.data|);
  }

  lemma WMovedFrom(s: State, p: Pid, t: State)
    requires s.ring.Valid() && Step(s, Go(p)) == Some(t) && p in t.procs && t.procs[p].pc.WMoved?
    ensures p in s.procs && s.procs[p].pc.WTest? && s.ring.AtRest() && SpaceFree(|s.ring.buf|, s.ring.rp, s.ring.wp) > 0
    ensures var data := s.procs[p].pc.data;
            t.procs[p].pc.sent == data[..WriteCount(|s.ring.buf|, s.ring.rp, s.ring.wp, |data|)]
  {
    hide Patched, WriteCount, SpaceFree;
    if !InWrite(s.procs[p].pc) {
      PipeTheorems.WaitsMoveNothing(s, p);
    }
  }

  lemma ReadChunkIs(w: Watched, p: Pid, v: Watched)
    requires CallsOk(w) && Watch(w, Go(p)) == Some(v) && p in v.s.procs && v.s.procs[p].pc.RMoved?
    ensures p in w.s.procs && p in w.asked && w.asked[p].call.Reading? && w.s.ring.Valid()
    ensures var count, held := w.asked[p].call.count, w.s.ring.Bytes();
            var n := Min(Min(count, |held|), |w.s.ring.buf| - w.s.ring.rp);
            0 <= n <= |held| && v.delivered == w.delivered + held[..n]
  {
    RMovedFrom(w.s, p, v.s);
    assert Carries(w.s.procs[p], w.asked[p]);
    var Ring(buf, rp, wp) := w.s.ring;
    var count := w.s.procs[p].pc.count;
    ReadCountIs(buf, rp, wp, count);
    ReadTakesPrefix(buf, rp, wp, count);
    hide Step, Contents, ReadCount;
  }

  lemma RMovedFrom(s: State, p: Pid, t: State)
    requires s.ring.Valid() && Step(s, Go(p)) == Some(t) && p in t.procs && t.procs[p].pc.RMoved?
    ensures p in s.procs && s.procs[p].pc.RTest? && s.ring.AtRest() && s.ring.rp != s.ring.wp
    ensures var c := ReadCount(|s.ring.buf|, s.ring.rp, s.ring.wp, s.procs[p].pc.count);
            t.procs[p].pc.got == s.ring.buf[s.ring.rp..s.ring.rp + c]
  {
    hide Patched, ReadCount;
    if !InRead(s.procs[p].pc) && !InWrite(s.procs[p].pc) {
      PipeTheorems.WaitsMoveNothing(s, p);
    }
  }

  // ---------- how calls end ----------

  /** nreaders and nwriters count the open files that asked for reading, and for writing, and the buffer exists exactly
      while a file is open. */
  lemma CountsMatchOpens(buf: seq<byte>, run: seq<Action>, w: Watched)
    requires 2 <= |buf| && Exec(Watch, WatchInit(buf), run) == Some(w)
    ensures forall p :: p in w.asked ==> w.asked[p].open.Open?
    ensures w.s.counts.nreaders == |set p | p in w.asked && w.asked[p].open.forRead|
    ensures w.s.counts.nwriters == |set p | p in w.asked && w.asked[p].open.forWrite|
    ensures w.s.counts.hasBuffer <==> w.asked != map[]
  {
    WatchRunOk(buf, run);
    assert forall p :: p in w.asked ==> Carries(w.s.procs[p], w.asked[p]);
    assert Readers(w.s.procs) == set p | p in w.asked && w.asked[p].open.forRead;
    assert Writers(w.s.procs) == set p | p in w.asked && w.asked[p].open.forWrite;
    assert w.asked == map[] <==> w.asked.Keys == {};
    assert w.s.procs == map[] <==> w.s.procs.Keys == {};
  }

  /** Over every run: a process that asked not to block is never in a wait loop, and its open modes are those of its
      latest open action. */
  lemma NonblockingNeverWaits(buf: seq<byte>, run: seq<Action>, w: Watched, p: Pid)
    requires 2 <= |buf| && Exec(Watch, WatchInit(buf), run) == Some(w) && p in w.s.procs
    ensures p in w.asked && w.asked[p].open.Open?
    ensures w.s.procs[p].forRead == w.asked[p].open.forRead && w.s.procs[p].forWrite == w.asked[p].open.forWrite
    ensures w.asked[p].open.nonblock ==> !InWait(w.s.procs[p].pc) && p !in w.s.q.inq && p !in w.s.q.outq
  {
    WatchRunOk(buf, run);
    assert Carries(w.s.procs[p], w.asked[p]);
  }

  /** A call ends by returning the chunk that it has moved, and exactly that; or with -ERESTARTSYS on a signal; or with
      -EAGAIN when it was not to block and finds nothing to do; and in no other way. */
  lemma CallEndsIff(buf: seq<byte>, run: seq<Action>, w: Watched, a: Action, p: Pid)
    requires 2 <= |buf| && Exec(Watch, WatchInit(buf), run) == Some(w) && Step(w.s, a).Some?
    requires p in w.s.procs && !w.s.procs[p].pc.Idle? && p in Step(w.s, a).value.procs
    ensures p in w.asked && w.asked[p].open.Open? && w.s.ring.Valid()
    ensures var pc := w.s.procs[p].pc;
            Step(w.s, a).value.procs[p].pc.Idle? <==>
            || (a == Go(p) && ((pc.ROwe? && pc.got == w.asked[p].moved) || (pc.WOwe? && pc.sent == w.asked[p].moved)))
            || (a == Signal(p) && !pc.WSleep?)
            || (a == Go(p) && w.asked[p].open.nonblock && pc.RTest? && w.s.ring.Bytes() == [])
            || (a == Go(p) && w.asked[p].open.nonblock && pc.WTest? && Full(w.s.ring))
  {
    hide Step, Contents, SemOk, InqOk, OutqOk, CountsOk;
    WatchRunOk(buf, run);
    assert Carries(w.s.procs[p], w.asked[p]);
    assert SemOk(w.s.procs, w.s.sem, w.s.ring);
    RingIsValid(w.s);
    hide CallsOk, AllCarry;
    if a == Go(p) {
      GoEndsIff(w.s, p);
    } else if a == Signal(p) {
      SignalEndsIff(w.s, p);
    } else {
      OthersStay(w.s, a, p);
    }
  }

  lemma RingIsValid(s: State)
    requires SemOk(s.procs, s.sem, s.ring)
    ensures s.ring.Valid()
  {
  }

  lemma SignalEndsIff(s: State, p: Pid)
    requires p in s.procs && Step(s, Signal(p)).Some?
    ensures p in Step(s, Signal(p)).value.procs
    ensures Step(s, Signal(p)).value.procs[p].pc.Idle? <==> !s.procs[p].pc.WSleep?
  {
  }

  lemma GoEndsIff(s: State, p: Pid)
    requires SemOk(s.procs, s.sem, s.ring) && p in s.procs && !s.procs[p].pc.Idle? && Step(s, Go(p)).Some?
    ensures var x, t := s.procs[p], Step(s, Go(p)).value;
            p in t.procs && (t.procs[p].pc.Idle? <==>
              || x.pc.ROwe? || x.pc.WOwe?
              || (x.nonblock && x.pc.RTest? && s.ring.Bytes() == [])
              || (x.nonblock && x.pc.WTest? && Full(s.ring)))
  {
    if s.procs[p].pc.RTest? {
      EmptyIffPointersMeet(s.ring.buf, s.ring.rp, s.ring.wp);
    } else if s.procs[p].pc.WTest? {
      SpaceFreeIsRoom(s.ring.buf, s.ring.rp, s.ring.wp);
    }
    hide Contents, SpaceFree, Patched, ReadCount, WriteCount;
  }

  lemma OthersStay(s: State, a: Action, p: Pid)
    requires Step(s, a).Some? && p in s.procs && !s.procs[p].pc.Idle? && a != Go(p) && a != Signal(p)
    requires p in Step(s, a).value.procs
    ensures Step(s, a).value.procs[p] == s.procs[p]
  {
    if a.Go? {
      GoLeavesOthers(s, a.p, p);
      hide GoStep;
    }
  }

  lemma GoLeavesOthers(s: State, p: Pid, q: Pid)
    requires s.ring.Valid() && p in s.procs && q in s.procs && p != q && GoStep(s, p).Some?
    ensures q in GoStep(s, p).value.procs && GoStep(s, p).value.procs[q] == s.procs[q]
  {
    ReadKeepsModes(s, p);
    WriteKeepsModes(s, p);
    hide ReadStep, ReadWaitStep, WriteStep, WriteWaitStep;
  }

  // ---------- what the tests before sleep tell ----------

  function Goes(p: Pid, k: nat): seq<Action> {
    seq(k, _ => Go(p))
  }

  lemma GoesOn(s: State, p: Pid, k: nat)
    requires k > 0
    ensures Exec(Step, s, Goes(p, k)) == if Step(s, Go(p)).None? then None
            else Exec(Step, Step(s, Go(p)).value, Goes(p, k - 1))
    ensures Exec(Step, s, Goes(p, 0)) == Some(s)
  {
    assert Goes(p, k)[1..] == Goes(p, k - 1);
  }

  /** Undisturbed, the test of a waiting reader sends it back to the semaphore if the ring holds bytes, and on to sleep
      if it does not. */
  lemma ReaderLookTells(s: State, p: Pid)
    requires s.ring.AtRest() && p in s.procs && s.procs[p].pc.RLook?
    ensures var x := s.procs[p];
            var retry := s.(procs := At(s.procs, p, RWant(x.pc.count)), q := s.q.(inq := s.q.inq - {p}));
            var stay := s.(procs := At(s.procs, p, if x.pc.joined then RSleep(x.pc.count) else RJoin(x.pc.count)));
            Exec(Step, s, Goes(p, 2)) == Some(if s.ring.Bytes() != [] then retry else stay)
  {
    EmptyIffPointersMeet(s.ring.buf, s.ring.rp, s.ring.wp);
    var x := s.procs[p];
    var t := s.(procs := At(s.procs, p, RLook2(x.pc.count, x.pc.joined, s.ring.rp)));
    GoesOn(s, p, 2);
    GoesOn(t, p, 1);
    GoesOn(Step(t, Go(p)).value, p, 1);
    hide Goes, Contents;
    assert forall pc :: At(t.procs, p, pc) == At(s.procs, p, pc);
  }

  lemma FirstLook(s: State, p: Pid)
    requires s.ring.AtRest() && p in s.procs && s.procs[p].pc.WLook1?
    ensures var data := s.procs[p].pc.data;
            Exec(Step, s, Goes(p, 2)) ==
            Some(s.(procs := At(s.procs, p, if s.ring.rp == s.ring.wp then WFinish(data) else WLook3(data))))
  {
    var data := s.procs[p].pc.data;
    var t := s.(procs := At(s.procs, p, WLook2(data, s.ring.rp)));
    var next := if s.ring.rp == s.ring.wp then WFinish(data) else WLook3(data);
    AtTwice(s.procs, p, WLook2(data, s.ring.rp), next);
    GoIs(s, p);
    GoIs(t, p);
    hide Step, GoStep, ReadStep, ReadWaitStep, WriteStep;
    TwoSteps(s, t, s.(procs := At(s.procs, p, next)), p);
  }

  lemma GoIs(s: State, p: Pid)
    requires s.ring.Valid() && p in s.procs && !InRead(s.procs[p].pc) && !InReadWait(s.procs[p].pc)
    requires !InWrite(s.procs[p].pc)
    ensures Step(s, Go(p)) == WriteWaitStep(s, p)
  {
    hide ReadStep, ReadWaitStep, WriteStep, WriteWaitStep;
  }

  lemma TwoSteps(s: State, t: State, u: State, p: Pid)
    requires Step(s, Go(p)) == Some(t) && Step(t, Go(p)) == Some(u)
    ensures Exec(Step, s, Goes(p, 2)) == Some(u)
  {
    GoesOn(s, p, 2);
    GoesOn(t, p, 1);
    GoesOn(u, p, 1);
    hide Step, Goes;
  }

  lemma AtTwice(procs: map<Pid, Proc>, p: Pid, pc: Pc, pc': Pc)
    requires p in procs
    ensures At(At(procs, p, pc), p, pc') == At(procs, p, pc')
  {
  }

  /** Undisturbed, the test of a writer that has joined the queue sends it back to the semaphore if there is room, and
      to sleep if there is none. */
  lemma WriterLookTells(s: State, p: Pid)
    requires s.ring.AtRest() && p in s.procs && s.procs[p].pc.WLook1?
    ensures var data := s.procs[p].pc.data;
            var leave, stay := s.(procs := At(s.procs, p, WFinish(data))), s.(procs := At(s.procs, p, WSleep(data)));
            var k := if s.ring.rp == s.ring.wp then 2 else 4;
            Exec(Step, s, Goes(p, k)) == Some(if Full(s.ring) then stay else leave)
  {
    FirstLook(s, p);
    if s.ring.rp == s.ring.wp {
      SpaceFreeIsRoom(s.ring.buf, s.ring.rp, s.ring.wp);
      hide Step, Exec, Goes, Contents;
    } else {
      var data := s.procs[p].pc.data;
      var t := s.(procs := At(s.procs, p, WLook3(data)));
      hide Step, Exec;
      ExecAppend(Step, s, Goes(p, 2), Goes(p, 2));
      assert Goes(p, 2) + Goes(p, 2) == Goes(p, 4);
      WriterLooksOn(t, p);
      AtTwice(s.procs, p, WLook3(data), if Full(s.ring) then WSleep(data) else WFinish(data));
    }
  }

  lemma WriterLooksOn(s: State, p: Pid)
    requires s.ring.AtRest() && p in s.procs && s.procs[p].pc.WLook3? && s.ring.rp != s.ring.wp
    ensures var data := s.procs[p].pc.data;
            Exec(Step, s, Goes(p, 2)) ==
            Some(s.(procs := At(s.procs, p, if Full(s.ring) then WSleep(data) else WFinish(data))))
  {
    SpaceFreeIsRoom(s.ring.buf, s.ring.rp, s.ring.wp);
    var data := s.procs[p].pc.data;
    var t := s.(procs := At(s.procs, p, WLook4(data, s.ring.rp)));
    var next := if Full(s.ring) then WSleep(data) else WFinish(data);
    AtTwice(s.procs, p, WLook4(data, s.ring.rp), next);
    GoIs(s, p);
    GoIs(t, p);
    hide Step, GoStep, ReadStep, ReadWaitStep, WriteStep, Contents;
    TwoSteps(s, t, s.(procs := At(s.procs, p, next)), p);
  }

  /** A sleeping reader is woken by a writer that has moved bytes, or by a signal, and by nothing else. */
  lemma ReaderStaysAsleepIff(s: State, a: Action, p: Pid)
    requires p in s.procs && s.procs[p].pc.RSleep? && p in s.q.inq && Step(s, a).Some?
    ensures var t := Step(s, a).value;
            (p in t.procs && t.procs[p].pc.RSleep? && p in t.q.inq) <==>
            !(a == Signal(p) || (a.Go? && s.procs[a.p].pc.WOwe?))
  {
  }

  /** Every run of the machine is observed. */
  lemma EveryRunIsWatched(w: Watched, run: seq<Action>)
    requires Exec(Step, w.s, run).Some?
    ensures Exec(Watch, w, run).Some? && Exec(Watch, w, run).value.s == Exec(Step, w.s, run).value
  {
    hide Step;
    ObserverFollows(Step, Watch, (x: Watched) => x.s, w, run);
  }
}
