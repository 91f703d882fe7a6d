/** A scull device over whole runs of opens, reads, writes, seeks and retuning by any number of open files. */
module ScullRuns {
  import opened Basics
  import opened Runs
  import opened Addressing
  import opened ScullSpec

  type Fd = nat

  /** What the latest call returned: bytes, a count, -ENOMEM, a position, -EINVAL, or nothing of interest. */
  datatype Reply = Done | Bytes(got: seq<byte>) | Count(n: nat) | NoMemory | Position(at: nat) | Invalid

  /** The device, the module tunables, and the position of each open file. */
  datatype Sys = Sys(dev: Store, quantum: nat, qset: nat, files: map<Fd, nat>, reply: Reply)

  datatype Whence = FromStart | FromHere | FromEnd

  datatype Action =
    | Open(fd: Fd, writeOnly: bool)
    | Close(fd: Fd)
    | ReadSome(fd: Fd, count: nat)
    | WriteSome(fd: Fd, data: seq<byte>, junk: seq<byte>)  // memory is granted; a new quantum holds `junk`
    | WriteRefused(fd: Fd, items: nat)                     // memory runs out after the list has grown to `items`
    | Seek(fd: Fd, offset: int, whence: Whence)
    | Tune(quantum: nat, qset: nat)                        // ioctl

  function Init(quantum: nat, qset: nat): Sys {
    Sys(Trimmed(quantum, qset), quantum, qset, map[], Done)
  }

  /** The new position that scull_llseek computes, or None for -EINVAL. */
  function SeekTo(pos: nat, size: nat, offset: int, whence: Whence): Option<nat> {
    var newpos :=
      match whence
      case FromStart => offset
      case FromHere => pos + offset
      case FromEnd => size + offset;
    if newpos < 0 then None else Some(newpos)
  }

  function Step(s: Sys, a: Action): Option<Sys> {
    if !s.dev.Valid() then None
    else if a.Open? then
      if a.fd in s.files then None
      else
        var dev := if a.writeOnly then Trimmed(s.quantum, s.qset) else s.dev;
        Some(s.(files := s.files[a.fd := 0], dev := dev, reply := Done))
    else if a.Tune? then
      if a.quantum > 0 && a.qset > 0 then Some(s.(quantum := a.quantum, qset := a.qset, reply := Done)) else None
    else if a.fd !in s.files then None
    else if a.Close? then Some(s.(files := s.files - {a.fd}, reply := Done))
    else CallStep(s, a, s.files[a.fd])
  }

  /** A call on an open file that stands at `p`. */
  function CallStep(s: Sys, a: Action, p: nat): Option<Sys>
    requires s.dev.Valid()
  {
    match a
    case ReadSome(fd, count) =>
      var got := Read(s.dev, p, count);
      Some(s.(files := s.files[fd := p + |got|], reply := Bytes(got)))
    case WriteSome(fd, data, junk) =>
      if |junk| != s.dev.quantum then None
      else
        var n := Accepted(s.dev, p, |data|);
        Some(s.(files := s.files[fd := p + n], dev := Write(s.dev, p, data, junk), reply := Count(n)))
    case WriteRefused(fd, items) =>
      if Refused(s.dev, p, s.dev.(items := items)) then Some(s.(dev := s.dev.(items := items), reply := NoMemory))
      else None
    case Seek(fd, offset, whence) =>
      (match SeekTo(p, s.dev.size, offset, whence)
       case None => Some(s.(reply := Invalid))
       case Some(newpos) => Some(s.(files := s.files[fd := newpos], reply := Position(newpos))))
    case _ => None
  }

  // ---------- a reference that knows nothing of blocks, and of the machine only the actions ----------

  /** The latest byte written at each position since the last trim, the quanta written to, the end of the data and
      the tunables in force; the tunables that wait for the next trim; and where each open file stands. */
  datatype Ref = Ref(bytes: map<nat, byte>, touched: set<nat>, size: nat, quantum: nat, qset: nat,
                     nextQuantum: nat, nextQset: nat, pos: map<Fd, nat>)

  function Overlay(bytes: map<nat, byte>, p: nat, data: seq<byte>): map<nat, byte> {
    bytes + map x | p <= x < p + |data| && InSpan(x, p, |data|) :: data[x - p]
  }

  predicate InSpan(x: nat, p: nat, n: nat) {
    p <= x < p + n
  }

  /** How many bytes a read returns: as many as asked for, cut at the size and at the end of the quantum, and none
      past the size or in a quantum not written to. */
  function ReadLength(r: Ref, p: nat, count: nat): nat
    requires r.quantum > 0
  {
    if p >= r.size || p / r.quantum !in r.touched then 0
    else Min(Min(count, r.size - p), r.quantum - p % r.quantum)
  }

  /** How many bytes a write accepts: up to the end of the quantum. */
  function WriteLength(r: Ref, p: nat, count: nat): nat
    requires r.quantum > 0
  {
    Min(count, r.quantum - p % r.quantum)
  }

  /** `got` is, wherever that is known, the latest bytes from `p` on. */
  predicate Latest(bytes: map<nat, byte>, p: nat, got: seq<byte>) {
    forall i :: 0 <= i < |got| && p + i in bytes ==> got[i] == bytes[p + i]
  }

  /** After a write of `sent` at `p`. */
  function Written(r: Ref, p: nat, sent: seq<byte>): Ref
    requires r.quantum > 0
  {
    r.(bytes := Overlay(r.bytes, p, sent), touched := r.touched + {p / r.quantum}, size := Max(r.size, p + |sent|))
  }

  /** lseek as its callers know it. */
  function Target(p: nat, size: nat, offset: int, whence: Whence): int {
    if whence.FromStart? then offset else if whence.FromHere? then p + offset else size + offset
  }

  function Moved(r: Ref, fd: Fd, p: nat): Ref {
    r.(pos := r.pos[fd := p])
  }

  /** Kept up to date from the actions alone. */
  function Note(r: Ref, a: Action): Ref
    requires r.quantum > 0
  {
    match a
    case Open(fd, writeOnly) =>
      var start := Moved(r, fd, 0);
      if writeOnly then start.(bytes := map[], touched := {}, size := 0, quantum := r.nextQuantum, qset := r.nextQset)
      else start
    case Close(fd) => r.(pos := r.pos - {fd})
    case Tune(quantum, qset) => r.(nextQuantum := quantum, nextQset := qset)
    case WriteRefused(_, _) => r
    case ReadSome(fd, count) =>
      if fd !in r.pos then r else Moved(r, fd, r.pos[fd] + ReadLength(r, r.pos[fd], count))
    case WriteSome(fd, data, _) =>
      if fd !in r.pos then r
      else
        var n := WriteLength(r, r.pos[fd], |data|);
        Moved(Written(r, r.pos[fd], data[..n]), fd, r.pos[fd] + n)
    case Seek(fd, offset, whence) =>
      if fd !in r.pos || Target(r.pos[fd], r.size, offset, whence) < 0 then r
      else Moved(r, fd, Target(r.pos[fd], r.size, offset, whence))
  }

  /** What a call may return, by the reference; of bytes never written only the number is known. */
  predicate Meets(r: Ref, a: Action, reply: Reply)
    requires r.quantum > 0
  {
    match a
    case ReadSome(fd, count) =>
      && fd in r.pos && reply.Bytes? && |reply.got| == ReadLength(r, r.pos[fd], count)
      && Latest(r.bytes, r.pos[fd], reply.got)
    case WriteSome(fd, data, _) => fd in r.pos && reply == Count(WriteLength(r, r.pos[fd], |data|))
    case WriteRefused(_, _) => reply == NoMemory
    case Seek(fd, offset, whence) =>
      && fd in r.pos
      && var target := Target(r.pos[fd], r.size, offset, whence);
         reply == if target < 0 then Invalid else Position(target)
    case _ => reply == Done
  }

  datatype Noted = Noted(s: Sys, r: Ref)

  function NotedStep(n: Noted, a: Action): Option<Noted> {
    match Step(n.s, a)
    case None => None
    case Some(t) => if n.r.quantum == 0 then None else Some(Noted(t, Note(n.r, a)))
  }

  function NotedInit(quantum: nat, qset: nat): Noted {
    Noted(Init(quantum, qset), Ref(map[], {}, 0, quantum, qset, quantum, qset, map[]))
  }

  /** The device holds what the reference says. */
  ghost predicate SameBytes(st: Store, r: Ref)
    requires st.Valid()
  {
    && st.quantum == r.quantum && st.qset == r.qset && st.size == r.size
    && (forall x :: x in r.bytes ==> st.ByteAt(x) == Some(r.bytes[x]))
    && (forall x: nat :: st.ByteAt(x).Some? <==> x / r.quantum in r.touched)
  }

  ghost predicate Agree(n: Noted) {
    var Noted(s, r) := n;
    && s.dev.Valid() && SameBytes(s.dev, r)
    && s.quantum == r.nextQuantum > 0 && s.qset == r.nextQset > 0
    && s.files == r.pos
  }

  lemma TrimAgrees(r: Ref, quantum: nat, qset: nat)
    requires quantum > 0 && qset > 0 && r.bytes == map[] && r.touched == {} && r.size == 0
    requires r.quantum == quantum && r.qset == qset
    ensures Trimmed(quantum, qset).Valid() && SameBytes(Trimmed(quantum, qset), r)
  {
  }

  lemma AcceptedIs(st: Store, r: Ref, p: nat, count: nat)
    requires st.Valid() && st.quantum == r.quantum
    ensures Accepted(st, p, count) == WriteLength(r, p, count) <= count
  {
    LocateRebuilds(st.quantum, st.qset, p);
    LocateIsLinear(st.quantum, st.qset, p);
  }

  lemma WriteShows(st: Store, p: nat, data: seq<byte>, junk: seq<byte>, r: Ref, x: nat)
    requires st.Valid() && |junk| == st.quantum == r.quantum
    requires (x in r.bytes ==> st.ByteAt(x) == Some(r.bytes[x])) && (st.ByteAt(x).Some? <==> x / r.quantum in r.touched)
    ensures Write(st, p, data, junk).Valid() && Accepted(st, p, |data|) <= |data|
    ensures var t := Write(st, p, data, junk);
            var after := Written(r, p, data[..Accepted(st, p, |data|)]);
            && (x in after.bytes ==> t.ByteAt(x) == Some(after.bytes[x]))
            && (t.ByteAt(x).Some? <==> x / r.quantum in after.touched)
  {
    AcceptedIs(st, r, p, |data|);
    WriteIsFlat(st, p, data, junk, x);
    hide Store.ByteAt, Write, Accepted, Locate;
  }

  lemma WriteAgrees(st: Store, p: nat, data: seq<byte>, junk: seq<byte>, r: Ref)
    requires st.Valid() && |junk| == st.quantum && SameBytes(st, r)
    ensures var n := WriteLength(r, p, |data|);
            && Accepted(st, p, |data|) == n <= |data| && Write(st, p, data, junk).Valid()
            && SameBytes(Write(st, p, data, junk), Written(r, p, data[..n]))
  {
    AcceptedIs(st, r, p, |data|);
    WriteKeepsValid(st, p, data, junk);
    var t, after := Write(st, p, data, junk), Written(r, p, data[..Accepted(st, p, |data|)]);
    hide Store.ByteAt, Write, Accepted, Overlay, WriteLength;
    forall x: nat
      ensures x in after.bytes ==> t.ByteAt(x) == Some(after.bytes[x])
      ensures t.ByteAt(x).Some? <==> x / r.quantum in after.touched
    {
      WriteShows(st, p, data, junk, r, x);
    }
  }

  lemma ReadAgrees(st: Store, p: nat, count: nat, r: Ref)
    requires st.Valid() && SameBytes(st, r)
    ensures var got := Read(st, p, count);
            |got| == ReadLength(r, p, count) && Latest(r.bytes, p, got)
  {
    ReadIsFlat(st, p, count);
    hide Read;
  }

  /** Growing the list changes no byte. */
  lemma RefusedAgrees(st: Store, p: nat, items: nat, r: Ref)
    requires st.Valid() && SameBytes(st, r) && Refused(st, p, st.(items := items))
    ensures st.(items := items).Valid() && SameBytes(st.(items := items), r)
  {
    RefusedKeepsValid(st, p, st.(items := items));
    assert forall x: nat :: st.(items := items).ByteAt(x) == st.ByteAt(x);
  }

  lemma ReadCallAgrees(n: Noted, a: Action)
    requires Agree(n) && NotedStep(n, a).Some? && a.ReadSome?
    ensures Agree(NotedStep(n, a).value) && Meets(n.r, a, NotedStep(n, a).value.s.reply)
  {
    ReadAgrees(n.s.dev, n.s.files[a.fd], a.count, n.r);
    hide SameBytes, Read, ReadLength, Latest;
  }

  lemma NoteWrite(r: Ref, a: Action)
    requires r.quantum > 0 && a.WriteSome? && a.fd in r.pos
    ensures var p := r.pos[a.fd];
            var n := WriteLength(r, p, |a.data|);
            Note(r, a) == Moved(Written(r, p, a.data[..n]), a.fd, p + n)
    ensures Meets(r, a, Count(WriteLength(r, r.pos[a.fd], |a.data|)))
  {
    hide WriteLength, Written;
  }

  lemma WriteCallAgrees(n: Noted, a: Action)
    requires Agree(n) && NotedStep(n, a).Some? && a.WriteSome?
    ensures Agree(NotedStep(n, a).value) && Meets(n.r, a, NotedStep(n, a).value.s.reply)
  {
    hide NotedStep, SameBytes, Write, Accepted, Written, Moved, WriteLength, Note, Meets, Store.Valid;
    WriteIs(n, a);
    NoteWrite(n.r, a);
    var p := n.s.files[a.fd];
    WriteAgrees(n.s.dev, p, a.data, a.junk, n.r);
    var sent := a.data[..WriteLength(n.r, p, |a.data|)];
    WrittenKeeps(n.r, p, sent, a.fd);
    MoveKeepsBytes(Write(n.s.dev, p, a.data, a.junk), Written(n.r, p, sent), a.fd, p + |sent|);
  }

  lemma WriteIs(n: Noted, a: Action)
    requires n.s.dev.Valid() && NotedStep(n, a).Some? && a.WriteSome?
    ensures a.fd in n.s.files && |a.junk| == n.s.dev.quantum && n.r.quantum > 0
    ensures var t, p := NotedStep(n, a).value, n.s.files[a.fd];
            var m := Accepted(n.s.dev, p, |a.data|);
            && t.s.dev == Write(n.s.dev, p, a.data, a.junk) && t.s.files == n.s.files[a.fd := p + m]
            && t.s.quantum == n.s.quantum && t.s.qset == n.s.qset && t.s.reply == Count(m) && t.r == Note(n.r, a)
  {
    hide Accepted, Write, Store.Valid, Note;
  }

  lemma WrittenKeeps(r: Ref, p: nat, sent: seq<byte>, fd: Fd)
    requires r.quantum > 0
    ensures var t := Moved(Written(r, p, sent), fd, p + |sent|);
            t.pos == r.pos[fd := p + |sent|] && t.nextQuantum == r.nextQuantum && t.nextQset == r.nextQset
  {
  }

  lemma MoveKeepsBytes(st: Store, r: Ref, fd: Fd, p: nat)
    requires st.Valid() && SameBytes(st, r)
    ensures SameBytes(st, Moved(r, fd, p))
  {
  }

  lemma OtherCallAgrees(n: Noted, a: Action)
    requires Agree(n) && NotedStep(n, a).Some? && (a.WriteRefused? || a.Seek?)
    ensures Agree(NotedStep(n, a).value) && Meets(n.r, a, NotedStep(n, a).value.s.reply)
  {
    if a.WriteRefused? {
      RefusedAgrees(n.s.dev, n.s.files[a.fd], a.items, n.r);
      hide SameBytes, Refused;
    }
  }

  lemma CallAgrees(n: Noted, a: Action)
    requires Agree(n) && NotedStep(n, a).Some? && !a.Open? && !a.Tune? && !a.Close?
    ensures Agree(NotedStep(n, a).value) && Meets(n.r, a, NotedStep(n, a).value.s.reply)
  {
    hide Agree, NotedStep, Meets;
    match a {
      case ReadSome(_, _) => ReadCallAgrees(n, a);
      case WriteSome(_, _, _) => WriteCallAgrees(n, a);
      case _ => OtherCallAgrees(n, a);
    }
  }

  lemma StepAgrees(n: Noted, a: Action)
    requires Agree(n) && NotedStep(n, a).Some?
    ensures Agree(NotedStep(n, a).value) && Meets(n.r, a, NotedStep(n, a).value.s.reply)
  {
    hide CallStep;
    if a.Open? {
      if a.writeOnly {
        TrimAgrees(Note(n.r, a), n.s.quantum, n.s.qset);
      }
      hide SameBytes;
    } else if !a.Tune? && !a.Close? {
      CallAgrees(n, a);
    } else {
      hide SameBytes;
    }
  }

  lemma RunAgrees(quantum: nat, qset: nat, run: seq<Action>, n: Noted)
    requires quantum > 0 && qset > 0 && Exec(NotedStep, NotedInit(quantum, qset), run) == Some(n)
    ensures Agree(n)
  {
    TrimAgrees(NotedInit(quantum, qset).r, quantum, qset);
    forall x, a | Agree(x) && NotedStep(x, a).Some? ensures Agree(NotedStep(x, a).value) {
      StepAgrees(x, a);
    }
    hide Agree, NotedStep;
    InvariantOverRun(NotedStep, Agree, NotedInit(quantum, qset), run);
  }

  // ---------- main results ----------

  /** After any run, every call returns what the reference expects of it, and leaves every file where the reference
      has it: a read returns the latest bytes written from its file's position on, and moves that file by their
      number and no other. */
  lemma CallsMeetReference(quantum: nat, qset: nat, run: seq<Action>, n: Noted, a: Action, t: Sys)
    requires quantum > 0 && qset > 0 && Exec(NotedStep, NotedInit(quantum, qset), run) == Some(n)
    requires Step(n.s, a) == Some(t)
    ensures n.r.quantum > 0 && n.s.files == n.r.pos && Meets(n.r, a, t.reply) && t.files == Note(n.r, a).pos
  {
    RunAgrees(quantum, qset, run, n);
    StepAgrees(n, a);
  }

  /** A read at any position, whichever file stands there, returns the latest bytes written from there on. */
  lemma ReadReturnsLatest(quantum: nat, qset: nat, run: seq<Action>, n: Noted, p: nat, count: nat)
    requires quantum > 0 && qset > 0 && Exec(NotedStep, NotedInit(quantum, qset), run) == Some(n)
    ensures n.s.dev.Valid() && n.r.quantum > 0
    ensures var got := Read(n.s.dev, p, count);
            && |got| == (if p >= n.r.size || p / n.r.quantum !in n.r.touched then 0
                         else Min(Min(count, n.r.size - p), n.r.quantum - p % n.r.quantum))
            && forall i :: 0 <= i < |got| && p + i in n.r.bytes ==> got[i] == n.r.bytes[p + i]
  {
    RunAgrees(quantum, qset, run, n);
    hide Read;
    ReadAgrees(n.s.dev, p, count, n.r);
  }

  /** The reference misses no run of the machine. */
  lemma {:induction false} EveryRunIsNoted(n: Noted, run: seq<Action>)
    requires Agree(n) && Exec(Step, n.s, run).Some?
    ensures Exec(NotedStep, n, run).Some? && Exec(NotedStep, n, run).value.s == Exec(Step, n.s, run).value
    decreases |run|
  {
    if run != [] {
      StepAgrees(n, run[0]);
      EveryRunIsNoted(NotedStep(n, run[0]).value, run[1..]);
    }
  }

  /** The bytes that the reads of one file return over a run, joined. */
  function Joined(s: Sys, run: seq<Action>, fd: Fd): seq<byte>
    decreases |run|
  {
    if run == [] || Step(s, run[0]).None? then []
    else
      var t := Step(s, run[0]).value;
      (if run[0].ReadSome? && run[0].fd == fd && t.reply.Bytes? then t.reply.got else []) + Joined(t, run[1..], fd)
  }

  /** The run leaves the bytes of the device, and the position of the file but for its reads, alone. */
  predicate OnlyReads(run: seq<Action>, fd: Fd) {
    forall i :: 0 <= i < |run| ==>
      && !run[i].WriteSome? && !(run[i].Open? && run[i].writeOnly)
      && (run[i].Close? || run[i].Seek? ==> run[i].fd != fd)
  }

  lemma OnlyReadsSplit(run: seq<Action>, fd: Fd)
    requires OnlyReads(run, fd) && run != []
    ensures OnlyReads([run[0]], fd) && OnlyReads(run[1..], fd)
  {
    assert forall i :: 0 <= i < |run[1..]| ==> run[1..][i] == run[i + 1];
  }

  lemma JoinLatest(bytes: map<nat, byte>, p: nat, first: seq<byte>, rest: seq<byte>)
    requires Latest(bytes, p, first) && Latest(bytes, p + |first|, rest)
    ensures Latest(bytes, p, first + rest)
  {
    forall i | |first| <= i < |first + rest| && p + i in bytes ensures (first + rest)[i] == bytes[p + i] {
      assert p + i == (p + |first|) + (i - |first|);
    }
  }

  /** What a step adds to what the reads of a file have returned. */
  function FirstRead(after: Noted, a: Action, fd: Fd): seq<byte> {
    if a.ReadSome? && a.fd == fd && after.s.reply.Bytes? then after.s.reply.got else []
  }

  lemma JoinedIs(n: Noted, run: seq<Action>, fd: Fd)
    requires run != [] && NotedStep(n, run[0]).Some?
    ensures var u := NotedStep(n, run[0]).value;
            Joined(n.s, run, fd) == FirstRead(u, run[0], fd) + Joined(u.s, run[1..], fd)
  {
  }

  lemma OnlyReadsStep(n: Noted, a: Action, fd: Fd)
    requires Agree(n) && NotedStep(n, a).Some? && OnlyReads([a], fd) && fd in n.r.pos
    ensures var t := NotedStep(n, a).value;
            && Agree(t) && fd in t.r.pos && t.r.bytes == n.r.bytes
            && t.r.pos[fd] == n.r.pos[fd] + |FirstRead(t, a, fd)| && Latest(n.r.bytes, n.r.pos[fd], FirstRead(t, a, fd))
  {
    assert [a][0] == a;
    StepAgrees(n, a);
    hide Agree, Step;
  }

  predicate JoinsTo(n: Noted, t: Noted, joined: seq<byte>, fd: Fd) {
    && fd in n.r.pos && fd in t.r.pos && t.r.bytes == n.r.bytes
    && t.r.pos[fd] == n.r.pos[fd] + |joined| && Latest(n.r.bytes, n.r.pos[fd], joined)
  }

  lemma JoinsOn(n: Noted, u: Noted, t: Noted, first: seq<byte>, rest: seq<byte>, fd: Fd)
    requires JoinsTo(n, u, first, fd) && JoinsTo(u, t, rest, fd)
    ensures JoinsTo(n, t, first + rest, fd)
  {
    JoinLatest(n.r.bytes, n.r.pos[fd], first, rest);
  }

  lemma {:induction false} ReadsJoinTo(n: Noted, run: seq<Action>, fd: Fd)
    requires Agree(n) && fd in n.r.pos && OnlyReads(run, fd) && Exec(NotedStep, n, run).Some?
    ensures var t := Exec(NotedStep, n, run).value; Agree(t) && JoinsTo(n, t, Joined(n.s, run, fd), fd)
    decreases |run|
  {
    if run != [] {
      var u, t := NotedStep(n, run[0]).value, Exec(NotedStep, n, run).value;
      OnlyReadsSplit(run, fd);
      OnlyReadsStep(n, run[0], fd);
      JoinedIs(n, run, fd);
      assert JoinsTo(n, u, FirstRead(u, run[0], fd), fd);
      hide Agree, OnlyReads, JoinsTo, NotedStep, FirstRead, Joined;
      ReadsJoinTo(u, run[1..], fd);
      JoinsOn(n, u, t, FirstRead(u, run[0], fd), Joined(u.s, run[1..], fd), fd);
    }
  }

  /** With no write, trim, seek or close of the file in between, the reads of one file, however many and however other
      calls come between them, return the bytes from its first position to its last, in order. */
  lemma ReadsJoin(n: Noted, run: seq<Action>, fd: Fd)
    requires Agree(n) && fd in n.s.files && OnlyReads(run, fd) && Exec(NotedStep, n, run).Some?
    ensures var t, joined := Exec(NotedStep, n, run).value, Joined(n.s, run, fd);
            && fd in t.s.files && t.s.files[fd] == n.s.files[fd] + |joined|
            && forall i :: 0 <= i < |joined| && n.s.files[fd] + i in n.r.bytes ==>
                joined[i] == n.r.bytes[n.s.files[fd] + i]
  {
    ReadsJoinTo(n, run, fd);
    hide NotedStep, Joined;
  }

  /** Where a seek lands: at the offset, or that far from where the file stands, or from the end of the data; a
      negative position is refused and moves nothing. */
  lemma SeekLands(quantum: nat, qset: nat, run: seq<Action>, n: Noted, fd: Fd, offset: int, whence: Whence, t: Sys)
    requires quantum > 0 && qset > 0 && Exec(NotedStep, NotedInit(quantum, qset), run) == Some(n)
    requires Step(n.s, Seek(fd, offset, whence)) == Some(t)
    ensures fd in n.r.pos && fd in t.files && t.dev == n.s.dev
    ensures whence.FromStart? && offset >= 0 ==> t.files[fd] == offset && t.reply == Position(offset)
    ensures whence.FromHere? && n.r.pos[fd] + offset >= 0 ==> t.files[fd] == n.r.pos[fd] + offset
    ensures whence.FromEnd? && n.r.size + offset >= 0 ==> t.files[fd] == n.r.size + offset
    ensures t.reply.Invalid? <==>
            (if whence.FromStart? then 0 else if whence.FromHere? then n.r.pos[fd] else n.r.size) + offset < 0
    ensures t.reply.Invalid? ==> t.files == n.s.files
    ensures forall other :: other in n.s.files && other != fd ==> other in t.files && t.files[other] == n.s.files[other]
  {
    CallsMeetReference(quantum, qset, run, n, Seek(fd, offset, whence), t);
    RunAgrees(quantum, qset, run, n);
  }

  /** The pair of the latest retuning in a run. */
  function LatestTune(run: seq<Action>, quantum: nat, qset: nat): (nat, nat)
    decreases |run|
  {
    if run == [] then (quantum, qset)
    else
      var last := run[|run| - 1];
      if last.Tune? then (last.quantum, last.qset) else LatestTune(run[..|run| - 1], quantum, qset)
  }

  lemma {:induction false} TuneIsKept(n: Noted, run: seq<Action>)
    requires Exec(NotedStep, n, run).Some?
    ensures var r := Exec(NotedStep, n, run).value.r;
            (r.nextQuantum, r.nextQset) == LatestTune(run, n.r.nextQuantum, n.r.nextQset)
    decreases |run|
  {
    if run != [] {
      var front, last := run[..|run| - 1], run[|run| - 1];
      assert run == front + [last];
      ExecSplit(NotedStep, n, front, last);
      TuneIsKept(n, front);
    }
  }

  /** A write-only open takes up the quantum and the qset of the latest retuning, in this order, and nothing else of
      the device survives it. */
  lemma TrimTakesLatestTune(quantum: nat, qset: nat, run: seq<Action>, n: Noted, fd: Fd, t: Sys)
    requires quantum > 0 && qset > 0 && Exec(NotedStep, NotedInit(quantum, qset), run) == Some(n)
    requires Step(n.s, Open(fd, true)) == Some(t)
    ensures (t.dev.quantum, t.dev.qset) == LatestTune(run, quantum, qset)
    ensures t.dev.size == 0 && t.dev.items == 0 && t.dev.blocks == map[]
  {
    RunAgrees(quantum, qset, run, n);
    TuneIsKept(NotedInit(quantum, qset), run);
  }

  /** In every reachable state the list is long enough for the size, so a read below the size finds its item. */
  lemma ReadsNeverGrow(quantum: nat, qset: nat, run: seq<Action>, s: Sys, p: nat)
    requires quantum > 0 && qset > 0 && Exec(Step, Init(quantum, qset), run) == Some(s)
    ensures s.dev.Valid() && s.dev.size <= s.dev.items * ItemSize(s.dev.quantum, s.dev.qset)
    ensures p < s.dev.size ==> s.dev.Where(p).slot.item < s.dev.items
  {
    var inv := (x: Sys) => x.dev.Valid() && x.quantum > 0 && x.qset > 0;
    forall x, a | inv(x) && Step(x, a).Some? ensures inv(Step(x, a).value) {
      match a
      case WriteSome(fd, data, junk) => WriteKeepsValid(x.dev, x.files[fd], data, junk);
      case WriteRefused(fd, items) => RefusedKeepsValid(x.dev, x.files[fd], x.dev.(items := items));
      case _ =>
    }
    InvariantOverRun(Step, inv, Init(quantum, qset), run);
    if p < s.dev.size {
      ItemInRange(s.dev.quantum, s.dev.qset, p, s.dev.items);
    }
  }

  /** Retuning reaches the layout of a device only at a trim: without one, quantum and qset of the device stay,
      however often the tunables change. */
  lemma {:induction false} RetuneWaitsForTrim(s: Sys, run: seq<Action>)
    requires Exec(Step, s, run).Some?
    requires forall i :: 0 <= i < |run| ==> !(run[i].Open? && run[i].writeOnly)
    ensures Exec(Step, s, run).value.dev.quantum == s.dev.quantum
    ensures Exec(Step, s, run).value.dev.qset == s.dev.qset
    decreases |run|
  {
    if run != [] {
      assert forall i :: 0 <= i < |run[1..]| ==> run[1..][i] == run[i + 1];
      RetuneWaitsForTrim(Step(s, run[0]).value, run[1..]);
    }
  }
}
