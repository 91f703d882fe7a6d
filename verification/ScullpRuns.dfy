/** A scullp device over whole runs of opens, reads, writes, retuning and memory mappings by any number of
    processes: which page is where, and what a mapping shows.

    scullp_mmap is two steps, because its test of the order is not under the device semaphore.  The bytes are
    modelled while the order is 0. */
module ScullpRuns {
  import opened Basics
  import opened Runs
  import opened Addressing
  import opened ScullSpec
  import opened ScullpDevice
  import ScullRuns

  type PageId = nat
  type MapId = nat

  /** The pages of the device by slot, and what each page holds; `next` is an id not used yet. */
  datatype Pages = Pages(at: map<Slot, PageId>, holds: map<PageId, seq<byte>>, next: PageId) {
    predicate Ok(page: nat, qset: nat, items: nat) {
      && (forall k :: k in at ==> k.item < items && k.pos < qset && at[k] in holds && at[k] < next)
      && (forall k, k' :: k in at && k' in at && at[k] == at[k'] ==> k == k')
      && (forall i :: i in holds ==> |holds[i]| == page)
    }

    function Blocks(): map<Slot, seq<byte>> {
      map k | k in at :: if at[k] in holds then holds[at[k]] else []
    }
  }

  /** struct scullp_dev. */
  datatype Dev = Dev(order: nat, qset: nat, size: nat, items: nat, vmas: int, pages: Pages)

  /** scullp_order and scullp_qset. */
  datatype Globals = Globals(order: nat, qset: nat)

  /** A mapping that starts at page `off` of the device (vm_pgoff), with the page table entries that nopage has filled
      in, by page number of the mapping. */
  datatype Mapping = Mapping(off: nat, table: map<nat, PageId>)

  /** What the latest call returned, or what became of the latest access to mapped memory. */
  datatype Reply = Done | Bytes(got: seq<byte>) | Count(n: nat) | NoMemory | NoDevice | BusError | Loaded(b: byte)

  /** `pending` are the calls of scullp_mmap past the test of the order. */
  datatype Sys = Sys(page: nat, dev: Dev, globals: Globals, maps: map<MapId, Mapping>, pending: map<MapId, nat>,
                     reply: Reply)

  datatype Action =
    | OpenToWrite                              // an open with O_WRONLY
    | ReadAt(p: nat, count: nat)
    | WriteAt(p: nat, data: seq<byte>)         // memory is granted
    | WriteRefused(p: nat, items: nat)
    | UseLarge(size: nat, items: nat)          // a read or a write at an order that is not 0
    | Tune(order: nat, qset: nat)
    | MmapCheck(m: MapId, off: nat) | MmapCommit(m: MapId)
    | Fork(m: MapId, child: MapId) | Unmap(m: MapId)
    | Fault(m: MapId, k: nat)                  // a process touches byte k of its mapping
    | LoadThrough(m: MapId, k: nat)
    | StoreThrough(m: MapId, k: nat, b: byte)

  function Init(page: nat, order: nat, qset: nat): Sys {
    Sys(page, Fresh(order, qset, 0, 0), Globals(order, qset), map[], map[], Done)
  }

  /** A device of one empty list item. */
  function Fresh(order: nat, qset: nat, vmas: int, next: PageId): Dev {
    Dev(order, qset, 0, 1, vmas, Pages(map[], map[], next))
  }

  /** What read and write see of a device at order 0. */
  function View(page: nat, d: Dev): Store {
    Store(page, d.qset, d.size, d.items, d.pages.Blocks())
  }

  // ---------- the calls ----------

  /** scullp_trim. */
  function Trim(d: Dev, g: Globals): Dev {
    if d.vmas != 0 then d else Fresh(g.order, g.qset, d.vmas, d.pages.next)
  }

  /** scullp_read changes nothing but the length of the list, at the size of a full list. */
  function AfterRead(page: nat, d: Dev, p: nat): Dev
    requires page > 0 && d.qset > 0
  {
    if p == d.size == d.items * ItemSize(page, d.qset) then d.(items := d.items + 1) else d
  }

  function Put(pages: Pages, page: nat, k: Slot, at: nat, data: seq<byte>): Pages
    requires at + |data| <= page
    requires forall i :: i in pages.holds ==> |pages.holds[i]| == page
  {
    if k in pages.at && pages.at[k] in pages.holds then
      pages.(holds := pages.holds[pages.at[k] := Patched(pages.holds[pages.at[k]], at, data)])
    else
      Pages(pages.at[k := pages.next], pages.holds[pages.next := Patched(Zeros(page), at, data)], pages.next + 1)
  }

  /** scullp_write. */
  function AfterWrite(page: nat, d: Dev, p: nat, data: seq<byte>): Dev
    requires View(page, d).Valid() && d.pages.Ok(page, d.qset, d.items)
  {
    LocateRebuilds(page, d.qset, p);
    var w, n := Locate(page, d.qset, p), Accepted(View(page, d), p, |data|);
    d.(size := if d.size < p + n then p + n else d.size,
    items := if d.items < w.slot.item + 1 then w.slot.item + 1 else d.items,
    pages := Put(d.pages, page, w.slot, w.offset, data[..n]))
  }

  /** scullp_vma_nopage for byte `k` of a mapping that starts at page `off`: the page, or None for SIGBUS. */
  function Nopage(page: nat, d: Dev, off: nat, k: nat): Option<PageId>
    requires page > 0 && d.qset > 0
  {
    if MappedPos(page, off, k) >= d.size then None
    else
      var slot := PageSlot(page, d.qset, MappedPos(page, off, k));
      if slot in d.pages.at then Some(d.pages.at[slot]) else None
  }

  predicate DevOk(page: nat, d: Dev) {
    && page > 0 && d.qset > 0 && d.items > 0
    && (if d.order == 0 then View(page, d).Valid() && d.pages.Ok(page, d.qset, d.items)
        else d.pages.at == map[] && d.pages.holds == map[])
  }

  function MapStep(s: Sys, a: Action): Option<Sys>
    requires DevOk(s.page, s.dev)
  {
    match a
    case MmapCheck(m, off) =>
      if m in s.maps || m in s.pending then None
      else if s.dev.order != 0 then Some(s.(reply := NoDevice))
      else Some(s.(pending := s.pending[m := off], reply := Done))
    case MmapCommit(m) =>
      if m !in s.pending || m in s.maps then None
      else Some(s.(pending := s.pending - {m}, maps := s.maps[m := Mapping(s.pending[m], map[])],
                dev := s.dev.(vmas := s.dev.vmas + 1), reply := Done))
    case Fork(m, child) =>
      if m !in s.maps || child in s.maps || child in s.pending then None
      else Some(s.(maps := s.maps[child := s.maps[m]], dev := s.dev.(vmas := s.dev.vmas + 1), reply := Done))
    case Unmap(m) =>
      if m !in s.maps then None
      else Some(s.(maps := s.maps - {m}, dev := s.dev.(vmas := s.dev.vmas - 1), reply := Done))
    case Fault(m, k) => if m !in s.maps || s.dev.order != 0 then None else Some(FaultIn(s, m, k))
    case LoadThrough(m, k) =>
      if !Reachable(s, m, k) then None
      else Some(s.(reply := Loaded(s.dev.pages.holds[s.maps[m].table[k / s.page]][k % s.page])))
    case StoreThrough(m, k, b) =>
      if !Reachable(s, m, k) then None
      else Some(s.(dev := s.dev.(pages := Poked(s.dev.pages, s.maps[m].table[k / s.page], k % s.page, b)), reply :=
          Done))
    case _ => None
  }

  /** A fault: the page nopage finds is entered in the table, or the process gets SIGBUS. */
  function FaultIn(s: Sys, m: MapId, k: nat): Sys
    requires DevOk(s.page, s.dev) && m in s.maps
  {
    var v := s.maps[m];
    match Nopage(s.page, s.dev, v.off, k)
    case None => s.(reply := BusError)
    case Some(i) => s.(maps := s.maps[m := Mapping(v.off, v.table[k / s.page := i])], reply := Done)
  }

  /** Byte `k` of the mapping can be loaded and stored without a fault. */
  predicate Reachable(s: Sys, m: MapId, k: nat)
    requires s.page > 0
  {
    && m in s.maps && k / s.page in s.maps[m].table && s.maps[m].table[k / s.page] in s.dev.pages.holds
    && |s.dev.pages.holds[s.maps[m].table[k / s.page]]| == s.page
  }

  function Poked(pages: Pages, i: PageId, at: nat, b: byte): Pages
    requires i in pages.holds && at < |pages.holds[i]|
  {
    pages.(holds := pages.holds[i := pages.holds[i][at := b]])
  }

  function DevStep(s: Sys, a: Action): Option<Sys>
    requires DevOk(s.page, s.dev)
  {
    match a
    case OpenToWrite => Some(s.(dev := Trim(s.dev, s.globals), reply := Done))
    case ReadAt(p, count) =>
      if s.dev.order != 0 then None
      else
        Some(s.(dev := AfterRead(s.page, s.dev, p), reply := Bytes(ScullSpec.Read(View(s.page, s.dev), p, count))))
    case WriteAt(p, data) =>
      if s.dev.order != 0 then None
      else
        Some(s.(dev := AfterWrite(s.page, s.dev, p, data), reply := Count(Accepted(View(s.page, s.dev), p, |data|))))
    case WriteRefused(p, items) =>
      if s.dev.order == 0 && Refused(View(s.page, s.dev), p, View(s.page, s.dev.(items := items))) then
        Some(s.(dev := s.dev.(items := items), reply := NoMemory))
      else None
    case UseLarge(size, items) =>
      if s.dev.order == 0 || size < s.dev.size || items < s.dev.items then None
      else Some(s.(dev := s.dev.(size := size, items := items), reply := Done))
    case Tune(order, qset) => if qset > 0 then Some(s.(globals := Globals(order, qset), reply := Done)) else None
    case _ => None
  }

  predicate IsMapAction(a: Action) {
    a.MmapCheck? || a.MmapCommit? || a.Fork? || a.Unmap? || a.Fault? || a.LoadThrough? || a.StoreThrough?
  }

  function Step(s: Sys, a: Action): Option<Sys> {
    if !DevOk(s.page, s.dev) then None else if IsMapAction(a) then MapStep(s, a) else DevStep(s, a)
  }

  // ---------- a write to pages is a write to the store ----------

  lemma PutKeepsOk(pages: Pages, page: nat, qset: nat, items: nat, k: Slot, at: nat, data: seq<byte>)
    requires pages.Ok(page, qset, items) && at + |data| <= page && k.pos < qset
    ensures Put(pages, page, k, at, data).Ok(page, qset, Max(items, k.item + 1))
  {
    hide Patched, Zeros;
  }

  lemma PutIsPatch(pages: Pages, page: nat, qset: nat, items: nat, k: Slot, at: nat, data: seq<byte>)
    requires pages.Ok(page, qset, items) && at + |data| <= page
    ensures var was := if k in pages.at then pages.holds[pages.at[k]] else Zeros(page);
            |was| == page && Put(pages, page, k, at, data).Blocks() == pages.Blocks()[k := Patched(was, at, data)]
  {
    hide Patched, Zeros;
    if k in pages.at {
      HeldInPlace(pages, k, Patched(pages.holds[pages.at[k]], at, data));
    } else {
      HeldInNew(pages, k, Patched(Zeros(page), at, data));
    }
  }

  lemma HeldInPlace(pages: Pages, k: Slot, block: seq<byte>)
    requires k in pages.at && forall j :: j in pages.at && j != k ==> pages.at[j] != pages.at[k]
    ensures pages.(holds := pages.holds[pages.at[k] := block]).Blocks() == pages.Blocks()[k := block]
  {
  }

  lemma HeldInNew(pages: Pages, k: Slot, block: seq<byte>)
    requires k !in pages.at && forall j :: j in pages.at ==> pages.at[j] < pages.next
    ensures Pages(pages.at[k := pages.next], pages.holds[pages.next := block], pages.next + 1).Blocks() ==
            pages.Blocks()[k := block]
  {
  }

  lemma WriteRefines(page: nat, d: Dev, p: nat, data: seq<byte>)
    requires View(page, d).Valid() && d.pages.Ok(page, d.qset, d.items)
    ensures var t := AfterWrite(page, d, p, data);
            && View(page, t) == ScullSpec.Write(View(page, d), p, data, Zeros(page))
            && View(page, t).Valid() && t.pages.Ok(page, t.qset, t.items)
  {
    LocateRebuilds(page, d.qset, p);
    var w, n := Locate(page, d.qset, p), Accepted(View(page, d), p, |data|);
    PutIsPatch(d.pages, page, d.qset, d.items, w.slot, w.offset, data[..n]);
    PutKeepsOk(d.pages, page, d.qset, d.items, w.slot, w.offset, data[..n]);
    WriteKeepsValid(View(page, d), p, data, Zeros(page));
  }

  /** A store through a page table entry that is right is a scullp_write of the byte, except that it never moves the
      size. */
  lemma StoreRefines(page: nat, d: Dev, off: nat, k: nat, b: byte, i: PageId)
    requires View(page, d).Valid() && d.pages.Ok(page, d.qset, d.items)
    requires var slot := WalkSlot(d.qset, off + k / page); slot in d.pages.at && d.pages.at[slot] == i
    ensures i in d.pages.holds && |d.pages.holds[i]| == page && k % page < page
    ensures var t := d.(pages := Poked(d.pages, i, k % page, b));
            && View(page, t) == ScullSpec.Write(View(page, d), off * page + k, [b], Zeros(page)).(size := d.size)
            && t.pages.Ok(page, t.qset, t.items)
  {
    var p := MappedPos(page, off, k);
    PageInMapping(page, off, k);
    DivInTwoSteps(page, d.qset, p);
    LocateRebuilds(page, d.qset, p);
    LocateIsLinear(page, d.qset, p);
    var w := Locate(page, d.qset, p);
    assert w.slot == WalkSlot(d.qset, off + k / page) && w.offset == k % page;
    hide Locate, WalkSlot, ItemSize;
    PutIsPatch(d.pages, page, d.qset, d.items, w.slot, w.offset, [b]);
    PutKeepsOk(d.pages, page, d.qset, d.items, w.slot, w.offset, [b]);
    assert [b][..1] == [b];
    OneByte(d.pages.holds[i], w.offset, b);
    hide Patched;
  }

  lemma OneByte(block: seq<byte>, at: nat, b: byte)
    requires at < |block|
    ensures Patched(block, at, [b]) == block[at := b]
  {
  }

  // ---------- what every step keeps ----------

  lemma DevStepKeepsDevOk(s: Sys, a: Action)
    requires DevOk(s.page, s.dev) && s.globals.qset > 0 && DevStep(s, a).Some?
    ensures var t := DevStep(s, a).value; t.page == s.page && DevOk(t.page, t.dev)
  {
    match a
    case WriteAt(p, data) => WriteRefines(s.page, s.dev, p, data);
    case ReadAt(p, _) => GrowingKeepsValid(View(s.page, s.dev));
    case WriteRefused(p, items) => RefusedKeepsValid(View(s.page, s.dev), p, View(s.page, s.dev.(items := items)));
    case _ =>
  }

  lemma GrowingKeepsValid(st: Store)
    requires st.Valid()
    ensures st.(items := st.items + 1).Valid()
  {
    MulLe(st.items, st.items + 1, ItemSize(st.quantum, st.qset));
  }

  /** Every page table entry leads to the page that is in the slot now. */
  predicate Pinned(d: Dev, maps: map<MapId, Mapping>)
    requires d.qset > 0
  {
    forall m, j :: m in maps && j in maps[m].table ==> PinnedAt(d, maps[m].off + j, maps[m].table[j])
  }

  predicate PinnedAt(d: Dev, n: nat, i: PageId)
    requires d.qset > 0
  {
    WalkSlot(d.qset, n) in d.pages.at && d.pages.at[WalkSlot(d.qset, n)] == i
  }

  predicate OrderOk(s: Sys) {
    s.maps != map[] || s.pending != map[] ==> s.dev.order == 0
  }

  predicate Inv(s: Sys) {
    DevOk(s.page, s.dev) && s.globals.qset > 0 && s.dev.vmas == |s.maps| && Pinned(s.dev, s.maps) && OrderOk(s)
  }

  lemma MapStepKeepsDevOk(s: Sys, a: Action)
    requires DevOk(s.page, s.dev) && Pinned(s.dev, s.maps) && OrderOk(s) && MapStep(s, a).Some?
    ensures var t := MapStep(s, a).value; t.page == s.page && DevOk(t.page, t.dev)
  {
    if a.StoreThrough? {
      var v := s.maps[a.m];
      assert PinnedAt(s.dev, v.off + a.k / s.page, v.table[a.k / s.page]);
      StoreRefines(s.page, s.dev, v.off, a.k, a.b, v.table[a.k / s.page]);
    }
  }

  /** The pages that were there are still there. */
  predicate PagesStay(d: Dev, e: Dev) {
    && e.order == d.order && e.qset == d.qset && e.size >= d.size && e.items >= d.items
    && (forall k :: k in d.pages.at ==> k in e.pages.at && e.pages.at[k] == d.pages.at[k])
  }

  lemma StepKeepsPages(s: Sys, a: Action)
    requires DevOk(s.page, s.dev) && Step(s, a).Some? && (a.OpenToWrite? ==> s.dev.vmas != 0)
    ensures PagesStay(s.dev, Step(s, a).value.dev)
  {
  }

  lemma StepKeepsCount(s: Sys, a: Action)
    requires s.dev.vmas == |s.maps| && Step(s, a).Some?
    ensures Step(s, a).value.dev.vmas == |Step(s, a).value.maps|
  {
    if a.Unmap? {
      assert (s.maps - {a.m}).Keys == s.maps.Keys - {a.m};
    }
  }

  /** The tables after a step other than a fault hold what some table held before. */
  lemma TablesAfter(s: Sys, a: Action, m: MapId)
    requires DevOk(s.page, s.dev) && Step(s, a).Some? && !a.Fault? && m in Step(s, a).value.maps
    ensures var v := Step(s, a).value.maps[m];
            v.table == map[] || (m in s.maps && v == s.maps[m]) || (a.Fork? && a.m in s.maps && v == s.maps[a.m])
  {
  }

  lemma FoundIsPinned(page: nat, d: Dev, off: nat, k: nat, i: PageId)
    requires page > 0 && d.qset > 0 && Nopage(page, d, off, k) == Some(i)
    ensures PinnedAt(d, off + k / page, i)
  {
    MappedSlot(page, d.qset, off, k);
  }

  lemma EntryKeepsPinned(d: Dev, maps: map<MapId, Mapping>, m: MapId, j: nat, i: PageId)
    requires d.qset > 0 && Pinned(d, maps) && m in maps && PinnedAt(d, maps[m].off + j, i)
    ensures Pinned(d, maps[m := Mapping(maps[m].off, maps[m].table[j := i])])
  {
    hide PinnedAt;
  }

  lemma FaultKeepsPinned(s: Sys, m: MapId, k: nat)
    requires DevOk(s.page, s.dev) && Pinned(s.dev, s.maps) && m in s.maps
    ensures var t := FaultIn(s, m, k); t.dev == s.dev && Pinned(t.dev, t.maps)
  {
    assert s.page > 0 && s.dev.qset > 0;
    var v, found := s.maps[m], Nopage(s.page, s.dev, s.maps[m].off, k);
    if found.Some? {
      hide DevOk, Pinned, PinnedAt, Nopage, FaultIn;
      FoundIsEntered(s, m, k, found.value);
      FoundIsPinned(s.page, s.dev, v.off, k, found.value);
      EntryKeepsPinned(s.dev, s.maps, m, k / s.page, found.value);
    }
  }

  lemma FoundIsEntered(s: Sys, m: MapId, k: nat, i: PageId)
    requires DevOk(s.page, s.dev) && m in s.maps && Nopage(s.page, s.dev, s.maps[m].off, k) == Some(i)
    ensures var v, t := s.maps[m], FaultIn(s, m, k);
            t.dev == s.dev && t.maps == s.maps[m := Mapping(v.off, v.table[k / s.page := i])]
  {
    assert s.page > 0;
    hide DevOk, Nopage;
  }

  /** A mapping that was there before, or one without entries. */
  predicate Known(s: Sys, v: Mapping) {
    v.table == map[] || exists m :: m in s.maps && v == s.maps[m]
  }

  lemma KnownStayPinned(s: Sys, t: Sys)
    requires s.dev.qset > 0 && Pinned(s.dev, s.maps) && PagesStay(s.dev, t.dev)
    requires forall m :: m in t.maps ==> Known(s, t.maps[m])
    ensures Pinned(t.dev, t.maps)
  {
    hide WalkSlot;
    forall m, j | m in t.maps && j in t.maps[m].table ensures PinnedAt(t.dev, t.maps[m].off + j, t.maps[m].table[j]) {
      var was :| was in s.maps && t.maps[m] == s.maps[was];
      assert PinnedAt(s.dev, s.maps[was].off + j, s.maps[was].table[j]);
    }
  }

  lemma StepKeepsPinned(s: Sys, a: Action)
    requires Inv(s) && Step(s, a).Some? && Step(s, a).value.dev.qset > 0
    ensures var t := Step(s, a).value; Pinned(t.dev, t.maps)
  {
    hide MapStep, DevStep, Pinned;
    if a.Fault? {
      FaultIsFaultIn(s, a);
      FaultKeepsPinned(s, a.m, a.k);
    } else if a.OpenToWrite? && s.dev.vmas == 0 {
      TrimUnmaps(s);
    } else {
      StepKeepsPages(s, a);
      forall m | m in Step(s, a).value.maps ensures Known(s, Step(s, a).value.maps[m]) {
        TablesAfter(s, a, m);
      }
      KnownStayPinned(s, Step(s, a).value);
    }
  }

  lemma FaultIsFaultIn(s: Sys, a: Action)
    requires DevOk(s.page, s.dev) && a.Fault? && Step(s, a).Some?
    ensures a.m in s.maps && Step(s, a).value == FaultIn(s, a.m, a.k)
  {
    hide FaultIn;
  }

  lemma TrimUnmaps(s: Sys)
    requires DevOk(s.page, s.dev) && s.dev.vmas == 0 == |s.maps| && Step(s, OpenToWrite).value.dev.qset > 0
    ensures var t := Step(s, OpenToWrite).value; t.maps == map[] && Pinned(t.dev, t.maps)
  {
  }

  /** A trim that takes up another order between the two steps of an mmap. */
  predicate Careless(s: Sys, a: Action) {
    a.OpenToWrite? && s.dev.vmas == 0 && s.pending != map[] && s.globals.order != 0
  }

  /** Every step keeps everything but possibly the order, and that it keeps exactly when it is not careless. */
  lemma StepKeepsInvIff(s: Sys, a: Action)
    requires Inv(s) && Step(s, a).Some?
    ensures Inv(Step(s, a).value) <==> !Careless(s, a)
    ensures DevOk(Step(s, a).value.page, Step(s, a).value.dev)
  {
    if IsMapAction(a) {
      MapStepKeepsDevOk(s, a);
    } else {
      DevStepKeepsDevOk(s, a);
    }
    StepKeepsCount(s, a);
    StepKeepsPinned(s, a);
    StepKeepsOrderIff(s, a);
    hide DevOk, Pinned;
    assert s.globals.qset > 0 ==> Step(s, a).value.globals.qset > 0;
  }

  lemma StepKeepsOrderIff(s: Sys, a: Action)
    requires OrderOk(s) && s.dev.vmas == |s.maps| && Step(s, a).Some?
    ensures OrderOk(Step(s, a).value) <==> !Careless(s, a)
  {
    assert s.maps != map[] ==> |s.maps| > 0;
  }

  /** The machine of runs in which every trim is careful. */
  function CarefulStep(s: Sys, a: Action): Option<Sys> {
    if Careless(s, a) then None else Step(s, a)
  }

  lemma CarefulRunKeepsInv(page: nat, order: nat, qset: nat, run: seq<Action>)
    requires page > 0 && qset > 0 && Exec(CarefulStep, Init(page, order, qset), run).Some?
    ensures Inv(Exec(CarefulStep, Init(page, order, qset), run).value)
  {
    forall s, a | Inv(s) && CarefulStep(s, a).Some? ensures Inv(CarefulStep(s, a).value) {
      StepKeepsInvIff(s, a);
    }
    InvariantOverRun(CarefulStep, Inv, Init(page, order, qset), run);
  }

  // ---------- main results ----------

  lemma SlotOfPage(page: nat, qset: nat, n: nat, i: nat)
    requires qset > 0 && i < page
    ensures n * page + i >= 0 && Locate(page, qset, n * page + i).slot == WalkSlot(qset, n)
  {
    DivInTwoSteps(page, qset, n * page + i);
    DivModUnique(n * page + i, page, n, i);
    hide Locate, WalkSlot;
  }

  /** Over every careful run, a mapped device has order 0, its counter counts the mappings, and the entry of page j of a
      mapping is the page that read and write use for every position of page `off` + j of the device. */
  lemma MappedPagesArePinned(
      page: nat, order: nat, qset: nat, run: seq<Action>, s: Sys, m: MapId, j: nat, i: nat)
    requires page > 0 && qset > 0 && Exec(CarefulStep, Init(page, order, qset), run) == Some(s)
    ensures s.dev.vmas == |s.maps| && (s.dev.vmas > 0 ==> s.dev.order == 0)
    ensures s.page == page && s.dev.qset > 0
    ensures m in s.maps && j in s.maps[m].table && i < page ==>
              var p := (s.maps[m].off + j) * page + i;
              && p >= 0 && var slot := Locate(page, s.dev.qset, p).slot;
                 slot in s.dev.pages.at && s.dev.pages.at[slot] == s.maps[m].table[j]
  {
    CarefulRunKeepsInv(page, order, qset, run);
    assert s.dev.qset > 0;
    hide Locate, WalkSlot, DevOk;
    PageIsFixed(Init(page, order, qset), run);
    if m in s.maps && j in s.maps[m].table && i < page {
      assert PinnedAt(s.dev, s.maps[m].off + j, s.maps[m].table[j]);
      SlotOfPage(page, s.dev.qset, s.maps[m].off + j, i);
    }
  }

  lemma {:induction false} PageIsFixed(s: Sys, run: seq<Action>)
    requires Exec(CarefulStep, s, run).Some?
    ensures Exec(CarefulStep, s, run).value.page == s.page
    decreases |run|
  {
    if run != [] {
      PageIsFixed(CarefulStep(s, run[0]).value, run[1..]);
    }
  }

  /** The device is mapped in every state of the run. */
  predicate MappedThroughout(s: Sys, run: seq<Action>)
    decreases |run|
  {
    && s.dev.vmas > 0
    && (run != [] && Step(s, run[0]).Some? ==> MappedThroughout(Step(s, run[0]).value, run[1..]))
  }

  lemma MappedOn(s: Sys, run: seq<Action>)
    requires MappedThroughout(s, run) && run != [] && Step(s, run[0]).Some?
    ensures s.dev.vmas > 0 && MappedThroughout(Step(s, run[0]).value, run[1..])
  {
  }

  lemma {:induction false} PagesStayWhileMapped(s: Sys, run: seq<Action>)
    requires Inv(s) && Exec(Step, s, run).Some? && MappedThroughout(s, run)
    ensures var t := Exec(Step, s, run).value; Inv(t) && t.page == s.page && PagesStay(s.dev, t.dev)
    decreases |run|
  {
    if run != [] {
      MappedOn(s, run);
      MappedStepKeeps(s, run[0]);
      hide Inv, Step, PagesStay, MappedThroughout;
      var u, t := Step(s, run[0]).value, Exec(Step, s, run).value;
      PagesStayWhileMapped(u, run[1..]);
      StaysOn(s.dev, u.dev, t.dev);
    } else {
      assert PagesStay(s.dev, s.dev);
    }
  }

  lemma MappedStepKeeps(s: Sys, a: Action)
    requires Inv(s) && s.dev.vmas > 0 && Step(s, a).Some?
    ensures var t := Step(s, a).value; Inv(t) && t.page == s.page && PagesStay(s.dev, t.dev)
  {
    StepKeepsInvIff(s, a);
    StepKeepsPages(s, a);
    hide Inv, PagesStay;
  }

  lemma StaysOn(d: Dev, e: Dev, f: Dev)
    ensures PagesStay(d, e) && PagesStay(e, f) ==> PagesStay(d, f)
  {
  }

  /** While mappings exist nothing is freed, whoever opens the device for writing and whatever the tunables: every
      page stays in its slot, so nopage goes on finding it, and read and write go on using it. */
  lemma NothingFreedWhileMapped(s: Sys, run: seq<Action>, off: nat, k: nat)
    requires Inv(s) && Exec(Step, s, run).Some? && MappedThroughout(s, run)
    ensures var t := Exec(Step, s, run).value;
            && Inv(t) && t.page == s.page && PagesStay(s.dev, t.dev)
            && (Nopage(s.page, s.dev, off, k).Some? ==> Nopage(t.page, t.dev, off, k) == Nopage(s.page, s.dev, off, k))
  {
    PagesStayWhileMapped(s, run);
  }

  /** The condition is needed: an ioctl and a write-only open between the two halves of an mmap leave a mapping on a
      device whose order is not 0. */
  lemma RaceReachesMappedOrder(page: nat, qset: nat) returns (s: Sys)
    requires page > 0 && qset > 0
    ensures Leads(Step, Init(page, 0, qset), s) && s.dev.vmas > 0 && s.dev.order != 0
  {
    var init := Init(page, 0, qset);
    LeadsToItself(Step, init);
    LeadsOn(Step, init, init, MmapCheck(0, 0));
    s := Step(init, MmapCheck(0, 0)).value;
    LeadsOn(Step, init, s, Tune(1, qset));
    s := Step(s, Tune(1, qset)).value;
    LeadsOn(Step, init, s, OpenToWrite);
    s := Step(s, OpenToWrite).value;
    LeadsOn(Step, init, s, MmapCommit(0));
    s := Step(s, MmapCommit(0)).value;
  }

  /** And it is exact: each careless step opens the way, in one more step, to a mapping at an order that is not 0. */
  lemma CarelessBreaksNextCommit(s: Sys, a: Action) returns (m: MapId)
    requires Inv(s) && Step(s, a).Some? && Careless(s, a)
    ensures var t := Step(s, a).value;
            Step(t, MmapCommit(m)).Some? && var u := Step(t, MmapCommit(m)).value; u.dev.vmas > 0 && u.dev.order != 0
  {
    m :| m in s.pending;
    StepKeepsInvIff(s, a);
    assert s.maps == map[];
  }

  // ---------- a read that grows the list ----------

  /** The last page of the first list item, written whole, fills the list. */
  lemma LastPage(page: nat, qset: nat)
    requires page > 0 && qset > 0
    ensures Locate(page, qset, (qset - 1) * page) == Place(Slot(0, qset - 1), 0)
    ensures 0 <= (qset - 1) * page == ItemSize(page, qset) - page
  {
    MulLe(0, qset - 1, page);
    LocateInverse(page, qset, Slot(0, qset - 1), 0);
  }

  lemma WriteFills(page: nat, qset: nat) returns (p: nat)
    requires page > 0 && qset > 0
    ensures DevOk(page, Fresh(0, qset, 0, 0))
    ensures var t := AfterWrite(page, Fresh(0, qset, 0, 0), p, Zeros(page));
            && t.order == 0 && t.qset == qset && View(page, t).Valid()
            && Grows(View(page, t), t.size)
  {
    LastPage(page, qset);
    var d := Fresh(0, qset, 0, 0);
    p := (qset - 1) * page;
    WriteRefines(page, d, p, Zeros(page));
    WriteKeepsValid(View(page, d), p, Zeros(page), Zeros(page));
    hide Put, Patched;
  }

  lemma GrowStep(s: Sys, count: nat)
    requires DevOk(s.page, s.dev) && s.dev.order == 0 && Grows(View(s.page, s.dev), s.dev.size)
    ensures View(s.page, s.dev).Valid()
    ensures ScullSpec.Read(View(s.page, s.dev), s.dev.size, count) == []
    ensures Step(s, ReadAt(s.dev.size, count)) == Some(s.(dev := s.dev.(items := s.dev.items + 1), reply := Bytes([])))
  {
  }

  /** For every page size and set size, a device can be written full so that a read at its size, which returns
      nothing, adds a list item. */
  lemma ReadAtSizeGrows(page: nat, qset: nat, count: nat) returns (s: Sys)
    requires page > 0 && qset > 0
    ensures Leads(Step, Init(page, 0, qset), s) && s.dev.order == 0 && View(s.page, s.dev).Valid()
    ensures ScullSpec.Read(View(s.page, s.dev), s.dev.size, count) == []
    ensures Step(s, ReadAt(s.dev.size, count)) == Some(s.(dev := s.dev.(items := s.dev.items + 1), reply := Bytes([])))
  {
    var init := Init(page, 0, qset);
    var p := WriteFills(page, qset);
    var a := WriteAt(p, Zeros(page));
    LeadsToItself(Step, init);
    WriteIs(init, p, Zeros(page));
    hide AfterWrite, Zeros, View, Grows, Fresh, Step;
    LeadsOn(Step, init, init, a);
    s := Step(init, a).value;
    GrowStep(s, count);
  }

  lemma WriteIs(s: Sys, p: nat, data: seq<byte>)
    requires DevOk(s.page, s.dev) && s.dev.order == 0
    ensures View(s.page, s.dev).Valid() && s.dev.pages.Ok(s.page, s.dev.qset, s.dev.items)
    ensures Step(s, WriteAt(p, data)) ==
            Some(s.(dev := AfterWrite(s.page, s.dev, p, data),
                    reply := Count(Accepted(View(s.page, s.dev), p, |data|))))
    ensures DevOk(s.page, AfterWrite(s.page, s.dev, p, data))
  {
    WriteRefines(s.page, s.dev, p, data);
  }

  // ---------- a reference that knows nothing of pages in memory, and of the machine only the actions ----------

  /** Since the last trim: the latest byte put at each position by a write or through a mapping, the pages written to
      by writes, the end of the data, and the order and the qset in force; the tunables that wait for the next trim; and
      the mappings, complete and under way, by the page they start at. */
  datatype Ref = Ref(bytes: map<nat, byte>, touched: set<nat>, size: nat, order: nat, qset: nat,
                     nextOrder: nat, nextQset: nat, maps: map<MapId, nat>, pending: map<MapId, nat>)

  /** How many bytes a read returns: as many as asked for, cut at the size and at the end of the page, and none past
      the size or in a page not written to. */
  function ReadLength(r: Ref, page: nat, p: nat, count: nat): nat
    requires page > 0
  {
    if p >= r.size || p / page !in r.touched then 0 else Min(Min(count, r.size - p), page - p % page)
  }

  /** How many bytes a write accepts: up to the end of the page. */
  function WriteLength(page: nat, p: nat, count: nat): nat
    requires page > 0
  {
    Min(count, page - p % page)
  }

  /** The byte at `x` of a page written to: the latest one put there, or 0. */
  function Latest(r: Ref, x: nat): byte {
    if x in r.bytes then r.bytes[x] else 0
  }

  predicate AllLatest(r: Ref, p: nat, got: seq<byte>) {
    forall i :: 0 <= i < |got| ==> got[i] == Latest(r, p + i)
  }

  /** After a write of `sent` at `p`. */
  function Written(r: Ref, page: nat, p: nat, sent: seq<byte>): Ref
    requires page > 0
  {
    r.(bytes := ScullRuns.Overlay(r.bytes, p, sent), touched := r.touched + {p / page}, size := Max(r.size, p + |sent|))
  }

  /** Kept up to date from the actions and the page size alone. */
  function Note(r: Ref, page: nat, a: Action): Ref
    requires page > 0
  {
    match a
    case OpenToWrite =>
      if r.maps != map[] then r
      else r.(bytes := map[], touched := {}, size := 0, order := r.nextOrder, qset := r.nextQset)
    case WriteAt(p, data) => Written(r, page, p, data[..WriteLength(page, p, |data|)])
    case StoreThrough(m, k, b) =>
      if m !in r.maps then r else r.(bytes := r.bytes[MappedPos(page, r.maps[m], k) := b])
    case Tune(order, qset) => r.(nextOrder := order, nextQset := qset)
    case MmapCheck(m, off) => if r.order != 0 then r else r.(pending := r.pending[m := off])
    case MmapCommit(m) =>
      if m !in r.pending then r else r.(maps := r.maps[m := r.pending[m]], pending := r.pending - {m})
    case Fork(m, child) => if m !in r.maps then r else r.(maps := r.maps[child := r.maps[m]])
    case Unmap(m) => r.(maps := r.maps - {m})
    case _ => r
  }

  /** What a call may return and an access may come to, by the reference. */
  predicate Meets(r: Ref, page: nat, a: Action, reply: Reply)
    requires page > 0
  {
    match a
    case ReadAt(p, count) => reply.Bytes? && |reply.got| == ReadLength(r, page, p, count) && AllLatest(r, p, reply.got)
    case WriteAt(p, data) => reply == Count(WriteLength(page, p, |data|))
    case WriteRefused(_, _) => reply == NoMemory
    case MmapCheck(_, _) => reply == if r.order != 0 then NoDevice else Done
    case Fault(m, k) =>
      && m in r.maps
      && var p := MappedPos(page, r.maps[m], k);
         reply == if p >= r.size || p / page !in r.touched then BusError else Done
    case LoadThrough(m, k) => m in r.maps && reply == Loaded(Latest(r, MappedPos(page, r.maps[m], k)))
    case _ => reply == Done
  }

  datatype Noted = Noted(s: Sys, r: Ref)

  function NotedStep(n: Noted, a: Action): Option<Noted> {
    match CarefulStep(n.s, a)
    case None => None
    case Some(t) => if n.s.page == 0 then None else Some(Noted(t, Note(n.r, n.s.page, a)))
  }

  function NotedInit(page: nat, order: nat, qset: nat): Noted {
    Noted(Init(page, order, qset), Ref(map[], {}, 0, order, qset, order, qset, map[], map[]))
  }

  /** The byte that should be at `x`, if any. */
  function Expected(r: Ref, page: nat, x: nat): Option<byte>
    requires page > 0
  {
    if x / page !in r.touched then None else Some(Latest(r, x))
  }

  /** The device holds what the reference says. */
  ghost predicate SameBytes(st: Store, r: Ref)
    requires st.Valid()
  {
    && st.size == r.size
    && (forall x :: x in r.bytes ==> x / st.quantum in r.touched)
    && forall x: nat :: st.ByteAt(x) == Expected(r, st.quantum, x)
  }

  /** And so do the mappings and the tunables. */
  predicate SameRest(s: Sys, r: Ref) {
    && s.dev.order == r.order && s.dev.qset == r.qset
    && s.globals == Globals(r.nextOrder, r.nextQset)
    && s.pending == r.pending && SameMaps(s.maps, r.maps)
  }

  predicate SameMaps(maps: map<MapId, Mapping>, offs: map<MapId, nat>) {
    maps.Keys == offs.Keys && (forall m :: m in maps ==> maps[m].off == offs[m])
  }

  ghost predicate Agree(n: Noted) {
    Inv(n.s) && SameRest(n.s, n.r) && (n.s.dev.order == 0 ==> SameBytes(View(n.s.page, n.s.dev), n.r))
  }

  // ---------- writes ----------

  lemma AcceptedIs(st: Store, p: nat, count: nat)
    requires st.Valid()
    ensures Accepted(st, p, count) == WriteLength(st.quantum, p, count) <= count
  {
    LocateRebuilds(st.quantum, st.qset, p);
    LocateIsLinear(st.quantum, st.qset, p);
  }

  /** What a write does not cover of a page it allocates is zero. */
  lemma RestIsZero(st: Store, p: nat, data: seq<byte>, x: nat)
    requires st.Valid() && st.ByteAt(x).None? && x / st.quantum == p / st.quantum
    requires !(p <= x < p + Accepted(st, p, |data|))
    ensures var t := ScullSpec.Write(st, p, data, Zeros(st.quantum)); t.Valid() && t.ByteAt(x) == Some(0)
  {
    WriteKeepsValid(st, p, data, Zeros(st.quantum));
    SameSlotIff(st.quantum, st.qset, p, x);
    SameQuantumOffsets(st, p, x);
    LocateRebuilds(st.quantum, st.qset, p);
    LocateRebuilds(st.quantum, st.qset, x);
  }

  lemma ExpectedAfter(r: Ref, page: nat, p: nat, sent: seq<byte>, x: nat, now: Option<byte>)
    requires page > 0
    requires p <= x < p + |sent| ==> now == Some(sent[x - p]) && (Expected(r, page, x).Some? || x / page == p / page)
    requires !(p <= x < p + |sent|) && Expected(r, page, x).Some? ==> now == Expected(r, page, x)
    requires !(p <= x < p + |sent|) && Expected(r, page, x).None? ==>
             now == if x / page == p / page then Some(0) else None
    requires x in r.bytes ==> x / page in r.touched
    ensures now == Expected(Written(r, page, p, sent), page, x)
  {
  }

  lemma WriteShows(st: Store, p: nat, data: seq<byte>, r: Ref, x: nat)
    requires st.Valid() && st.ByteAt(x) == Expected(r, st.quantum, x) && (x in r.bytes ==> x / st.quantum in r.touched)
    ensures var t, n := ScullSpec.Write(st, p, data, Zeros(st.quantum)), Accepted(st, p, |data|);
            n <= |data| && t.Valid() && t.ByteAt(x) == Expected(Written(r, st.quantum, p, data[..n]), st.quantum, x)
  {
    AcceptedIs(st, p, |data|);
    WriteIsFlat(st, p, data, Zeros(st.quantum), x);
    var sent := data[..Accepted(st, p, |data|)];
    var now := ScullSpec.Write(st, p, data, Zeros(st.quantum)).ByteAt(x);
    if !(p <= x < p + |sent|) && st.ByteAt(x).None? && x / st.quantum == p / st.quantum {
      RestIsZero(st, p, data, x);
    }
    hide Store.ByteAt, ScullSpec.Write, Accepted, Locate, Zeros, Expected, Written;
    ExpectedAfter(r, st.quantum, p, sent, x, now);
  }

  lemma SentIsInSpan(r: Ref, page: nat, p: nat, sent: seq<byte>, x: nat)
    requires page > 0 && x in Written(r, page, p, sent).bytes && x !in r.bytes
    ensures p <= x < p + |sent|
  {
  }

  lemma SentIsTouched(r: Ref, page: nat, p: nat, sent: seq<byte>, x: nat)
    requires page > 0 && |sent| <= page - p % page && (x in r.bytes ==> x / page in r.touched)
    requires x in Written(r, page, p, sent).bytes
    ensures x / page in Written(r, page, p, sent).touched
  {
    hide ScullRuns.Overlay;
    if x !in r.bytes {
      SentIsInSpan(r, page, p, sent, x);
      assert p == (p / page) * page + p % page;
      DivModUnique(x, page, p / page, p % page + (x - p));
    }
  }

  /** A write as the reference has it. */
  lemma WriteShowsAll(st: Store, p: nat, data: seq<byte>, r: Ref)
    requires st.Valid() && SameBytes(st, r)
    ensures var t, n := ScullSpec.Write(st, p, data, Zeros(st.quantum)), WriteLength(st.quantum, p, |data|);
            && Accepted(st, p, |data|) == n <= |data| && t.Valid()
            && SameBytes(t, Written(r, st.quantum, p, data[..n]))
  {
    AcceptedIs(st, p, |data|);
    WriteKeepsValid(st, p, data, Zeros(st.quantum));
    var t, sent := ScullSpec.Write(st, p, data, Zeros(st.quantum)), data[..Accepted(st, p, |data|)];
    var after := Written(r, st.quantum, p, sent);
    assert t.size == after.size && t.quantum == st.quantum;
    hide Store.ByteAt, ScullSpec.Write, Accepted, Zeros, Written, Expected, Store.Valid;
    forall x | x in after.bytes ensures x / st.quantum in after.touched {
      SentIsTouched(r, st.quantum, p, sent, x);
    }
    forall x: nat ensures t.ByteAt(x) == Expected(after, st.quantum, x) {
      WriteShows(st, p, data, r, x);
    }
  }

  /** Writes leave everything else of the reference. */
  lemma WrittenKeepsRest(s: Sys, t: Sys, r: Ref, p: nat, sent: seq<byte>)
    requires s.page > 0 && SameRest(s, r)
    requires t.dev.order == s.dev.order && t.dev.qset == s.dev.qset && t.globals == s.globals
    requires t.pending == s.pending && t.maps == s.maps
    ensures SameRest(t, Written(r, s.page, p, sent))
  {
  }

  lemma WriteAgrees(n: Noted, a: Action)
    requires Agree(n) && a.WriteAt? && NotedStep(n, a).Some?
    ensures Agree(NotedStep(n, a).value) && Meets(n.r, n.s.page, a, NotedStep(n, a).value.s.reply)
  {
    hide NotedStep, SameBytes, SameRest, Written, WriteLength, AfterWrite, Accepted, ScullSpec.Write, Inv;
    AtOrderZero(n, a);
    NoteIs(n, a);
    var s, d, st := n.s, n.s.dev, View(n.s.page, n.s.dev);
    WriteIs(s, a.p, a.data);
    WriteRefines(s.page, d, a.p, a.data);
    WriteShowsAll(st, a.p, a.data, n.r);
    StepKeepsInvIff(s, a);
    WriteKeepsLayout(s.page, d, a.p, a.data);
    WrittenKeepsRest(s, Step(s, a).value, n.r, a.p, a.data[..WriteLength(s.page, a.p, |a.data|)]);
  }

  lemma WriteKeepsLayout(page: nat, d: Dev, p: nat, data: seq<byte>)
    requires View(page, d).Valid() && d.pages.Ok(page, d.qset, d.items)
    ensures var t := AfterWrite(page, d, p, data); t.order == d.order && t.qset == d.qset
  {
  }

  lemma NoteIs(n: Noted, a: Action)
    requires NotedStep(n, a).Some?
    ensures n.s.page > 0 && !Careless(n.s, a) && Step(n.s, a).Some?
    ensures NotedStep(n, a).value == Noted(Step(n.s, a).value, Note(n.r, n.s.page, a))
  {
    hide Step, Note;
  }

  /** A read, a write and an access through a table happen at order 0. */
  lemma AtOrderZero(n: Noted, a: Action)
    requires Agree(n) && NotedStep(n, a).Some?
    requires a.ReadAt? || a.WriteAt? || a.WriteRefused? || a.Fault? || a.LoadThrough? || a.StoreThrough?
    ensures n.s.page > 0 && n.s.dev.qset > 0 && n.s.dev.order == 0
    ensures DevOk(n.s.page, n.s.dev) && View(n.s.page, n.s.dev).Valid() && SameBytes(View(n.s.page, n.s.dev), n.r)
    ensures n.s.dev.pages.Ok(n.s.page, n.s.dev.qset, n.s.dev.items)
  {
    hide SameBytes;
  }

  // ---------- the other calls ----------

  lemma ReadShows(st: Store, p: nat, count: nat, r: Ref)
    requires st.Valid() && SameBytes(st, r)
    ensures var got := ScullSpec.Read(st, p, count);
            |got| == ReadLength(r, st.quantum, p, count) && AllLatest(r, p, got)
  {
    ReadIsFlat(st, p, count);
    hide ScullSpec.Read;
    var got := ScullSpec.Read(st, p, count);
    forall i | 0 <= i < |got| ensures got[i] == Latest(r, p + i) {
      assert st.ByteAt(p + i) == Expected(r, st.quantum, p + i);
    }
  }

  /** A longer list shows nothing else. */
  lemma LongerShows(st: Store, items: nat, r: Ref)
    requires st.Valid() && items >= st.items && SameBytes(st, r)
    ensures st.(items := items).Valid() && SameBytes(st.(items := items), r)
  {
    MulLe(st.items, items, ItemSize(st.quantum, st.qset));
    assert forall x: nat :: st.(items := items).ByteAt(x) == st.ByteAt(x);
  }

  lemma ReadAgrees(n: Noted, a: Action)
    requires Agree(n) && (a.ReadAt? || a.WriteRefused?) && NotedStep(n, a).Some?
    ensures Agree(NotedStep(n, a).value) && Meets(n.r, n.s.page, a, NotedStep(n, a).value.s.reply)
  {
    hide NotedStep, SameBytes, ScullSpec.Read, Inv, ReadLength, AllLatest;
    AtOrderZero(n, a);
    NoteIs(n, a);
    StepKeepsInvIff(n.s, a);
    var st := View(n.s.page, n.s.dev);
    if a.ReadAt? {
      ReadShows(st, a.p, a.count, n.r);
    }
    LongerShows(st, Step(n.s, a).value.dev.items, n.r);
  }

  /** Where a page is in its slot, the byte at a position in it is the latest. */
  lemma PageShows(page: nat, d: Dev, r: Ref, off: nat, k: nat)
    requires View(page, d).Valid() && d.pages.Ok(page, d.qset, d.items) && SameBytes(View(page, d), r)
    ensures var slot, p := WalkSlot(d.qset, off + k / page), MappedPos(page, off, k);
            && (slot in d.pages.at <==> p / page in r.touched)
            && (slot in d.pages.at ==>
                  && d.pages.at[slot] in d.pages.holds && k % page < |d.pages.holds[d.pages.at[slot]]|
                  && d.pages.holds[d.pages.at[slot]][k % page] == Latest(r, p))
  {
    var st, p := View(page, d), MappedPos(page, off, k);
    MappedSlot(page, d.qset, off, k);
    PageInMapping(page, off, k);
    DivInTwoSteps(page, d.qset, p);
    LocateIsLinear(page, d.qset, p);
    assert st.ByteAt(p) == Expected(r, page, p);
    hide WalkSlot, Locate, MappedPos, PageSlot, SameBytes, Store.Valid;
  }

  lemma LoadAgrees(n: Noted, a: Action)
    requires Agree(n) && a.LoadThrough? && NotedStep(n, a).Some?
    ensures Agree(NotedStep(n, a).value) && Meets(n.r, n.s.page, a, NotedStep(n, a).value.s.reply)
  {
    hide NotedStep, SameBytes, DevOk, Latest, WalkSlot;
    AtOrderZero(n, a);
    NoteIs(n, a);
    StepKeepsInvIff(n.s, a);
    var v, j := n.s.maps[a.m], a.k / n.s.page;
    assert PinnedAt(n.s.dev, v.off + j, v.table[j]);
    PageShows(n.s.page, n.s.dev, n.r, v.off, a.k);
  }

  lemma FaultAgrees(n: Noted, a: Action)
    requires Agree(n) && a.Fault? && NotedStep(n, a).Some?
    ensures Agree(NotedStep(n, a).value) && Meets(n.r, n.s.page, a, NotedStep(n, a).value.s.reply)
  {
    hide NotedStep, SameBytes, Inv;
    AtOrderZero(n, a);
    NoteIs(n, a);
    StepKeepsInvIff(n.s, a);
    FaultIsFaultIn(n.s, a);
    var v := n.s.maps[a.m];
    MappedSlot(n.s.page, n.s.dev.qset, v.off, a.k);
    PageShows(n.s.page, n.s.dev, n.r, v.off, a.k);
    SizeIs(View(n.s.page, n.s.dev), n.r);
    hide WalkSlot, MappedPos, PageSlot, DevOk;
  }

  lemma SizeIs(st: Store, r: Ref)
    requires st.Valid() && SameBytes(st, r)
    ensures st.size == r.size
  {
  }

  /** A store through a mapping shows what a write of one byte to a page written to would, but for the size. */
  lemma StoreShows(st: Store, p: nat, b: byte, r: Ref)
    requires st.Valid() && SameBytes(st, r) && p / st.quantum in r.touched
    ensures var t := ScullSpec.Write(st, p, [b], Zeros(st.quantum)).(size := st.size);
            t.Valid() && SameBytes(t, r.(bytes := r.bytes[p := b]))
  {
    WriteShowsAll(st, p, [b], r);
    OneByteWritten(r, st.quantum, p, b);
    WriteKeepsValid(st, p, [b], Zeros(st.quantum));
    var w := ScullSpec.Write(st, p, [b], Zeros(st.quantum));
    assert w.quantum == st.quantum && w.size >= st.size;
    SizeIs(st, r);
    hide ScullSpec.Write, SameBytes, Store.Valid, Zeros, Written, Accepted;
    SizeAlone(w, r.(bytes := r.bytes[p := b], size := Max(r.size, p + 1)), st.size);
  }

  lemma OneByteWritten(r: Ref, page: nat, p: nat, b: byte)
    requires page > 0 && p / page in r.touched
    ensures WriteLength(page, p, 1) == 1 && [b][..1] == [b]
    ensures Written(r, page, p, [b]) == r.(bytes := r.bytes[p := b], size := Max(r.size, p + 1))
  {
    assert ScullRuns.Overlay(r.bytes, p, [b]) == r.bytes[p := b];
    assert r.touched + {p / page} == r.touched;
  }

  lemma SizeAlone(st: Store, r: Ref, size: nat)
    requires st.Valid() && SameBytes(st, r) && size <= st.size
    ensures st.(size := size).Valid() && SameBytes(st.(size := size), r.(size := size))
  {
    assert forall x: nat :: st.(size := size).ByteAt(x) == st.ByteAt(x);
  }

  lemma StoreAgrees(n: Noted, a: Action)
    requires Agree(n) && a.StoreThrough? && NotedStep(n, a).Some?
    ensures Agree(NotedStep(n, a).value) && Meets(n.r, n.s.page, a, NotedStep(n, a).value.s.reply)
  {
    hide NotedStep, SameBytes, DevOk, WalkSlot, ScullSpec.Write, Store.Valid, Pages.Ok;
    AtOrderZero(n, a);
    NoteIs(n, a);
    StepKeepsInvIff(n.s, a);
    var v, j := n.s.maps[a.m], a.k / n.s.page;
    assert PinnedAt(n.s.dev, v.off + j, v.table[j]);
    PageShows(n.s.page, n.s.dev, n.r, v.off, a.k);
    StoreRefines(n.s.page, n.s.dev, v.off, a.k, a.b, v.table[j]);
    StoreShows(View(n.s.page, n.s.dev), MappedPos(n.s.page, v.off, a.k), a.b, n.r);
    SizeIs(View(n.s.page, n.s.dev), n.r);
  }

  /** A device that has just been trimmed holds nothing. */
  lemma FreshShows(page: nat, qset: nat, vmas: int, next: PageId, r: Ref)
    requires page > 0 && qset > 0 && r.bytes == map[] && r.touched == {} && r.size == 0
    ensures View(page, Fresh(0, qset, vmas, next)).Valid() && SameBytes(View(page, Fresh(0, qset, vmas, next)), r)
  {
  }

  lemma OpenAgrees(n: Noted, a: Action)
    requires Agree(n) && a.OpenToWrite? && NotedStep(n, a).Some?
    ensures Agree(NotedStep(n, a).value) && Meets(n.r, n.s.page, a, NotedStep(n, a).value.s.reply)
  {
    hide SameBytes, NotedStep;
    NoteIs(n, a);
    StepKeepsInvIff(n.s, a);
    assert n.s.maps == map[] <==> n.r.maps == map[];
    assert n.s.dev.vmas == 0 <==> n.s.maps == map[];
    hide DevOk, Pinned, OrderOk;
    if n.s.dev.vmas == 0 {
      FreshShows(n.s.page, n.s.globals.qset, 0, n.s.dev.pages.next, Note(n.r, n.s.page, a));
    }
  }

  lemma SameMapsAfter(s: Sys, r: Ref, a: Action)
    requires DevOk(s.page, s.dev) && SameRest(s, r) && Step(s, a).Some?
    requires a.MmapCheck? || a.MmapCommit? || a.Fork? || a.Unmap?
    ensures var t := Step(s, a).value; SameRest(t, Note(r, s.page, a)) && Meets(r, s.page, a, t.reply)
  {
    if a.Unmap? {
      assert (s.maps - {a.m}).Keys == s.maps.Keys - {a.m};
      assert (r.maps - {a.m}).Keys == r.maps.Keys - {a.m};
    }
  }

  lemma SameTunablesAfter(s: Sys, r: Ref, a: Action)
    requires DevOk(s.page, s.dev) && SameRest(s, r) && Step(s, a).Some? && (a.UseLarge? || a.Tune?)
    ensures var t := Step(s, a).value; SameRest(t, Note(r, s.page, a)) && Meets(r, s.page, a, t.reply)
  {
    hide SameMaps;
  }

  lemma OtherKeepsView(n: Noted, a: Action)
    requires DevOk(n.s.page, n.s.dev) && Step(n.s, a).Some?
    requires a.UseLarge? || a.Tune? || a.MmapCheck? || a.MmapCommit? || a.Fork? || a.Unmap?
    ensures var t, r := Step(n.s, a).value, Note(n.r, n.s.page, a);
            && t.page == n.s.page && t.dev.order == n.s.dev.order
            && (t.dev.order == 0 ==> View(t.page, t.dev) == View(n.s.page, n.s.dev))
            && r.bytes == n.r.bytes && r.touched == n.r.touched && r.size == n.r.size
  {
  }

  lemma SameBytesAsBefore(st: Store, r: Ref, t: Ref)
    requires st.Valid() && SameBytes(st, r) && t.bytes == r.bytes && t.touched == r.touched && t.size == r.size
    ensures SameBytes(st, t)
  {
    assert forall x: nat :: Expected(t, st.quantum, x) == Expected(r, st.quantum, x);
  }

  /** The other steps leave the pages alone. */
  lemma OtherAgrees(n: Noted, a: Action)
    requires Agree(n) && NotedStep(n, a).Some?
    requires a.UseLarge? || a.Tune? || a.MmapCheck? || a.MmapCommit? || a.Fork? || a.Unmap?
    ensures Agree(NotedStep(n, a).value) && Meets(n.r, n.s.page, a, NotedStep(n, a).value.s.reply)
  {
    hide SameBytes, NotedStep, Step, Note, Meets, SameRest;
    NoteIs(n, a);
    StepKeepsInvIff(n.s, a);
    OtherKeepsView(n, a);
    if a.UseLarge? || a.Tune? {
      SameTunablesAfter(n.s, n.r, a);
    } else {
      SameMapsAfter(n.s, n.r, a);
    }
    hide Pinned, OrderOk;
    if n.s.dev.order == 0 {
      SameBytesAsBefore(View(n.s.page, n.s.dev), n.r, Note(n.r, n.s.page, a));
    }
  }

  lemma StepAgrees(n: Noted, a: Action)
    requires Agree(n) && NotedStep(n, a).Some?
    ensures n.s.page > 0 && Agree(NotedStep(n, a).value) && Meets(n.r, n.s.page, a, NotedStep(n, a).value.s.reply)
  {
    NoteIs(n, a);
    hide Agree, NotedStep, Meets;
    match a
    case WriteAt(_, _) => WriteAgrees(n, a);
    case ReadAt(_, _) => ReadAgrees(n, a);
    case WriteRefused(_, _) => ReadAgrees(n, a);
    case LoadThrough(_, _) => LoadAgrees(n, a);
    case StoreThrough(_, _, _) => StoreAgrees(n, a);
    case Fault(_, _) => FaultAgrees(n, a);
    case OpenToWrite => OpenAgrees(n, a);
    case _ => OtherAgrees(n, a);
  }

  lemma InitAgrees(page: nat, order: nat, qset: nat)
    requires page > 0 && qset > 0
    ensures Agree(NotedInit(page, order, qset))
  {
    if order == 0 {
      FreshShows(page, qset, 0, 0, NotedInit(page, order, qset).r);
    }
    hide SameBytes;
  }

  lemma RunAgrees(page: nat, order: nat, qset: nat, run: seq<Action>, n: Noted)
    requires page > 0 && qset > 0 && Exec(NotedStep, NotedInit(page, order, qset), run) == Some(n)
    ensures Agree(n)
  {
    InitAgrees(page, order, qset);
    forall x, a | Agree(x) && NotedStep(x, a).Some? ensures Agree(NotedStep(x, a).value) {
      StepAgrees(x, a);
    }
    hide Agree, NotedStep;
    InvariantOverRun(NotedStep, Agree, NotedInit(page, order, qset), run);
  }

  // ---------- what reads and mappings show ----------

  /** After any careful run, every call returns and every access to mapped memory comes to what the reference expects: a
      read returns the latest bytes put from its position on, by whichever way, and zeros in the rest of the pages
      written to; so does a load from byte k of a mapping at the position k bytes from where the mapping starts; and a
      fault ends in SIGBUS exactly past the size and in pages not written to. */
  lemma CallsMeetReference(page: nat, order: nat, qset: nat, run: seq<Action>, n: Noted, a: Action, t: Sys)
    requires page > 0 && qset > 0 && Exec(NotedStep, NotedInit(page, order, qset), run) == Some(n)
    requires CarefulStep(n.s, a) == Some(t)
    ensures n.s.page > 0 && Meets(n.r, n.s.page, a, t.reply)
  {
    RunAgrees(page, order, qset, run, n);
    assert Inv(n.s);
    hide CarefulStep, Agree, Meets, Note;
    StepAgrees(n, a);
  }

  /** A read at any position, in the terms of the reference. */
  lemma ReadReturnsLatest(page: nat, order: nat, qset: nat, run: seq<Action>, n: Noted, p: nat, count: nat)
    requires page > 0 && qset > 0 && Exec(NotedStep, NotedInit(page, order, qset), run) == Some(n)
    requires n.s.dev.order == 0
    ensures n.s.page > 0 && View(n.s.page, n.s.dev).Valid()
    ensures var got := ScullSpec.Read(View(n.s.page, n.s.dev), p, count);
            && |got| == (if p >= n.r.size || p / n.s.page !in n.r.touched then 0
                         else Min(Min(count, n.r.size - p), n.s.page - p % n.s.page))
            && forall i :: 0 <= i < |got| ==> got[i] == if p + i in n.r.bytes then n.r.bytes[p + i] else 0
  {
    RunAgrees(page, order, qset, run, n);
    ReadShows(View(n.s.page, n.s.dev), p, count, n.r);
    hide ScullSpec.Read, Inv, NotedStep, SameBytes;
  }

  lemma EntryShows(page: nat, d: Dev, r: Ref, off: nat, j: nat, i: nat, held: PageId)
    requires View(page, d).Valid() && d.pages.Ok(page, d.qset, d.items) && SameBytes(View(page, d), r)
    requires PinnedAt(d, off + j, held) && i < page
    ensures held in d.pages.holds && |d.pages.holds[held]| == page
    ensures d.pages.holds[held][i] == Latest(r, MappedPos(page, off + j, i))
  {
    DivModUnique(i, page, 0, i);
    hide WalkSlot, MappedPos, MappedPage, Latest;
    PageShows(page, d, r, off + j, i);
  }

  /** Byte i of page j of a mapping that starts at page `off`, once its page is in the table, is the latest put at
      position (off + j) * page + i, by whichever way, or 0. */
  lemma LoadGetsLatest(
      page: nat, order: nat, qset: nat, run: seq<Action>, n: Noted, m: MapId, j: nat, i: nat)
    requires page > 0 && qset > 0 && Exec(NotedStep, NotedInit(page, order, qset), run) == Some(n)
    requires m in n.s.maps && j in n.s.maps[m].table && i < n.s.page
    ensures var held := n.s.maps[m].table[j];
            && held in n.s.dev.pages.holds && |n.s.dev.pages.holds[held]| == n.s.page && m in n.r.maps
            && var p := (n.r.maps[m] + j) * n.s.page + i;
               p >= 0 && n.s.dev.pages.holds[held][i] == Latest(n.r, p)
  {
    hide NotedStep, SameBytes, WalkSlot, Latest;
    RunAgrees(page, order, qset, run, n);
    var v := n.s.maps[m];
    assert PinnedAt(n.s.dev, v.off + j, v.table[j]);
    assert n.r.maps[m] == v.off;
    EntryShows(n.s.page, n.s.dev, n.r, v.off, j, i, v.table[j]);
    hide DevOk, Pinned, PinnedAt;
  }

  /** A fault that does not end in SIGBUS lets the process go on: every byte of that page of the mapping is within
      reach, and no other table entry changes. */
  lemma FaultThenReach(s: Sys, m: MapId, k: nat, l: nat, t: Sys)
    requires Inv(s) && Step(s, Fault(m, k)) == Some(t)
    ensures s.page > 0 && t.dev == s.dev && (t.reply.BusError? || t.reply.Done?)
    ensures t.reply.BusError? ==> t.maps == s.maps
    ensures t.reply.Done? && l / s.page == k / s.page ==> Step(t, LoadThrough(m, l)).Some?
    ensures forall x, j :: x in s.maps && j in s.maps[x].table && (x != m || j != k / s.page) ==>
              x in t.maps && j in t.maps[x].table && t.maps[x].table[j] == s.maps[x].table[j]
  {
    hide WalkSlot, MappedPos;
  }

  // ---------- retuning ----------

  /** The pair of the latest retuning in a run. */
  function LatestTune(run: seq<Action>, order: nat, qset: nat): (nat, nat)
    decreases |run|
  {
    if run == [] then (order, qset)
    else
      var last := run[|run| - 1];
      if last.Tune? then (last.order, last.qset) else LatestTune(run[..|run| - 1], order, qset)
  }

  lemma NoteTunes(n: Noted, a: Action)
    requires NotedStep(n, a).Some?
    ensures var r := NotedStep(n, a).value.r;
            if a.Tune? then r.nextOrder == a.order && r.nextQset == a.qset
            else r.nextOrder == n.r.nextOrder && r.nextQset == n.r.nextQset
  {
    hide CarefulStep;
  }

  lemma {:induction false} TuneIsKept(n: Noted, run: seq<Action>)
    requires Exec(NotedStep, n, run).Some?
    ensures var r := Exec(NotedStep, n, run).value.r;
            (r.nextOrder, r.nextQset) == LatestTune(run, n.r.nextOrder, n.r.nextQset)
    decreases |run|
  {
    if run != [] {
      var front, last := run[..|run| - 1], run[|run| - 1];
      assert run == front + [last];
      ExecSplit(NotedStep, n, front, last);
      TuneIsKept(n, front);
      hide NotedStep, Note;
      NoteTunes(Exec(NotedStep, n, front).value, last);
    }
  }

  /** A write-only open takes up the order and the qset of the latest retuning, in this order, unless the device is
      mapped, and then leaves it as it is. */
  lemma TrimTakesLatestTune(page: nat, order: nat, qset: nat, run: seq<Action>, n: Noted, t: Sys)
    requires page > 0 && qset > 0 && Exec(NotedStep, NotedInit(page, order, qset), run) == Some(n)
    requires CarefulStep(n.s, OpenToWrite) == Some(t)
    ensures if n.s.maps != map[] then t.dev == n.s.dev
            else
              && (t.dev.order, t.dev.qset) == LatestTune(run, order, qset)
              && t.dev.size == 0 && t.dev.items == 1 && t.dev.pages.at == map[]
  {
    RunAgrees(page, order, qset, run, n);
    TuneIsKept(NotedInit(page, order, qset), run);
    assert n.s.maps != map[] ==> |n.s.maps| > 0;
    hide Pinned, SameBytes, LatestTune;
  }

  /** The reference misses no careful run. */
  lemma {:induction false} EveryRunIsNoted(n: Noted, run: seq<Action>)
    requires Agree(n) && Exec(CarefulStep, n.s, run).Some?
    ensures Exec(NotedStep, n, run).Some? && Exec(NotedStep, n, run).value.s == Exec(CarefulStep, n.s, run).value
    decreases |run|
  {
    if run != [] {
      assert NotedStep(n, run[0]).Some?;
      hide Agree, CarefulStep, Note;
      StepAgrees(n, run[0]);
      EveryRunIsNoted(NotedStep(n, run[0]).value, run[1..]);
    }
  }
}
