/**
 The protocol between page faults, recalls (fork_begin/fork_end), segment removal,
 detach, whole-vma unmap, MMU invalidation and attach, as a step machine.

 Any number of threads run the operations.  A thread is a program counter that
 carries the local variables of its operation.  One step is one lock operation or
 one access to shared flags, page tables or counters; atomics and flag updates are
 sequentially consistent.  Which locks a thread holds is a function of its program
 counter, so taking a lock is a step guarded by the program counters of the others.

 Attachments are the leaves of thread group, segment, permit, attachment; the permit
 layer adds nothing to the protocol, so an attachment names its segment directly and
 `linked` says that it can be reached from the segment's lists.
 */
module Protocol {
  import opened Words
  import opened Locks

  // ----- Shared state -----

  datatype Tg = Tg(
    mm: nat,
    destroying: bool,
    nPinned: int,  // tg->n_pinned
    leaked: int)   // pins whose page table entry was never made, or was removed and not given back

  /** `wrapped`: its range, as made, runs past the end of the 64-bit space. */
  datatype Seg = Seg(tg: nat, destroying: bool, destroyed: bool, recalling: bool, wrapped: bool)

  /** Whether a vma of the attaching process has the attachment as vm_private_data. */
  datatype Vma = NotYet | Mapped | Gone

  datatype Att = Att(
    seg: nat,
    tg: nat,          // seg->tg
    mm: nat,          // the address space attached to
    size: nat,        // in pages
    destroying: bool,
    valid: bool,      // XPMEM_FLAG_VALIDPTEs
    vma: Vma,
    linked: bool,     // reachable through seg->ap_list and ap->att_list
    pages: set<nat>)  // attached pages with a present page table entry, numbered from zero

  datatype Mem = Mem(
    tgs: seq<Tg>,
    segs: seq<Seg>,
    atts: seq<Att>,
    nPinned: int,    // xpmem_my_part->n_pinned
    nUnpinned: int)  // xpmem_my_part->n_unpinned

  datatype State = State(m: Mem, threads: seq<Pc>)

  // ----- Program counters -----

  /** The local variables of xpmem_fault_handler(). */
  datatype Ctx = Ctx(att: nat, page: nat, seg: nat, tg: nat, cur: nat, src: nat)

  /** Locks still to be given back on the way out of the fault handler. */
  datatype Left = Left(sema: bool, gate: bool, src: bool, mutex: bool, cur: bool)

  /** `v` is vma_verification_needed. */
  datatype FaultStage =
    | FEnter
    | FTryGate
    | FTrySema
    | FTested
    | FDropCur
    | FWaitGate
    | FWaitSema
    | FTestedLate
    | FRelock
    | FRelockOnly
    | FSource(v: bool)
    | FWaitSrcAbove(v: bool)
    | FDropForSrc
    | FWaitSrc
    | FRelockAfterSrc
    | FVerify(v: bool)
    | FWaitMutex
    | FValidate
    | FPin
    | FFlag
    | FUpRead
    | FUnblock
    | FInstall
    | FUnwind(left: Left)

  /** xpmem_clear_PTEs(): `seen` are the attachments examined so far. */
  datatype WalkStage =
    | CNext
    | CWaitMm(att: nat, mm: nat)
    | CWaitMutex(att: nat, mm: nat)
    | CClear(att: nat, mm: nat)
    | CRelMutex(att: nat, mm: nat)
    | CRelMm(att: nat, mm: nat)

  datatype Walk = Walk(seen: set<nat>, ws: WalkStage)

  datatype RecallStage =
    | RWaitGate
    | RWaitMutex
    | RWalk
    | RTest(q: nat)
    | RAwait(q: nat)
    | RWaitSema(q: nat)
    | RClear(q: nat, w: Walk)
    | RUnflag(q: nat)
    | RUp(q: nat)
    | RRelMutex
    | RWindow  // fork_begin() has returned, fork_end() has not been called

  datatype RemoveStage = MTest | MWaitSema | MClear(w: Walk) | MMark | MUp

  datatype DetachStage =
    | DWaitMm
    | DFind
    | DWaitMutex
    | DWaitInv
    | DTest
    | DRelInv
    | DOwner
    | DLook
    | DUnpin
    | DUnlink
    | DRelMutex
    | DRelMm
    | DWaitMunmap
    | DMunmap
    | DQuitInv
    | DQuitMutex
    | DQuitMm

  datatype CloseStage = KWaitMm | KZap | KWaitMutex | KTest | KUnlink | KRelMutex | KRelMm

  datatype InvalStage = IWaitMm | IWalk | IWaitInv(a: nat) | IClear(a: nat) | IRelInv(a: nat) | IRelMm

  datatype AttachStage =
    | AWaitSema
    | ATest
    | ACreate
    | ALinked(a: nat)
    | AWaitMm(a: nat)
    | AMapped(a: nat)
    | ASetVma(a: nat)
    | AFail(a: nat)
    | ARelMutex(a: nat)
    | ARelSema

  datatype Pc =
    | Idle
    | Fault(f: Ctx, fs: FaultStage)
    | Recall(tg: nat, done: set<nat>, rs: RecallStage)
    | Remove(seg: nat, ms: RemoveStage)
    | Detach(att: nat, mm: nat, byList: bool, ds: DetachStage)
    | Close(att: nat, mm: nat, ks: CloseStage)
    | Inval(tg: nat, mm: nat, vs: InvalStage)
    | Attach(seg: nat, tg: nat, mm: nat, hs: AttachStage)

  // ----- Which locks a program counter holds -----

  predicate FaultCur(st: FaultStage) {
    match st
    case FEnter | FWaitGate | FWaitSema | FTestedLate | FRelock | FRelockOnly | FWaitSrc | FRelockAfterSrc => false
    case FUnwind(left) => left.cur
    case _ => true
  }

  predicate FaultSrc(st: FaultStage) {
    match st
    case FRelockAfterSrc | FVerify(_) | FWaitMutex | FValidate | FPin | FFlag | FUpRead | FUnblock | FInstall => true
    case FUnwind(left) => left.src
    case _ => false
  }

  predicate FaultGate(st: FaultStage) {
    match st
    case FEnter | FTryGate | FDropCur | FWaitGate | FRelockOnly | FInstall => false
    case FUnwind(left) => left.gate
    case _ => true
  }

  predicate FaultSema(st: FaultStage) {
    match st
    case FTested | FTestedLate | FRelock | FSource(_) | FWaitSrcAbove(_) | FDropForSrc | FWaitSrc
      | FRelockAfterSrc | FVerify(_) | FWaitMutex | FValidate | FPin | FFlag | FUpRead => true
    case FUnwind(left) => left.sema
    case _ => false
  }

  predicate FaultMutex(st: FaultStage) {
    match st
    case FValidate | FPin | FFlag | FUpRead | FUnblock | FInstall => true
    case FUnwind(left) => left.mutex
    case _ => false
  }

  function HeldBy(held: bool, m: Mode): Mode {
    if held then m else NotHeld
  }

  function FaultHolds(f: Ctx, st: FaultStage, l: Lock): Mode {
    match l
    case GateLock(g) => HeldBy(g == f.tg && FaultGate(st), Blk)
    case Sema(q) => HeldBy(q == f.seg && FaultSema(st), Rd)
    case Mmap(m) => HeldBy((m == f.cur && FaultCur(st)) || (m == f.src && FaultSrc(st)), Rd)
    case AttMutex(a) => HeldBy(a == f.att && FaultMutex(st), Wr)
    case _ => NotHeld
  }

  function WalkHolds(ws: WalkStage, l: Lock): Mode {
    match l
    case Mmap(m) =>
      HeldBy((ws.CWaitMutex? || ws.CClear? || ws.CRelMutex? || ws.CRelMm?) && ws.mm == m, Rd)
    case AttMutex(a) => HeldBy((ws.CClear? || ws.CRelMutex?) && ws.att == a, Wr)
    case _ => NotHeld
  }

  function RecallHolds(tg: nat, st: RecallStage, l: Lock): Mode {
    match l
    case GateLock(g) => HeldBy(g == tg && !st.RWaitGate?, Rcl)
    case RecallMutex(g) => HeldBy(g == tg && !st.RWaitGate? && !st.RWaitMutex? && !st.RWindow?, Wr)
    case Sema(q) => HeldBy((st.RClear? || st.RUnflag? || st.RUp?) && st.q == q, Wr)
    case _ => if st.RClear? then WalkHolds(st.w.ws, l) else NotHeld
  }

  function RemoveHolds(seg: nat, st: RemoveStage, l: Lock): Mode {
    match l
    case Sema(q) => HeldBy(q == seg && (st.MClear? || st.MMark? || st.MUp?), Wr)
    case _ => if st.MClear? then WalkHolds(st.w.ws, l) else NotHeld
  }

  predicate DetachMm(st: DetachStage) {
    !st.DWaitMm? && !st.DWaitMunmap?
  }

  predicate DetachMutex(st: DetachStage) {
    match st
    case DWaitInv | DTest | DRelInv | DOwner | DLook | DUnpin | DUnlink | DRelMutex | DQuitInv | DQuitMutex => true
    case _ => false
  }

  predicate DetachInv(st: DetachStage) {
    st.DTest? || st.DRelInv? || st.DQuitInv?
  }

  function DetachHolds(att: nat, mm: nat, st: DetachStage, l: Lock): Mode {
    match l
    case Mmap(m) => HeldBy(m == mm && DetachMm(st), Wr)
    case AttMutex(a) => HeldBy(a == att && DetachMutex(st), Wr)
    case InvMutex(a) => HeldBy(a == att && DetachInv(st), Wr)
    case _ => NotHeld
  }

  function CloseHolds(att: nat, mm: nat, st: CloseStage, l: Lock): Mode {
    match l
    case Mmap(m) => HeldBy(m == mm && !st.KWaitMm?, Wr)
    case AttMutex(a) => HeldBy(a == att && (st.KTest? || st.KUnlink? || st.KRelMutex?), Wr)
    case _ => NotHeld
  }

  function InvalHolds(mm: nat, st: InvalStage, l: Lock): Mode {
    match l
    case Mmap(m) => HeldBy(m == mm && !st.IWaitMm?, Wr)
    case InvMutex(a) => HeldBy((st.IClear? || st.IRelInv?) && st.a == a, Wr)
    case _ => NotHeld
  }

  function AttachHolds(seg: nat, mm: nat, st: AttachStage, l: Lock): Mode {
    match l
    case Sema(q) => HeldBy(q == seg && !st.AWaitSema?, Rd)
    case Mmap(m) => HeldBy(m == mm && st.AMapped?, Wr)
    case AttMutex(a) =>
      HeldBy((st.ALinked? || st.AWaitMm? || st.AMapped? || st.ASetVma? || st.AFail? || st.ARelMutex?) && st.a == a, Wr)
    case _ => NotHeld
  }

  function Holds(pc: Pc, l: Lock): Mode {
    match pc
    case Idle => NotHeld
    case Fault(f, st) => FaultHolds(f, st, l)
    case Recall(tg, _, st) => RecallHolds(tg, st, l)
    case Remove(seg, st) => RemoveHolds(seg, st, l)
    case Detach(att, mm, _, st) => DetachHolds(att, mm, st, l)
    case Close(att, mm, st) => CloseHolds(att, mm, st, l)
    case Inval(_, mm, st) => InvalHolds(mm, st, l)
    case Attach(seg, _, mm, st) => AttachHolds(seg, mm, st, l)
  }

  /** Thread t may take lock l in mode m: no other thread holds it incompatibly. */
  predicate Free(s: State, t: nat, l: Lock, m: Mode) {
    forall u :: 0 <= u < |s.threads| && u != t ==> Compatible(Holds(s.threads[u], l), m)
  }

  // ----- Steps -----

  datatype Op =
    | DoFault(att: nat, page: nat)
    | DoRecall(tg: nat)
    | DoRemove(seg: nat)
    | DoDetach(att: nat, byList: bool)
    | DoClose(att: nat)
    | DoInvalidate(tg: nat)
    | DoAttach(seg: nat, mm: nat)
    | DoOpen(mm: nat)
    | DoMake(tg: nat, wrapped: bool)
    | DoTeardown(tg: nat)

  /** Everything a step leaves open: the operation an idle thread starts, whether a
      foreign call succeeds, the list element examined next or the size attached, the pages of a
      source range, and the page tables met. */
  datatype Choice = Choice(op: Op, ok: bool, pick: nat, lo: nat, hi: nat, tables: Tables)

  /** What page tables a run of xpmem_unpin_pages() meets: the top level fits its int page count,
      or it does not, and then any number of pages may be released. */
  datatype Tables = Fit | Wide(n: nat)

  // ----- What a step does to the shared state -----

  datatype Effect =
    | Nothing
    | OpenTg(mm: nat)
    | MarkTg(g: nat)
    | MakeSeg(g: nat, wrapped: bool)
    | MarkSeg(q: nat)                          // XPMEM_FLAG_DESTROYING
    | FinishSeg(q: nat)                        // XPMEM_FLAG_DESTROYED
    | SetRecalling(q: nat, on: bool)           // XPMEM_FLAG_RECALLINGPFNS
    | Pin(g: nat)                              // xpmem_pin_page()
    | Unpin(g: nat)                            // one page given back
    | Lose(g: nat)                             // a pin without a page table entry
    | Flag(a: nat)                             // XPMEM_FLAG_VALIDPTEs
    | Install(a: nat, page: nat)               // remap_pfn_range()
    | ClearAll(a: nat, tables: Tables)         // xpmem_clear_PTEs_of_att(), whole attachment
    | ClearSome(a: nat, lo: nat, hi: nat, tables: Tables)  // the same for pages lo to hi, from the MMU notifier
    | NewAtt(q: nat, g: nat, mm: nat, size: nat)
    | SetVma(a: nat)
    | FailAtt(a: nat)
    | MarkAtt(a: nat, on: bool)
    | UnpinAtt(a: nat, tables: Tables)         // xpmem_unpin_pages() of a detach
    | UnlinkAtt(a: nat)
    | UnmapAtt(a: nat)                         // vm_munmap() after a detach
    | ZapAtt(a: nat)                           // munmap() outside the driver

  /** References inside the state point at objects that exist. */
  predicate AttWf(m: Mem, a: nat) {
    && a < |m.atts|
    && m.atts[a].seg < |m.segs|
    && m.atts[a].tg < |m.tgs|
    && m.segs[m.atts[a].seg].tg == m.atts[a].tg
  }

  predicate SegWf(m: Mem, q: nat) {
    q < |m.segs| && m.segs[q].tg < |m.tgs|
  }

  predicate EffectWf(m: Mem, e: Effect) {
    match e
    case Nothing | OpenTg(_) => true
    case MarkTg(g) => g < |m.tgs|
    case MakeSeg(g, _) => g < |m.tgs|
    case MarkSeg(q) => q < |m.segs|
    case FinishSeg(q) => q < |m.segs|
    case SetRecalling(q, _) => q < |m.segs|
    case Pin(g) => g < |m.tgs|
    case Unpin(g) => g < |m.tgs|
    case Lose(g) => g < |m.tgs|
    case NewAtt(q, g, _, _) => SegWf(m, q) && m.segs[q].tg == g
    case _ => AttWf(m, e.a)
  }

  function Slice(pages: set<nat>, lo: nat, hi: nat): set<nat> {
    set p | p in pages && lo <= p < hi
  }

  function Least(a: nat, b: nat): nat {
    if a < b then a else b
  }

  /** What an effect on one attachment makes of it. */
  function AttAfter(at: Att, e: Effect): Att {
    match e
    case Flag(_) => at.(valid := true)
    case Install(_, page) => at.(pages := at.pages + {page})
    case ClearAll(_, _) => if at.valid then at.(valid := false, pages := {}) else at
    case ClearSome(_, lo, hi, _) =>
      var to := Least(hi, at.size);
      if !at.destroying && at.valid && lo < to then
        // the flag goes only when the range covers the whole attachment
        at.(pages := at.pages - Slice(at.pages, lo, to), valid := !(lo == 0 && to == at.size))
      else at
    case SetVma(_) => at.(vma := Mapped)
    case FailAtt(_) => at.(destroying := true, linked := false)
    case MarkAtt(_, on) => at.(destroying := on)
    case UnpinAtt(_, _) => at.(vma := Gone, valid := false)
    case UnlinkAtt(_) => at.(linked := false)
    case UnmapAtt(_) => at.(pages := {})
    case ZapAtt(_) => at.(vma := Gone, pages := {})
    case _ => at
  }

  /** The pages whose pins the effect takes from the attachment. */
  function Removed(at: Att, e: Effect): set<nat> {
    match e
    case ClearAll(_, _) => if at.valid then at.pages else {}
    case ClearSome(_, lo, hi, _) => if !at.destroying && at.valid then Slice(at.pages, lo, Least(hi, at.size)) else {}
    case UnpinAtt(_, _) => at.pages
    case ZapAtt(_) => at.pages
    case _ => {}
  }

  /** The pages of those that xpmem_unpin_pages() visits: it keeps its page count in an int. */
  function Visited(at: Att, e: Effect): set<nat> {
    match e
    case ClearAll(_, _) => if at.valid then Slice(at.pages, 0, Window(at.size)) else {}
    case ClearSome(_, lo, hi, _) =>
      var to := Least(hi, at.size);
      if !at.destroying && at.valid && lo < to then Slice(at.pages, lo, lo + Window(to - lo)) else {}
    case UnpinAtt(_, _) => Slice(at.pages, 0, Window(at.size))
    case _ => {}
  }

  /** The pages that it gives back. */
  function GivenBack(at: Att, e: Effect): nat {
    match e
    case ClearAll(_, tables) => if at.valid then Gives(at, e, tables) else 0
    case ClearSome(_, lo, hi, tables) =>
      if !at.destroying && at.valid && lo < Least(hi, at.size) then Gives(at, e, tables) else 0
    case UnpinAtt(_, tables) => Gives(at, e, tables)
    case _ => 0
  }

  function Gives(at: Att, e: Effect, tables: Tables): nat {
    if tables.Fit? then |Visited(at, e)| else tables.n
  }

  /** The pins taken from the attachment and not given back, less those given back too many. */
  function Lost(at: Att, e: Effect): int {
    |Removed(at, e)| - GivenBack(at, e)
  }

  /** Count n pages of group g as given back and k pins as lost. */
  function Count(m: Mem, g: nat, n: nat, k: int): Mem
    requires g < |m.tgs|
  {
    m.(tgs := m.tgs[g := m.tgs[g].(nPinned := m.tgs[g].nPinned - n, leaked := m.tgs[g].leaked + k)],
       nUnpinned := m.nUnpinned + n)
  }

  function Apply(m: Mem, e: Effect): Mem
    requires EffectWf(m, e)
  {
    match e
    case Nothing => m
    case OpenTg(mm) => m.(tgs := m.tgs + [Tg(mm, false, 0, 0)])
    case MarkTg(g) => m.(tgs := m.tgs[g := m.tgs[g].(destroying := true)])
    case MakeSeg(g, wrapped) => m.(segs := m.segs + [Seg(g, false, false, false, wrapped)])
    case MarkSeg(q) => m.(segs := m.segs[q := m.segs[q].(destroying := true)])
    case FinishSeg(q) => m.(segs := m.segs[q := m.segs[q].(destroyed := true)])
    case SetRecalling(q, on) => m.(segs := m.segs[q := m.segs[q].(recalling := on)])
    case Pin(g) => m.(tgs := m.tgs[g := m.tgs[g].(nPinned := m.tgs[g].nPinned + 1)], nPinned := m.nPinned + 1)
    case Unpin(g) => Count(m, g, 1, 0)
    case Lose(g) => Count(m, g, 0, 1)
    case NewAtt(q, g, mm, size) => m.(atts := m.atts + [Att(q, g, mm, size, false, false, NotYet, true, {})])
    case _ =>
      var at := m.atts[e.a];
      Count(m, at.tg, GivenBack(at, e), Lost(at, e)).(atts := m.atts[e.a := AttAfter(at, e)])
  }

  // ----- The operations: the effect of a step and where it leads -----

  datatype Act = Act(e: Effect, pc: Pc)

  function To(pc: Pc): Act {
    Act(Nothing, pc)
  }

  /** Take lock l in mode x and go on at pc, or stay at `here`. */
  function Take(s: State, t: nat, l: Lock, x: Mode, here: Pc, pc: Pc): Act {
    To(if Free(s, t, l, x) then pc else here)
  }

  predicate CtxOk(m: Mem, f: Ctx) {
    && AttWf(m, f.att)
    && f.seg == m.atts[f.att].seg
    && f.tg == m.atts[f.att].tg
    && f.cur == m.atts[f.att].mm
    && f.src == m.tgs[f.tg].mm
  }

  function StartAct(m: Mem, op: Op): Act {
    match op
    case DoFault(a, p) =>
      if AttWf(m, a) then
        var at := m.atts[a];
        To(Fault(Ctx(a, p, at.seg, at.tg, at.mm, m.tgs[at.tg].mm), FEnter))
      else To(Idle)
    case DoRecall(g) => To(if g < |m.tgs| then Recall(g, {}, RWaitGate) else Idle)
    case DoRemove(q) => To(if SegWf(m, q) then Remove(q, MTest) else Idle)
    case DoDetach(a, byList) => To(if AttWf(m, a) then Detach(a, m.atts[a].mm, byList, DWaitMm) else Idle)
    case DoClose(a) => To(if AttWf(m, a) then Close(a, m.atts[a].mm, KWaitMm) else Idle)
    case DoInvalidate(g) => To(if g < |m.tgs| then Inval(g, m.tgs[g].mm, IWaitMm) else Idle)
    case DoAttach(q, mm) => To(if SegWf(m, q) then Attach(q, m.segs[q].tg, mm, AWaitSema) else Idle)
    case DoOpen(mm) => Act(OpenTg(mm), Idle)
    case DoMake(g, wrapped) => Act(if g < |m.tgs| then MakeSeg(g, wrapped) else Nothing, Idle)
    case DoTeardown(g) => Act(if g < |m.tgs| then MarkTg(g) else Nothing, Idle)
  }

  /** xpmem_fault_handler(), kernel/xpmem_attach.c. */
  function FaultAct(s: State, t: nat, f: Ctx, st: FaultStage, c: Choice): Act
    requires CtxOk(s.m, f)
  {
    var at := s.m.atts[f.att];
    var doomed := s.m.segs[f.seg].destroying || s.m.tgs[f.tg].destroying;
    match st
    case FEnter =>
      // without a vma, or while the permit or its group goes away: SIGBUS
      Take(s, t, Mmap(f.cur), Rd, Fault(f, st),
           Fault(f, if at.vma.Mapped? && c.ok then FTryGate else FUnwind(Left(false, false, false, false, true))))
    case FTryGate => To(Fault(f, if c.ok && Free(s, t, GateLock(f.tg), Blk) then FTrySema else FDropCur))
    case FTrySema => To(Fault(f, if c.ok && Free(s, t, Sema(f.seg), Rd) then FTested else FDropCur))
    case FTested => To(Fault(f, if doomed then FUnwind(Left(true, true, false, false, true)) else FSource(false)))
    case FDropCur => To(Fault(f, FWaitGate))
    case FWaitGate => Take(s, t, GateLock(f.tg), Blk, Fault(f, st), Fault(f, FWaitSema))
    case FWaitSema => Take(s, t, Sema(f.seg), Rd, Fault(f, st), Fault(f, FTestedLate))
    case FTestedLate => To(Fault(f, if doomed then FUnwind(Left(true, true, false, false, false)) else FRelock))
    case FRelock => Take(s, t, Mmap(f.cur), Rd, Fault(f, st), Fault(f, FSource(true)))
    case FRelockOnly =>
      Take(s, t, Mmap(f.cur), Rd, Fault(f, st), Fault(f, FUnwind(Left(false, false, false, false, true))))
    case FSource(v) =>
      To(Fault(f, if f.src == f.cur then FVerify(v)
                  else if f.cur < f.src then FWaitSrcAbove(v)
                  else if c.ok && Free(s, t, Mmap(f.src), Rd) then FVerify(v)
                  else FDropForSrc))
    case FWaitSrcAbove(v) => Take(s, t, Mmap(f.src), Rd, Fault(f, st), Fault(f, FVerify(v)))
    case FDropForSrc => To(Fault(f, FWaitSrc))
    case FWaitSrc => Take(s, t, Mmap(f.src), Rd, Fault(f, st), Fault(f, FRelockAfterSrc))
    case FRelockAfterSrc => Take(s, t, Mmap(f.cur), Rd, Fault(f, st), Fault(f, FVerify(true)))
    case FVerify(v) => To(Fault(f, if v && !at.vma.Mapped? then FUnwind(Left(true, true, true, false, true)) else FWaitMutex))
    case FWaitMutex =>
      if !c.ok then To(Fault(f, FUnwind(Left(true, true, true, false, true))))  // killed
      else Take(s, t, AttMutex(f.att), Wr, Fault(f, st), Fault(f, FValidate))
    case FValidate =>
      To(Fault(f, if at.destroying || s.m.tgs[f.tg].destroying || f.page >= at.size || !c.ok
                  then FUnwind(Left(true, true, true, true, true)) else FPin))
    case FPin =>
      if s.m.segs[f.seg].destroying || !c.ok then To(Fault(f, FUnwind(Left(true, true, true, true, true))))
      else Act(Pin(f.tg), Fault(f, FFlag))
    case FFlag => Act(Flag(f.att), Fault(f, FUpRead))
    case FUpRead => To(Fault(f, FUnblock))
    case FUnblock => To(Fault(f, FInstall))
    case FInstall =>
      Act(if c.pick == 0 then Lose(f.tg)              // frame zero or not a valid frame
          else if f.page in at.pages then Unpin(f.tg)
          else if !c.ok then Lose(f.tg)               // remap_pfn_range() failed
          else Install(f.att, f.page),
          Fault(f, FUnwind(Left(false, false, true, true, true))))
    case FUnwind(left) => To(FaultUnwound(f, left))
  }

  function FaultUnwound(f: Ctx, left: Left): Pc {
    if left.sema then Fault(f, FUnwind(left.(sema := false)))
    else if left.gate then
      // the handler takes its own mmap lock again before it returns
      if left.cur then Fault(f, FUnwind(left.(gate := false))) else Fault(f, FRelockOnly)
    else if left.src then Fault(f, FUnwind(left.(src := false)))
    else if left.mutex then Fault(f, FUnwind(left.(mutex := false)))
    else Idle
  }

  predicate Examinable(m: Mem, q: nat, seen: set<nat>, a: nat) {
    AttWf(m, a) && m.atts[a].seg == q && m.atts[a].linked && a !in seen
  }

  /** The walk ends only when every attachment then on the lists has been examined. */
  predicate AllExamined(m: Mem, q: nat, seen: set<nat>) {
    forall a :: 0 <= a < |m.atts| && m.atts[a].seg == q && m.atts[a].linked ==> a in seen
  }

  datatype WalkAct = Ended | Walking(e: Effect, w: Walk)

  /** xpmem_clear_PTEs(), kernel/xpmem_attach.c. */
  function WalkNext(s: State, t: nat, q: nat, w: Walk, c: Choice): WalkAct {
    match w.ws
    case CNext =>
      if Examinable(s.m, q, w.seen, c.pick) then
        Walking(Nothing, if s.m.atts[c.pick].valid then w.(ws := CWaitMm(c.pick, s.m.atts[c.pick].mm))
                         else w.(seen := w.seen + {c.pick}))
      else if AllExamined(s.m, q, w.seen) then Ended
      else Walking(Nothing, w)
    case CWaitMm(a, mm) =>
      Walking(Nothing, if Free(s, t, Mmap(mm), Rd) then w.(ws := CWaitMutex(a, mm)) else w)
    case CWaitMutex(a, mm) =>
      Walking(Nothing, if Free(s, t, AttMutex(a), Wr) then w.(ws := CClear(a, mm)) else w)
    case CClear(a, mm) =>
      // the range of a segment that wraps around ends before it begins
      Walking(if AttWf(s.m, a) && !s.m.segs[s.m.atts[a].seg].wrapped then ClearAll(a, c.tables) else Nothing,
              w.(ws := CRelMutex(a, mm)))
    case CRelMutex(a, mm) => Walking(Nothing, w.(ws := CRelMm(a, mm)))
    case CRelMm(a, _) => Walking(Nothing, Walk(w.seen + {a}, CNext))
  }

  predicate Recallable(m: Mem, g: nat, done: set<nat>, q: nat) {
    SegWf(m, q) && m.segs[q].tg == g && !m.segs[q].destroying && q !in done
  }

  predicate AllRecalled(m: Mem, g: nat, done: set<nat>) {
    forall q :: 0 <= q < |m.segs| && m.segs[q].tg == g && !m.segs[q].destroying ==> q in done
  }

  /** xpmem_wait_for_seg_destroyed() */
  predicate AwaitOver(seg: Seg) {
    seg.destroyed || (!seg.destroying && !seg.recalling)
  }

  /** xpmem_fork_begin() and xpmem_fork_end(), kernel/xpmem_pfn.c. */
  function RecallAct(s: State, t: nat, g: nat, done: set<nat>, st: RecallStage, c: Choice): Act {
    var here := Recall(g, done, st);
    match st
    case RWaitGate => Take(s, t, GateLock(g), Rcl, here, Recall(g, done, RWaitMutex))
    case RWaitMutex => Take(s, t, RecallMutex(g), Wr, here, Recall(g, done, RWalk))
    case RWalk =>
      To(if Recallable(s.m, g, done, c.pick) then Recall(g, done, RTest(c.pick))
         else if AllRecalled(s.m, g, done) then Recall(g, done, RRelMutex)
         else here)
    case RTest(q) =>
      if q < |s.m.segs| then
        if s.m.segs[q].destroying || s.m.segs[q].recalling then To(Recall(g, done, RAwait(q)))
        else Act(SetRecalling(q, true), Recall(g, done, RWaitSema(q)))
      else To(here)
    case RAwait(q) => To(if q < |s.m.segs| && AwaitOver(s.m.segs[q]) then Recall(g, done + {q}, RWalk) else here)
    case RWaitSema(q) => Take(s, t, Sema(q), Wr, here, Recall(g, done, RClear(q, Walk({}, CNext))))
    case RClear(q, w) =>
      var n := WalkNext(s, t, q, w, c);
      if n.Ended? then To(Recall(g, done, RUnflag(q))) else Act(n.e, Recall(g, done, RClear(q, n.w)))
    case RUnflag(q) =>
      Act(if q < |s.m.segs| then SetRecalling(q, false) else Nothing, Recall(g, done, RUp(q)))
    case RUp(q) => To(Recall(g, done + {q}, RWalk))
    case RRelMutex => To(Recall(g, done, RWindow))
    case RWindow => To(Idle)
  }

  /** xpmem_remove_seg(), kernel/xpmem_make.c. */
  function RemoveAct(s: State, t: nat, q: nat, st: RemoveStage, c: Choice): Act
    requires q < |s.m.segs|
  {
    match st
    case MTest => if s.m.segs[q].destroying then To(Idle) else Act(MarkSeg(q), Remove(q, MWaitSema))
    case MWaitSema => Take(s, t, Sema(q), Wr, Remove(q, st), Remove(q, MClear(Walk({}, CNext))))
    case MClear(w) =>
      var n := WalkNext(s, t, q, w, c);
      if n.Ended? then To(Remove(q, MMark)) else Act(n.e, Remove(q, MClear(n.w)))
    case MMark => Act(FinishSeg(q), Remove(q, MUp))
    case MUp => To(Idle)
  }

  /** xpmem_detach(), and xpmem_detach_att() when `byList`, kernel/xpmem_attach.c. */
  function DetachAct(s: State, t: nat, a: nat, mm: nat, byList: bool, st: DetachStage, c: Choice): Act
    requires AttWf(s.m, a)
  {
    var at := s.m.atts[a];
    var here := Detach(a, mm, byList, st);
    match st
    case DWaitMm => Take(s, t, Mmap(mm), Wr, here, Detach(a, mm, byList, DFind))
    case DFind => To(Detach(a, mm, byList, if byList || at.vma.Mapped? then DWaitMutex else DQuitMm))
    case DWaitMutex =>
      if !byList && !c.ok then To(Detach(a, mm, byList, DQuitMm))  // killed
      else Take(s, t, AttMutex(a), Wr, here, Detach(a, mm, byList, DWaitInv))
    case DWaitInv => Take(s, t, InvMutex(a), Wr, here, Detach(a, mm, byList, DTest))
    case DTest =>
      if at.destroying then To(Detach(a, mm, byList, DQuitInv))
      else Act(MarkAtt(a, true), Detach(a, mm, byList, DRelInv))
    case DRelInv => To(Detach(a, mm, byList, if byList then DLook else DOwner))
    case DOwner =>
      if c.ok then To(Detach(a, mm, byList, DUnpin))
      else Act(MarkAtt(a, false), Detach(a, mm, byList, DQuitMutex))  // -EACCES
    case DLook => To(Detach(a, mm, byList, if at.vma.Mapped? then DUnpin else DQuitMutex))
    case DUnpin => Act(UnpinAtt(a, c.tables), Detach(a, mm, byList, DUnlink))
    case DUnlink => Act(UnlinkAtt(a), Detach(a, mm, byList, DRelMutex))
    case DRelMutex => To(Detach(a, mm, byList, DRelMm))
    case DRelMm => To(if byList && !c.ok then Idle else Detach(a, mm, byList, DWaitMunmap))  // no current->mm
    case DWaitMunmap => Take(s, t, Mmap(mm), Wr, here, Detach(a, mm, byList, DMunmap))
    case DMunmap => Act(UnmapAtt(a), Idle)
    case DQuitInv => To(Detach(a, mm, byList, DQuitMutex))
    case DQuitMutex => To(Detach(a, mm, byList, DQuitMm))
    case DQuitMm => To(Idle)
  }

  /** munmap() of the whole attached vma outside the driver, with xpmem_close_handler(). */
  function CloseAct(s: State, t: nat, a: nat, mm: nat, st: CloseStage): Act
    requires AttWf(s.m, a)
  {
    var at := s.m.atts[a];
    match st
    case KWaitMm => Take(s, t, Mmap(mm), Wr, Close(a, mm, st), Close(a, mm, KZap))
    case KZap => if at.vma.Mapped? then Act(ZapAtt(a), Close(a, mm, KWaitMutex)) else To(Close(a, mm, KRelMm))
    case KWaitMutex => Take(s, t, AttMutex(a), Wr, Close(a, mm, st), Close(a, mm, KTest))
    case KTest => if at.destroying then To(Close(a, mm, KRelMutex)) else Act(MarkAtt(a, true), Close(a, mm, KUnlink))
    case KUnlink => Act(UnlinkAtt(a), Close(a, mm, KRelMutex))
    case KRelMutex => To(Close(a, mm, KRelMm))
    case KRelMm => To(Idle)
  }

  /** An MMU invalidation of the source address space, run under its mmap lock. */
  function InvalAct(s: State, t: nat, g: nat, mm: nat, st: InvalStage, c: Choice): Act {
    match st
    case IWaitMm => Take(s, t, Mmap(mm), Wr, Inval(g, mm, st), Inval(g, mm, IWalk))
    case IWalk =>
      To(Inval(g, mm, if c.ok && AttWf(s.m, c.pick) && s.m.atts[c.pick].tg == g then IWaitInv(c.pick) else IRelMm))
    case IWaitInv(a) => Take(s, t, InvMutex(a), Wr, Inval(g, mm, st), Inval(g, mm, IClear(a)))
    case IClear(a) => Act(if AttWf(s.m, a) then ClearSome(a, c.lo, c.hi, c.tables) else Nothing, Inval(g, mm, IRelInv(a)))
    case IRelInv(a) => To(Inval(g, mm, IWalk))
    case IRelMm => To(Idle)
  }

  /** xpmem_attach(), kernel/xpmem_attach.c. */
  function AttachAct(s: State, t: nat, q: nat, g: nat, mm: nat, st: AttachStage, c: Choice): Act
    requires SegWf(s.m, q) && s.m.segs[q].tg == g
  {
    var here := Attach(q, g, mm, st);
    match st
    case AWaitSema => Take(s, t, Sema(q), Rd, here, Attach(q, g, mm, ATest))
    case ATest =>
      To(Attach(q, g, mm, if s.m.segs[q].destroying || s.m.tgs[g].destroying || !c.ok then ARelSema else ACreate))
    case ACreate =>
      // the mutex of the new attachment is never contended
      if Free(s, t, AttMutex(|s.m.atts|), Wr) then
        Act(NewAtt(q, g, mm, c.pick + 1), Attach(q, g, mm, ALinked(|s.m.atts|)))
      else To(here)
    case ALinked(a) => To(Attach(q, g, mm, if c.ok then AWaitMm(a) else AFail(a)))
    case AWaitMm(a) => Take(s, t, Mmap(mm), Wr, here, Attach(q, g, mm, AMapped(a)))
    case AMapped(a) => To(Attach(q, g, mm, if c.ok then ASetVma(a) else AFail(a)))
    case ASetVma(a) => Act(if AttWf(s.m, a) then SetVma(a) else Nothing, Attach(q, g, mm, ARelMutex(a)))
    case AFail(a) => Act(if AttWf(s.m, a) then FailAtt(a) else Nothing, Attach(q, g, mm, ARelMutex(a)))
    case ARelMutex(a) => To(Attach(q, g, mm, ARelSema))
    case ARelSema => To(Idle)
  }

  /** The step of a thread at pc, with choice c. */
  function ActOf(s: State, t: nat, pc: Pc, c: Choice): Act {
    match pc
    case Idle => StartAct(s.m, c.op)
    case Fault(f, st) => if CtxOk(s.m, f) then FaultAct(s, t, f, st, c) else To(pc)
    case Recall(g, done, st) => RecallAct(s, t, g, done, st, c)
    case Remove(q, st) => if q < |s.m.segs| then RemoveAct(s, t, q, st, c) else To(pc)
    case Detach(a, mm, byList, st) => if AttWf(s.m, a) then DetachAct(s, t, a, mm, byList, st, c) else To(pc)
    case Close(a, mm, st) => if AttWf(s.m, a) then CloseAct(s, t, a, mm, st) else To(pc)
    case Inval(g, mm, st) => InvalAct(s, t, g, mm, st, c)
    case Attach(q, g, mm, st) =>
      if SegWf(s.m, q) && s.m.segs[q].tg == g then AttachAct(s, t, q, g, mm, st, c) else To(pc)
  }

  function Perform(s: State, t: nat, act: Act): State
    requires t < |s.threads|
  {
    State(if EffectWf(s.m, act.e) then Apply(s.m, act.e) else s.m, s.threads[t := act.pc])
  }

  datatype Event = Event(t: nat, c: Choice)

  /** Events of threads that do not exist are skipped. */
  function Next(s: State, e: Event): State {
    if e.t < |s.threads| then Perform(s, e.t, ActOf(s, e.t, s.threads[e.t], e.c)) else s
  }

  function Run(s: State, events: seq<Event>): State
    decreases |events|
  {
    if events == [] then s else Run(Next(s, events[0]), events[1..])
  }

  /** No group has opened the driver yet, and every thread is idle. */
  function Init(threads: nat): State {
    State(Mem([], [], [], 0, 0), seq(threads, _ => Idle))
  }
}
