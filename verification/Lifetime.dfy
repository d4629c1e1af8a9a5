/**
 Reference counts and teardown over the graph of thread groups, segments, permits and
 attachments, as a step machine over any number of threads.

 One step is one reference taken or dropped, one object created, or one change of flags or
 lists.  `linked` says that the object is on its lookup list; the reference an object is
 created with belongs to the list until the object is unlinked, and then to the thread that
 unlinks it.  A linked permit holds one reference each on its segment and on the segment's
 group; they too pass to the thread that unlinks it.
 */
module Lifetime {

  datatype Kind = Group | Segment | Permit | Attach

  datatype Obj = Obj(
    kind: Kind,
    parent: nat,       // Segment: its group; Permit: its segment; Attach: its permit
    owner: nat,        // Permit: the group it was given to
    top: nat,          // Permit: the group of its segment
    good: bool,        // Attach: linked before its permit was marked DESTROYING
    refcnt: int,
    freed: bool,
    linked: bool,
    destroying: bool,
    mapped: bool,      // Attach: a vma has it as vm_private_data
    done: bool)        // Group: torn down, XPMEM_FLAG_DESTROYED

  /** Who sweeps the attachments of a segment: a fork, which holds its group; an MMU callout, which
      holds none; or the removal of the segment. */
  datatype Home = ForkHome(g: nat) | InvalHome(g: nat) | RemoveHome(g: nat, tearing: bool)

  /** Where a thread goes after dropping references. */
  datatype Then =
    | Return
    | NextPermit(g: nat)
    | NextSegment(g: nat)
    | NextAttach(p: nat, h: nat, tearing: bool)
    | SweepNextSeg(k: Home)
    | SweepNextAp(q: nat, k: Home)
    | SweepNextAtt(p: nat, q: nat, k: Home)

  datatype Slot = No | Ref(o: nat)

  /** References about to be dropped, first to last. */
  datatype Hand = Empty | More(o: nat, rest: Hand)

  datatype Pc =
    | Idle
    | Drop(hand: Hand, next: Then)
      // xpmem_make()
    | MakeHas(g: nat)
      // xpmem_get()
    | GetHas(g: nat)
    | GetSeg(g: nat, q: nat)
    | GetAll(g: nat, q: nat, h: nat)
      // xpmem_attach()
    | AttachHas(h: nat)
    | AttachAp(h: nat, p: nat)
    | AttachSeg(h: nat, p: nat, q: nat)
    | AttachAll(h: nat, p: nat, q: nat, g: nat)
    | AttachNew(h: nat, p: nat, q: nat, g: nat, a: nat)
    | AttachFail(h: nat, p: nat, q: nat, g: nat, a: nat)
      // xpmem_fault_handler()
    | FaultTest(a: nat, p: nat, h: nat)
    | FaultBusy(a: nat, p: nat, h: nat, q: nat, g: nat)
      // xpmem_detach(), and the whole-vma case of xpmem_close_handler()
    | DetachTest(a: nat, p: nat)
    | DetachMarked(a: nat, p: nat)
      // xpmem_release(), and xpmem_release_ap() for each permit of a teardown
    | ReleaseHas(h: nat)
    | Release(p: nat, h: nat, tearing: bool)
    | ReleaseLoop(p: nat, h: nat, tearing: bool)
    | ReleaseAtt(p: nat, h: nat, tearing: bool, a: nat)
    | ReleaseAttMarked(p: nat, h: nat, tearing: bool, a: nat)
      // xpmem_remove(), and xpmem_remove_seg() for each segment of a teardown
    | RemoveHas(g: nat)
    | Remove(q: nat, g: nat, tearing: bool)
    | RemoveMarked(q: nat, g: nat, tearing: bool)
      // xpmem_fork_begin(), xpmem_invalidate_PTEs_range() and xpmem_clear_PTEs_range()
    | SweepSegs(k: Home)
    | SweepAps(q: nat, k: Home)
    | SweepAtts(p: nat, q: nat, k: Home)
    | SweepAtt(a: nat, p: nat, q: nat, k: Home)
      // xpmem_teardown() and xpmem_flush()
    | TearMark(g: nat)
    | TearPermits(g: nat)
    | TearSegments(g: nat)
    | Flush(g: nat)

  datatype State = State(objs: seq<Obj>, threads: seq<Pc>, broken: bool)

  function Ind(x: nat, o: nat): nat {
    if x == o then 1 else 0
  }

  function SlotCount(x: Slot, o: nat): nat {
    if x.Ref? then Ind(x.o, o) else 0
  }

  function HandCount(h: Hand, o: nat): nat {
    match h
    case Empty => 0
    case More(x, rest) => Ind(x, o) + HandCount(rest, o)
  }

  function HomeCount(k: Home, o: nat): nat {
    if k.InvalHome? then 0 else Ind(k.g, o)
  }

  function ThenCount(k: Then, o: nat): nat {
    match k
    case Return => 0
    case NextPermit(g) => Ind(g, o)
    case NextSegment(g) => Ind(g, o)
    case NextAttach(p, h, _) => Ind(p, o) + Ind(h, o)
    case SweepNextSeg(k) => HomeCount(k, o)
    case SweepNextAp(q, k) => Ind(q, o) + HomeCount(k, o)
    case SweepNextAtt(p, q, k) => Ind(p, o) + Ind(q, o) + HomeCount(k, o)
  }

  /** How many references on object o a thread holds in its local variables. */
  function Held(pc: Pc, o: nat): nat {
    match pc
    case Idle => 0
    case Drop(hand, k) => HandCount(hand, o) + ThenCount(k, o)
    case MakeHas(g) => Ind(g, o)
    case GetHas(g) => Ind(g, o)
    case GetSeg(g, q) => Ind(g, o) + Ind(q, o)
    case GetAll(g, q, h) => Ind(g, o) + Ind(q, o) + Ind(h, o)
    case AttachHas(h) => Ind(h, o)
    case AttachAp(h, p) => Ind(h, o) + Ind(p, o)
    case AttachSeg(h, p, q) => Ind(h, o) + Ind(p, o) + Ind(q, o)
    case AttachAll(h, p, q, g) => Ind(h, o) + Ind(p, o) + Ind(q, o) + Ind(g, o)
    case AttachNew(h, p, q, g, a) => Ind(h, o) + Ind(p, o) + Ind(q, o) + Ind(g, o) + Ind(a, o)
    case AttachFail(h, p, q, g, a) => Ind(h, o) + Ind(p, o) + Ind(q, o) + Ind(g, o) + Ind(a, o)
    case FaultTest(a, p, h) => Ind(a, o) + Ind(p, o) + Ind(h, o)
    case FaultBusy(a, p, h, q, g) => Ind(a, o) + Ind(p, o) + Ind(h, o) + Ind(q, o) + Ind(g, o)
    case DetachTest(a, p) => Ind(a, o) + Ind(p, o)
    case DetachMarked(a, p) => Ind(a, o) + Ind(p, o)
    case ReleaseHas(h) => Ind(h, o)
    case Release(p, h, _) => Ind(p, o) + Ind(h, o)
    case ReleaseLoop(p, h, _) => Ind(p, o) + Ind(h, o)
    case ReleaseAtt(p, h, _, a) => Ind(p, o) + Ind(h, o) + Ind(a, o)
    case ReleaseAttMarked(p, h, _, a) => Ind(p, o) + Ind(h, o) + Ind(a, o)
    case RemoveHas(g) => Ind(g, o)
    case Remove(q, g, _) => Ind(q, o) + Ind(g, o)
    case RemoveMarked(q, g, _) => Ind(q, o) + Ind(g, o)
    case SweepSegs(k) => HomeCount(k, o)
    case SweepAps(q, k) => Ind(q, o) + HomeCount(k, o)
    case SweepAtts(p, q, k) => Ind(p, o) + Ind(q, o) + HomeCount(k, o)
    case SweepAtt(a, p, q, k) => Ind(a, o) + Ind(p, o) + Ind(q, o) + HomeCount(k, o)
    case TearMark(g) => Ind(g, o)
    case TearPermits(g) => Ind(g, o)
    case TearSegments(g) => Ind(g, o)
    case Flush(g) => Ind(g, o)
  }

  function Hand1(a: nat): (h: Hand)
    ensures forall o :: HandCount(h, o) == Ind(a, o)
  {
    More(a, Empty)
  }

  function Hand2(a: nat, b: nat): (h: Hand)
    ensures forall o :: HandCount(h, o) == Ind(a, o) + Ind(b, o)
  {
    More(a, Hand1(b))
  }

  function Hand3(a: nat, b: nat, c: nat): (h: Hand)
    ensures forall o :: HandCount(h, o) == Ind(a, o) + Ind(b, o) + Ind(c, o)
  {
    More(a, Hand2(b, c))
  }

  function Hand4(a: nat, b: nat, c: nat, d: nat): (h: Hand)
    ensures forall o :: HandCount(h, o) == Ind(a, o) + Ind(b, o) + Ind(c, o) + Ind(d, o)
  {
    More(a, Hand3(b, c, d))
  }

  function Hand5(a: nat, b: nat, c: nat, d: nat, e: nat): (h: Hand)
    ensures forall o :: HandCount(h, o) == Ind(a, o) + Ind(b, o) + Ind(c, o) + Ind(d, o) + Ind(e, o)
  {
    More(a, Hand4(b, c, d, e))
  }

  function Hand6(a: nat, b: nat, c: nat, d: nat, e: nat, f: nat): (h: Hand)
    ensures forall o :: HandCount(h, o) == Ind(a, o) + Ind(b, o) + Ind(c, o) + Ind(d, o) + Ind(e, o) + Ind(f, o)
  {
    More(a, Hand5(b, c, d, e, f))
  }

  function Drop1(a: nat, k: Then): Pc {
    Drop(Hand1(a), k)
  }

  function Drop2(a: nat, b: nat, k: Then): Pc {
    Drop(Hand2(a, b), k)
  }

  function Drop3(a: nat, b: nat, c: nat, k: Then): Pc {
    Drop(Hand3(a, b, c), k)
  }

  function Drop4(a: nat, b: nat, c: nat, d: nat, k: Then): Pc {
    Drop(Hand4(a, b, c, d), k)
  }

  function Drop5(a: nat, b: nat, c: nat, d: nat, e: nat): Pc {
    Drop(Hand5(a, b, c, d, e), Return)
  }

  function Drop6(a: nat, b: nat, c: nat, d: nat, e: nat, f: nat): Pc {
    Drop(Hand6(a, b, c, d, e, f), Return)
  }

  // ----- Effects -----

  datatype Effect =
    | Nothing
    | Inc(a: Slot, b: Slot, c: Slot)  // xpmem_*_ref() of up to three objects
    | Dec(o: nat)                   // xpmem_*_deref()
    | Add(x: Obj)                   // kzalloc(), xpmem_*_not_destroyable() and list_add_tail()
    | Mark(o: nat, on: bool)        // XPMEM_FLAG_DESTROYING
    | Unlink(o: nat)                // list_del_init()
    | SetMapped(o: nat)
    | SetDone(o: nat)

  function IncCount(e: Effect, o: nat): nat
    requires e.Inc?
  {
    SlotCount(e.a, o) + SlotCount(e.b, o) + SlotCount(e.c, o)
  }

  function Incremented(objs: seq<Obj>, e: Effect): (r: seq<Obj>)
    requires e.Inc?
    ensures |r| == |objs|
  {
    seq(|objs|, i requires 0 <= i < |objs| => objs[i].(refcnt := objs[i].refcnt + IncCount(e, i)))
  }

  predicate SlotFreed(objs: seq<Obj>, x: Slot) {
    x.Ref? && x.o < |objs| && objs[x.o].freed
  }

  /** The effect touches memory that has been freed. */
  predicate Touches(objs: seq<Obj>, e: Effect) {
    match e
    case Inc(a, b, c) => SlotFreed(objs, a) || SlotFreed(objs, b) || SlotFreed(objs, c)
    case Dec(o) => o < |objs| && objs[o].freed
    case Mark(o, _) => o < |objs| && objs[o].freed
    case Unlink(o) => o < |objs| && objs[o].freed
    case SetMapped(o) => o < |objs| && objs[o].freed
    case SetDone(o) => o < |objs| && objs[o].freed
    case _ => false
  }

  /** The last reference frees the object. */
  function Dropped(x: Obj): Obj {
    x.(refcnt := x.refcnt - 1, freed := x.freed || x.refcnt == 1)
  }

  function Apply(objs: seq<Obj>, e: Effect): seq<Obj> {
    match e
    case Nothing => objs
    case Inc(_, _, _) => Incremented(objs, e)
    case Dec(o) =>
      if o < |objs| then objs[o := Dropped(objs[o])] else objs
    case Add(x) => objs + [x]
    case Mark(o, on) => if o < |objs| then objs[o := objs[o].(destroying := on)] else objs
    case Unlink(o) => if o < |objs| then objs[o := objs[o].(linked := false, mapped := false)] else objs
    case SetMapped(o) => if o < |objs| then objs[o := objs[o].(mapped := true)] else objs
    case SetDone(o) => if o < |objs| then objs[o := objs[o].(done := true)] else objs
  }

  // ----- The operations -----

  datatype Op =
    | DoOpen
    | DoMake(g: nat)
    | DoGet(g: nat)
    | DoAttach(h: nat)
    | DoFault(a: nat)
    | DoDetach(a: nat)
    | DoRelease(h: nat)
    | DoRemove(g: nat)
    | DoFork(g: nat)
    | DoInvalidate(g: nat)
    | DoTeardown(g: nat)
    | DoFlush(g: nat)

  /** What a step leaves open: the operation started, success of foreign calls and checks, and
      the object that a lookup or a list gives. */
  datatype Choice = Choice(op: Op, ok: bool, pick: nat)

  datatype Act = Act(e: Effect, pc: Pc)

  function To(pc: Pc): Act {
    Act(Nothing, pc)
  }

  predicate Is(objs: seq<Obj>, o: nat, k: Kind) {
    o < |objs| && objs[o].kind == k
  }

  /** A lookup that does not return objects being destroyed. */
  predicate Found(objs: seq<Obj>, o: nat, k: Kind) {
    Is(objs, o, k) && objs[o].linked && !objs[o].destroying
  }

  const Blank := Obj(Group, 0, 0, 0, false, 1, false, true, false, false, false)

  /** A thread holds the mutex of attachment a, or its mmap lock in the fault handler. */
  predicate AttachBusy(s: State, a: nat) {
    exists u :: 0 <= u < |s.threads| && (s.threads[u].AttachNew? || s.threads[u].AttachFail?) && s.threads[u].a == a
  }

  predicate FaultTesting(s: State, a: nat) {
    exists u :: 0 <= u < |s.threads| && s.threads[u].FaultTest? && s.threads[u].a == a
  }

  function Begin(objs: seq<Obj>, op: Op): Act {
    match op
    case DoOpen => Act(Add(Blank), Idle)
    case DoMake(g) => if Found(objs, g, Group) then Act(Inc(Ref(g), No, No), MakeHas(g)) else To(Idle)
    case DoGet(g) => if Found(objs, g, Group) then Act(Inc(Ref(g), No, No), GetHas(g)) else To(Idle)
    case DoAttach(h) => if Found(objs, h, Group) then Act(Inc(Ref(h), No, No), AttachHas(h)) else To(Idle)
    case DoFault(a) =>
      if Is(objs, a, Attach) && objs[a].mapped && Is(objs, objs[a].parent, Permit) then
        var p := objs[a].parent;
        Act(Inc(Ref(a), Ref(p), Ref(objs[p].owner)), FaultTest(a, p, objs[p].owner))
      else To(Idle)
    case DoDetach(a) =>
      if Is(objs, a, Attach) && objs[a].mapped then
        Act(Inc(Ref(a), Ref(objs[a].parent), No), DetachTest(a, objs[a].parent))
      else To(Idle)
    case DoRelease(h) => if Found(objs, h, Group) then Act(Inc(Ref(h), No, No), ReleaseHas(h)) else To(Idle)
    case DoRemove(g) => if Found(objs, g, Group) then Act(Inc(Ref(g), No, No), RemoveHas(g)) else To(Idle)
    case DoFork(g) => if Found(objs, g, Group) then Act(Inc(Ref(g), No, No), SweepSegs(ForkHome(g))) else To(Idle)
    case DoInvalidate(g) => To(SweepSegs(InvalHome(g)))
    case DoTeardown(g) => if Found(objs, g, Group) then Act(Inc(Ref(g), No, No), TearMark(g)) else To(Idle)
    case DoFlush(g) =>
      if Is(objs, g, Group) && objs[g].linked && objs[g].done then Act(Inc(Ref(g), No, No), Flush(g)) else To(Idle)
  }

  function Continue(k: Then): Pc {
    match k
    case Return => Idle
    case NextPermit(g) => TearPermits(g)
    case NextSegment(g) => TearSegments(g)
    case NextAttach(p, h, tearing) => ReleaseLoop(p, h, tearing)
    case SweepNextSeg(k) => SweepSegs(k)
    case SweepNextAp(q, k) => SweepAps(q, k)
    case SweepNextAtt(p, q, k) => SweepAtts(p, q, k)
  }

  /** xpmem_make(), xpmem_get() */
  function MakeGetAct(objs: seq<Obj>, pc: Pc, c: Choice): Act
    requires pc.MakeHas? || pc.GetHas? || pc.GetSeg? || pc.GetAll?
  {
    match pc
    case MakeHas(g) =>
      if c.ok then Act(Add(Blank.(kind := Segment, parent := g)), Drop1(g, Return))
      else To(Drop1(g, Return))
    case GetHas(g) =>
      if Found(objs, c.pick, Segment) && objs[c.pick].parent == g then Act(Inc(Ref(c.pick), No, No), GetSeg(g, c.pick))
      else To(Drop1(g, Return))
    case GetSeg(g, q) =>
      if c.ok && Found(objs, c.pick, Group) then Act(Inc(Ref(c.pick), No, No), GetAll(g, q, c.pick))
      else To(Drop2(q, g, Return))
    case GetAll(g, q, h) =>
      // the references on segment and group stay with the permit
      if c.ok then Act(Add(Blank.(kind := Permit, parent := q, owner := h, top := g)), Drop1(h, Return))
      else To(Drop3(h, q, g, Return))
  }

  /** xpmem_attach() */
  function AttachAct(objs: seq<Obj>, pc: Pc, c: Choice): Act
    requires pc.AttachHas? || pc.AttachAp? || pc.AttachSeg? || pc.AttachAll? || pc.AttachNew? || pc.AttachFail?
  {
    match pc
    case AttachHas(h) =>
      if Found(objs, c.pick, Permit) && objs[c.pick].owner == h then Act(Inc(Ref(c.pick), No, No), AttachAp(h, c.pick))
      else To(Drop1(h, Return))
    case AttachAp(h, p) =>
      if p < |objs| then Act(Inc(Ref(objs[p].parent), No, No), AttachSeg(h, p, objs[p].parent)) else To(pc)
    case AttachSeg(h, p, q) =>
      if q < |objs| then Act(Inc(Ref(objs[q].parent), No, No), AttachAll(h, p, q, objs[q].parent)) else To(pc)
    case AttachAll(h, p, q, g) =>
      if c.ok && p < |objs| then
        Act(Add(Blank.(kind := Attach, parent := p, good := !objs[p].destroying, refcnt := 2)),
            AttachNew(h, p, q, g, |objs|))
      else To(Drop4(p, h, q, g, Return))
    case AttachNew(h, p, q, g, a) =>
      if c.ok && a < |objs| && objs[a].good then Act(SetMapped(a), Drop5(a, p, h, q, g))
      else Act(Mark(a, true), AttachFail(h, p, q, g, a))
    case AttachFail(h, p, q, g, a) => Act(Unlink(a), Drop6(a, a, p, h, q, g))
  }

  /** xpmem_fault_handler(), xpmem_detach(), xpmem_close_handler() */
  function FaultDetachAct(s: State, pc: Pc, c: Choice): Act
    requires pc.FaultTest? || pc.FaultBusy? || pc.DetachTest? || pc.DetachMarked?
  {
    var objs := s.objs;
    match pc
    case FaultTest(a, p, h) =>
      if p < |objs| && h < |objs| && !objs[p].destroying && !objs[h].destroying then
        Act(Inc(Ref(objs[p].parent), Ref(objs[p].top), No), FaultBusy(a, p, h, objs[p].parent, objs[p].top))
      else To(Drop3(a, p, h, Return))
    case FaultBusy(a, p, h, q, g) => To(Drop5(p, h, g, q, a))
    case DetachTest(a, p) =>
      if AttachBusy(s, a) then To(pc)
      else if a < |objs| && !objs[a].destroying then Act(Mark(a, true), DetachMarked(a, p))
      else To(Drop2(p, a, Return))
    case DetachMarked(a, p) =>
      if !c.ok then Act(Mark(a, false), Drop2(p, a, Return))  // -EACCES
      else if FaultTesting(s, a) then To(pc)
      else Act(Unlink(a), Drop3(a, p, a, Return))
  }

  /** Permit p has an attachment on its list. */
  predicate HasAttach(objs: seq<Obj>, p: nat) {
    exists a :: 0 <= a < |objs| && objs[a].kind == Attach && objs[a].linked && objs[a].parent == p
  }

  function Leave(x: nat, h: nat, next: Then): Pc {
    if next.Return? then Drop2(x, h, Return) else Drop1(x, next)
  }

  /** xpmem_release_ap() */
  function ReleaseAct(objs: seq<Obj>, pc: Pc, c: Choice): Act
    requires pc.ReleaseHas? || pc.Release? || pc.ReleaseLoop?
  {
    match pc
    case ReleaseHas(h) =>
      if Found(objs, c.pick, Permit) && objs[c.pick].owner == h then Act(Inc(Ref(c.pick), No, No), Release(c.pick, h, false))
      else To(Drop1(h, Return))
    case Release(p, h, tearing) =>
      if p < |objs| && !objs[p].destroying then Act(Mark(p, true), ReleaseLoop(p, h, tearing))
      else To(Leave(p, h, if tearing then NextPermit(h) else Return))
    case ReleaseLoop(p, h, tearing) =>
      if Is(objs, c.pick, Attach) && objs[c.pick].linked && objs[c.pick].parent == p then
        Act(Inc(Ref(c.pick), No, No), ReleaseAtt(p, h, tearing, c.pick))
      else if p < |objs| && !HasAttach(objs, p) then
        // takes over the permit's own reference and those on its segment and group
        Act(Unlink(p), if tearing then Drop4(objs[p].parent, objs[p].top, p, p, NextPermit(h))
                       else Drop5(objs[p].parent, objs[p].top, p, p, h))
      else To(pc)
  }

  /** xpmem_detach_att() for an attachment of a permit being released */
  function DetachAttAct(s: State, pc: Pc, c: Choice): Act
    requires pc.ReleaseAtt? || pc.ReleaseAttMarked?
  {
    var objs := s.objs;
    match pc
    case ReleaseAtt(p, h, tearing, a) =>
      if AttachBusy(s, a) then To(pc)
      else if a < |objs| && !objs[a].destroying then Act(Mark(a, true), ReleaseAttMarked(p, h, tearing, a))
      else To(Drop1(a, NextAttach(p, h, tearing)))
    case ReleaseAttMarked(p, h, tearing, a) =>
      if FaultTesting(s, a) then To(pc)
      else if !c.ok && a < |objs| && !objs[a].mapped then To(Drop1(a, NextAttach(p, h, tearing)))  // no vma
      else Act(Unlink(a), Drop2(a, a, NextAttach(p, h, tearing)))
  }

  predicate HasPermit(objs: seq<Obj>, g: nat) {
    exists p :: 0 <= p < |objs| && objs[p].kind == Permit && objs[p].linked && objs[p].owner == g
  }

  predicate HasSegment(objs: seq<Obj>, g: nat) {
    exists q :: 0 <= q < |objs| && objs[q].kind == Segment && objs[q].linked && objs[q].parent == g
  }

  /** xpmem_remove_seg() */
  function RemoveAct(objs: seq<Obj>, pc: Pc, c: Choice): Act
    requires pc.RemoveHas? || pc.Remove? || pc.RemoveMarked?
  {
    match pc
    case RemoveHas(g) =>
      if Found(objs, c.pick, Segment) && objs[c.pick].parent == g then Act(Inc(Ref(c.pick), No, No), Remove(c.pick, g, false))
      else To(Drop1(g, Return))
    case Remove(q, g, tearing) =>
      if q < |objs| && !objs[q].destroying then Act(Mark(q, true), SweepAps(q, RemoveHome(g, tearing)))
      else To(Leave(q, g, if tearing then NextSegment(g) else Return))
    case RemoveMarked(q, g, tearing) =>
      Act(Unlink(q), if tearing then Drop2(q, q, NextSegment(g)) else Drop3(q, q, g, Return))
  }

  /** The walks of a fork, an MMU callout and a removal over segments, permits and attachments; each
      takes its element off a list and may end at any time. */
  function SweepAct(objs: seq<Obj>, pc: Pc, c: Choice): Act
    requires pc.SweepSegs? || pc.SweepAps? || pc.SweepAtts? || pc.SweepAtt?
  {
    match pc
    case SweepSegs(k) =>
      if Found(objs, c.pick, Segment) && objs[c.pick].parent == k.g then Act(Inc(Ref(c.pick), No, No), SweepAps(c.pick, k))
      else To(if k.InvalHome? then Idle else Drop1(k.g, Return))
    case SweepAps(q, k) =>
      if Is(objs, c.pick, Permit) && objs[c.pick].linked && objs[c.pick].parent == q then
        Act(Inc(Ref(c.pick), No, No), SweepAtts(c.pick, q, k))
      else To(if k.RemoveHome? then RemoveMarked(q, k.g, k.tearing) else Drop1(q, SweepNextSeg(k)))
    case SweepAtts(p, q, k) =>
      if Is(objs, c.pick, Attach) && objs[c.pick].linked && objs[c.pick].parent == p then
        Act(Inc(Ref(c.pick), No, No), SweepAtt(c.pick, p, q, k))
      else To(Drop1(p, SweepNextAp(q, k)))
    case SweepAtt(a, p, q, k) => To(Drop1(a, SweepNextAtt(p, q, k)))
  }

  /** xpmem_teardown(), xpmem_flush() */
  function TearAct(objs: seq<Obj>, pc: Pc, c: Choice): Act
    requires pc.TearMark? || pc.TearPermits? || pc.TearSegments? || pc.Flush?
  {
    match pc
    case TearMark(g) =>
      if g < |objs| && !objs[g].destroying then Act(Mark(g, true), TearPermits(g)) else To(Drop1(g, Return))
    case TearPermits(g) =>
      if Is(objs, c.pick, Permit) && objs[c.pick].linked && objs[c.pick].owner == g then
        Act(Inc(Ref(c.pick), No, No), Release(c.pick, g, true))
      else To(if HasPermit(objs, g) then pc else TearSegments(g))
    case TearSegments(g) =>
      if Is(objs, c.pick, Segment) && objs[c.pick].linked && objs[c.pick].parent == g then
        Act(Inc(Ref(c.pick), No, No), Remove(c.pick, g, true))
      else if HasSegment(objs, g) then To(pc)
      else Act(SetDone(g), Drop1(g, Return))
    case Flush(g) =>
      if g < |objs| && objs[g].linked then Act(Unlink(g), Drop2(g, g, Return)) else To(Drop1(g, Return))
  }

  /** The derefs at the end of an operation, in order. */
  function DropAct(h: Hand, k: Then): Act {
    match h
    case Empty => To(Continue(k))
    case More(o, rest) => Act(Dec(o), Drop(rest, k))
  }

  function ActOf(s: State, pc: Pc, c: Choice): Act {
    match pc
    case Idle => Begin(s.objs, c.op)
    case Drop(hand, k) => DropAct(hand, k)
    case MakeHas(_) | GetHas(_) | GetSeg(_, _) | GetAll(_, _, _) => MakeGetAct(s.objs, pc, c)
    case AttachHas(_) | AttachAp(_, _) | AttachSeg(_, _, _) | AttachAll(_, _, _, _) | AttachNew(_, _, _, _, _)
      | AttachFail(_, _, _, _, _) => AttachAct(s.objs, pc, c)
    case FaultTest(_, _, _) | FaultBusy(_, _, _, _, _) | DetachTest(_, _) | DetachMarked(_, _) => FaultDetachAct(s, pc, c)
    case ReleaseHas(_) | Release(_, _, _) | ReleaseLoop(_, _, _) => ReleaseAct(s.objs, pc, c)
    case ReleaseAtt(_, _, _, _) | ReleaseAttMarked(_, _, _, _) => DetachAttAct(s, pc, c)
    case RemoveHas(_) | Remove(_, _, _) | RemoveMarked(_, _, _) => RemoveAct(s.objs, pc, c)
    case SweepSegs(_) | SweepAps(_, _) | SweepAtts(_, _, _) | SweepAtt(_, _, _, _) => SweepAct(s.objs, pc, c)
    case _ => TearAct(s.objs, pc, c)
  }

  datatype Event = Event(t: nat, c: Choice)

  function Next(s: State, e: Event): State {
    if e.t < |s.threads| then
      var act := ActOf(s, s.threads[e.t], e.c);
      State(Apply(s.objs, act.e), s.threads[e.t := act.pc], s.broken || Touches(s.objs, act.e))
    else s
  }

  function Run(s: State, events: seq<Event>): State
    decreases |events|
  {
    if events == [] then s else Run(Next(s, events[0]), events[1..])
  }

  function Init(threads: nat): State {
    State([], seq(threads, _ => Idle), false)
  }
}
