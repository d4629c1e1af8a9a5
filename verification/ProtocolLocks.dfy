/**
 Mutual exclusion: no run of the protocol lets two threads hold one lock in
 incompatible modes.
 */
module ProtocolLocks {
  import opened Locks
  import opened Protocol

  ghost predicate CompatiblePcs(p: Pc, q: Pc) {
    forall l :: Compatible(Holds(p, l), Holds(q, l))
  }

  ghost predicate Exclusion(s: State) {
    forall t, u :: 0 <= t < |s.threads| && 0 <= u < |s.threads| && t != u ==>
      CompatiblePcs(s.threads[t], s.threads[u])
  }

  /** Whatever is held at pc' was held at pc or is free for thread t to take. */
  ghost predicate OnlyTakesFree(s: State, t: nat, pc: Pc, pc': Pc) {
    forall l ::
      || Holds(pc', l) == NotHeld
      || Holds(pc', l) == Holds(pc, l)
      || Free(s, t, l, Holds(pc', l))
  }

  /** The same for a fault, lock by lock. */
  ghost predicate FaultGrows(s: State, t: nat, f: Ctx, st: FaultStage, st': FaultStage) {
    && (FaultGate(st') && !FaultGate(st) ==> Free(s, t, GateLock(f.tg), Blk))
    && (FaultSema(st') && !FaultSema(st) ==> Free(s, t, Sema(f.seg), Rd))
    && (FaultMutex(st') && !FaultMutex(st) ==> Free(s, t, AttMutex(f.att), Wr))
  }

  ghost predicate FaultGrowsMmaps(s: State, t: nat, f: Ctx, st: FaultStage, st': FaultStage) {
    && (FaultCur(st') && !FaultCur(st) ==> Free(s, t, Mmap(f.cur), Rd))
    && (FaultSrc(st') && !FaultSrc(st) ==> Free(s, t, Mmap(f.src), Rd) || (f.src == f.cur && FaultCur(st)))
  }

  lemma FaultActStaysFault(s: State, t: nat, f: Ctx, st: FaultStage, c: Choice)
    requires CtxOk(s.m, f)
    ensures var pc := FaultAct(s, t, f, st, c).pc; pc.Idle? || (pc.Fault? && pc.f == f)
  {
  }

  lemma FaultTakesGate(s: State, t: nat, f: Ctx, st: FaultStage, c: Choice)
    requires CtxOk(s.m, f)
    ensures var pc := FaultAct(s, t, f, st, c).pc;
            pc.Fault? && FaultGate(pc.fs) && !FaultGate(st) ==> Free(s, t, GateLock(f.tg), Blk)
  {
  }

  lemma FaultTakesSema(s: State, t: nat, f: Ctx, st: FaultStage, c: Choice)
    requires CtxOk(s.m, f)
    ensures var pc := FaultAct(s, t, f, st, c).pc;
            pc.Fault? && FaultSema(pc.fs) && !FaultSema(st) ==> Free(s, t, Sema(f.seg), Rd)
  {
  }

  lemma FaultTakesMutex(s: State, t: nat, f: Ctx, st: FaultStage, c: Choice)
    requires CtxOk(s.m, f)
    ensures var pc := FaultAct(s, t, f, st, c).pc;
            pc.Fault? && FaultMutex(pc.fs) && !FaultMutex(st) ==> Free(s, t, AttMutex(f.att), Wr)
  {
  }

  lemma FaultActGrowsMmaps(s: State, t: nat, f: Ctx, st: FaultStage, c: Choice)
    requires CtxOk(s.m, f)
    ensures var pc := FaultAct(s, t, f, st, c).pc; pc.Fault? ==> FaultGrowsMmaps(s, t, f, st, pc.fs)
  {
  }

  lemma FaultGrowsTakes(s: State, t: nat, f: Ctx, st: FaultStage, st': FaultStage)
    requires FaultGrows(s, t, f, st, st') && FaultGrowsMmaps(s, t, f, st, st')
    ensures OnlyTakesFree(s, t, Fault(f, st), Fault(f, st'))
  {
  }

  lemma RecallTakes(s: State, t: nat, g: nat, done: set<nat>, st: RecallStage, c: Choice)
    ensures OnlyTakesFree(s, t, Recall(g, done, st), RecallAct(s, t, g, done, st, c).pc)
  {
  }

  lemma RemoveTakes(s: State, t: nat, q: nat, st: RemoveStage, c: Choice)
    requires q < |s.m.segs|
    ensures OnlyTakesFree(s, t, Remove(q, st), RemoveAct(s, t, q, st, c).pc)
  {
  }

  lemma DetachActGrows(s: State, t: nat, a: nat, mm: nat, byList: bool, st: DetachStage, c: Choice)
    requires AttWf(s.m, a)
    ensures var pc := DetachAct(s, t, a, mm, byList, st, c).pc;
            || pc.Idle?
            || (&& pc.Detach? && pc.att == a && pc.mm == mm
                && (DetachMm(pc.ds) && !DetachMm(st) ==> Free(s, t, Mmap(mm), Wr))
                && (DetachMutex(pc.ds) && !DetachMutex(st) ==> Free(s, t, AttMutex(a), Wr))
                && (DetachInv(pc.ds) && !DetachInv(st) ==> Free(s, t, InvMutex(a), Wr)))
  {
  }

  lemma DetachTakes(s: State, t: nat, a: nat, mm: nat, byList: bool, st: DetachStage, c: Choice)
    requires AttWf(s.m, a)
    ensures OnlyTakesFree(s, t, Detach(a, mm, byList, st), DetachAct(s, t, a, mm, byList, st, c).pc)
  {
    DetachActGrows(s, t, a, mm, byList, st, c);
    var pc := DetachAct(s, t, a, mm, byList, st, c).pc;
    forall l | Holds(pc, l) != NotHeld
      ensures Holds(pc, l) == DetachHolds(a, mm, pc.ds, l) && pc.Detach?
    {
    }
  }

  lemma CloseTakes(s: State, t: nat, a: nat, mm: nat, st: CloseStage)
    requires AttWf(s.m, a)
    ensures OnlyTakesFree(s, t, Close(a, mm, st), CloseAct(s, t, a, mm, st).pc)
  {
  }

  lemma InvalTakes(s: State, t: nat, g: nat, mm: nat, st: InvalStage, c: Choice)
    ensures OnlyTakesFree(s, t, Inval(g, mm, st), InvalAct(s, t, g, mm, st, c).pc)
  {
  }

  lemma AttachTakes(s: State, t: nat, q: nat, g: nat, mm: nat, st: AttachStage, c: Choice)
    requires SegWf(s.m, q) && s.m.segs[q].tg == g
    ensures OnlyTakesFree(s, t, Attach(q, g, mm, st), AttachAct(s, t, q, g, mm, st, c).pc)
  {
  }

  lemma StartTakes(s: State, t: nat, op: Op)
    ensures OnlyTakesFree(s, t, Idle, StartAct(s.m, op).pc)
  {
  }

  lemma ActTakes(s: State, t: nat, pc: Pc, c: Choice)
    ensures OnlyTakesFree(s, t, pc, ActOf(s, t, pc, c).pc)
  {
    match pc {
      case Idle => StartTakes(s, t, c.op);
      case Fault(f, st) =>
        if CtxOk(s.m, f) {
          FaultActStaysFault(s, t, f, st, c);
          FaultTakesGate(s, t, f, st, c);
          FaultTakesSema(s, t, f, st, c);
          FaultTakesMutex(s, t, f, st, c);
          FaultActGrowsMmaps(s, t, f, st, c);
          var pc' := FaultAct(s, t, f, st, c).pc;
          if pc'.Fault? {
            FaultGrowsTakes(s, t, f, st, pc'.fs);
          }
        }
      case Recall(g, done, st) => RecallTakes(s, t, g, done, st, c);
      case Remove(q, st) => if q < |s.m.segs| { RemoveTakes(s, t, q, st, c); }
      case Detach(a, mm, byList, st) => if AttWf(s.m, a) { DetachTakes(s, t, a, mm, byList, st, c); }
      case Close(a, mm, st) => if AttWf(s.m, a) { CloseTakes(s, t, a, mm, st); }
      case Inval(g, mm, st) => InvalTakes(s, t, g, mm, st, c);
      case Attach(q, g, mm, st) =>
        if SegWf(s.m, q) && s.m.segs[q].tg == g { AttachTakes(s, t, q, g, mm, st, c); }
    }
  }

  lemma TakingKeepsExclusion(s: State, t: nat, m': Mem, pc': Pc)
    requires t < |s.threads| && Exclusion(s) && OnlyTakesFree(s, t, s.threads[t], pc')
    ensures Exclusion(State(m', s.threads[t := pc']))
  {
    var threads := s.threads[t := pc'];
    forall u | 0 <= u < |threads| && u != t
      ensures CompatiblePcs(pc', threads[u]) && CompatiblePcs(threads[u], pc')
    {
      assert CompatiblePcs(s.threads[t], s.threads[u]);
    }
  }

  lemma NextKeepsExclusion(s: State, e: Event)
    requires Exclusion(s)
    ensures Exclusion(Next(s, e))
  {
    if e.t < |s.threads| {
      var act := ActOf(s, e.t, s.threads[e.t], e.c);
      ActTakes(s, e.t, s.threads[e.t], e.c);
      TakingKeepsExclusion(s, e.t, Perform(s, e.t, act).m, act.pc);
    }
  }
}
