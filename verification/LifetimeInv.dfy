/**
 The invariant of the reference-counting machine: what each thread knows of the objects it
 refers to, and that every object being destroyed has one thread that destroys it.
 */
module LifetimeInv {
  import opened Lifetime

  // ----- What a thread knows -----

  predicate Tearing(objs: seq<Obj>, g: nat) {
    Is(objs, g, Group) && objs[g].destroying
  }

  predicate Releasing(objs: seq<Obj>, p: nat, h: nat, tearing: bool) {
    && Is(objs, p, Permit) && objs[p].destroying && objs[p].linked
    && (tearing ==> Tearing(objs, h))
  }

  /** What the removal that sweeps segment q knows of it. */
  predicate SweepOk(objs: seq<Obj>, q: nat, k: Home) {
    k.RemoveHome? ==>
      Is(objs, q, Segment) && objs[q].linked && objs[q].destroying && (k.tearing ==> Tearing(objs, k.g))
  }

  predicate ThenOk(objs: seq<Obj>, k: Then) {
    match k
    case Return => true
    case NextPermit(g) => Tearing(objs, g)
    case NextSegment(g) => Tearing(objs, g)
    case NextAttach(p, h, tearing) => Releasing(objs, p, h, tearing)
    case SweepNextSeg(k) => !k.RemoveHome?
    case SweepNextAp(q, k) => SweepOk(objs, q, k)
    case SweepNextAtt(_, q, k) => SweepOk(objs, q, k)
  }

  predicate AttOf(objs: seq<Obj>, a: nat, p: nat) {
    Is(objs, a, Attach) && objs[a].parent == p
  }

  predicate Knows(objs: seq<Obj>, pc: Pc) {
    match pc
    case Idle => true
    case Drop(_, k) => ThenOk(objs, k)
    case MakeHas(g) => Is(objs, g, Group)
    case GetHas(g) => Is(objs, g, Group)
    case GetSeg(g, q) => Is(objs, g, Group) && Is(objs, q, Segment) && objs[q].parent == g
    case GetAll(g, q, h) =>
      Is(objs, g, Group) && Is(objs, q, Segment) && objs[q].parent == g && Is(objs, h, Group)
    case AttachHas(_) => true
    case AttachAp(_, p) => Is(objs, p, Permit)
    case AttachSeg(_, p, q) => Is(objs, p, Permit) && objs[p].parent == q
    case AttachAll(_, p, q, g) => Is(objs, p, Permit) && objs[p].parent == q && objs[p].top == g
    case AttachNew(_, p, _, _, a) =>
      Is(objs, p, Permit) && AttOf(objs, a, p) && objs[a].linked && !objs[a].destroying && !objs[a].mapped
    case AttachFail(_, p, _, _, a) =>
      Is(objs, p, Permit) && AttOf(objs, a, p) && objs[a].linked && objs[a].destroying && !objs[a].mapped
    case FaultTest(a, p, h) => AttOf(objs, a, p) && objs[a].mapped && Is(objs, p, Permit) && objs[p].owner == h
    case FaultBusy(_, _, _, _, _) => true
    case DetachTest(a, p) => AttOf(objs, a, p) && objs[a].good
    case DetachMarked(a, p) => AttOf(objs, a, p) && objs[a].linked && objs[a].destroying
    case ReleaseHas(_) => true
    case Release(p, h, tearing) => Is(objs, p, Permit) && (tearing ==> Tearing(objs, h))
    case ReleaseLoop(p, h, tearing) => Releasing(objs, p, h, tearing)
    case ReleaseAtt(p, h, tearing, a) => Releasing(objs, p, h, tearing) && AttOf(objs, a, p)
    case ReleaseAttMarked(p, h, tearing, a) =>
      Releasing(objs, p, h, tearing) && AttOf(objs, a, p) && objs[a].linked && objs[a].destroying
    case RemoveHas(_) => true
    case Remove(q, g, tearing) => Is(objs, q, Segment) && (tearing ==> Tearing(objs, g))
    case RemoveMarked(q, g, tearing) =>
      Is(objs, q, Segment) && objs[q].linked && objs[q].destroying && (tearing ==> Tearing(objs, g))
    case SweepSegs(k) => !k.RemoveHome?
    case SweepAps(q, k) => SweepOk(objs, q, k)
    case SweepAtts(_, q, k) => SweepOk(objs, q, k)
    case SweepAtt(_, _, q, k) => SweepOk(objs, q, k)
    case TearMark(g) => Is(objs, g, Group)
    case TearPermits(g) => Tearing(objs, g)
    case TearSegments(g) => Tearing(objs, g)
    case Flush(g) => Is(objs, g, Group)
  }

  ghost predicate InRange(objs: seq<Obj>, pc: Pc) {
    forall o: nat :: Held(pc, o) > 0 ==> o < |objs|
  }

  // ----- Who destroys what -----

  /** The object that only this thread may mark or unlink. */
  predicate Owns(pc: Pc, o: nat) {
    match pc
    case AttachNew(_, _, _, _, a) => a == o
    case AttachFail(_, _, _, _, a) => a == o
    case DetachMarked(a, _) => a == o
    case ReleaseLoop(p, _, _) => p == o
    case ReleaseAtt(p, _, _, _) => p == o
    case ReleaseAttMarked(p, _, _, a) => p == o || a == o
    case RemoveMarked(q, _, _) => q == o
    case SweepAps(q, k) => k.RemoveHome? && q == o
    case SweepAtts(_, q, k) => k.RemoveHome? && q == o
    case SweepAtt(_, _, q, k) => k.RemoveHome? && q == o
    case Drop(_, next) =>
      || (next.NextAttach? && next.p == o)
      || ((next.SweepNextAp? || next.SweepNextAtt?) && next.k.RemoveHome? && next.q == o)
    case _ => false
  }

  ghost predicate SoleOwners(s: State) {
    forall t, u, o :: 0 <= t < |s.threads| && 0 <= u < |s.threads| && t != u && Owns(s.threads[t], o) ==>
      !Owns(s.threads[u], o)
  }

  // ----- What holds of the objects -----

  predicate ObjOk(objs: seq<Obj>, o: nat)
    requires o < |objs|
  {
    var x := objs[o];
    && x.parent < |objs| && x.owner < |objs| && x.top < |objs|
    && (x.kind == Segment ==> objs[x.parent].kind == Group)
    && (x.kind == Permit ==>
         && objs[x.parent].kind == Segment && objs[x.parent].parent == x.top
         && objs[x.owner].kind == Group && objs[x.top].kind == Group)
    && (x.kind == Attach ==> objs[x.parent].kind == Permit && (x.linked && x.good ==> objs[x.parent].linked))
    && (x.kind != Group && !x.destroying ==> x.linked)
    && (x.mapped ==> x.kind == Attach && x.linked && x.good)
  }

  ghost predicate MemOk(objs: seq<Obj>) {
    forall o :: 0 <= o < |objs| ==> ObjOk(objs, o)
  }

  ghost predicate Inv(s: State) {
    && MemOk(s.objs)
    && SoleOwners(s)
    && (forall t :: 0 <= t < |s.threads| ==> InRange(s.objs, s.threads[t]) && Knows(s.objs, s.threads[t]))
  }

  // ----- Effects and who performs them -----

  predicate SlotIn(objs: seq<Obj>, x: Slot) {
    x.Ref? ==> x.o < |objs|
  }

  /** What the performer of an effect knows. */
  predicate Facts(objs: seq<Obj>, pc: Pc, e: Effect) {
    match e
    case Nothing => true
    case Inc(a, b, c) => SlotIn(objs, a) && SlotIn(objs, b) && SlotIn(objs, c)
    case Dec(o) => o < |objs|
    case Add(x) =>
      && !x.destroying && x.linked && !x.mapped && !x.done && !x.freed
      && (match x.kind
          case Group => pc.Idle? && x == Blank
          case Segment => pc.MakeHas? && x.parent == pc.g && x.owner == 0 && x.top == 0 && x.refcnt == 1
          case Permit => pc.GetAll? && x.parent == pc.q && x.owner == pc.h && x.top == pc.g && x.refcnt == 1
          case Attach => && pc.AttachAll? && x.parent == pc.p && x.owner == 0 && x.top == 0 && x.refcnt == 2
                         && pc.p < |objs| && x.good == !objs[pc.p].destroying)
    case Mark(o, on) =>
      && o < |objs| && Held(pc, o) > 0 && (pc.AttachNew? ==> pc.a == o)
      && (if on then !objs[o].destroying && (objs[o].kind == Group ==> pc == TearMark(o))
          else pc.DetachMarked? && pc.a == o)
    case Unlink(o) =>
      && o < |objs| && Held(pc, o) > 0 && objs[o].linked && (pc.AttachFail? ==> pc.a == o)
      && (objs[o].kind == Group ==> pc == Flush(o))
      && (objs[o].kind != Group ==> objs[o].destroying && Owns(pc, o))
      && (objs[o].kind == Permit ==> !HasAttach(objs, o))
    case SetMapped(o) => o < |objs| && pc.AttachNew? && pc.a == o && objs[o].good
    case SetDone(o) => o < |objs| && pc == TearSegments(o) && !HasSegment(objs, o)
  }

  /** Others cannot be at work on an attachment that is marked or unmapped. */
  predicate Guarded(s: State, pc: Pc, e: Effect) {
    && (e.Mark? && e.on && !pc.AttachNew? ==> !AttachBusyKind(s, e.o))
    && (e.Unlink? && !pc.AttachFail? ==> !FaultTestingKind(s, e.o))
  }

  predicate AttachBusyKind(s: State, o: nat) {
    Is(s.objs, o, Attach) && AttachBusy(s, o)
  }

  predicate FaultTestingKind(s: State, o: nat) {
    Is(s.objs, o, Attach) && FaultTesting(s, o)
  }

  /** A thread comes to own an object by marking or creating it. */
  ghost predicate Inherits(s: State, pc: Pc, act: Act) {
    forall o :: Owns(act.pc, o) && !Owns(pc, o) ==> act.e == Mark(o, true) || (act.e.Add? && o == |s.objs|)
  }

  /** The act leads to a program counter that knows what it claims; references alone change
      nothing that is claimed. */
  ghost predicate LeadsOn(s: State, pc: Pc, act: Act) {
    && Inherits(s, pc, act)
    && Knows(if act.e.Inc? || act.e.Dec? then s.objs else Apply(s.objs, act.e), act.pc)
  }

  /** References a thread gains by an effect. */
  function Gain(objs: seq<Obj>, e: Effect, o: nat): int {
    match e
    case Inc(_, _, _) => IncCount(e, o)
    case Dec(x) => 0 - Ind(x, o)
    case Add(x) =>
      if x.kind == Permit then 0 - Ind(x.parent, o) - Ind(x.top, o)
      else if x.kind == Attach then Ind(|objs|, o)
      else 0
    case Unlink(x) =>
      if x < |objs| && objs[x].kind == Permit then Ind(x, o) + Ind(objs[x].parent, o) + Ind(objs[x].top, o)
      else Ind(x, o)
    case _ => 0
  }

  lemma MappedIsLinked(objs: seq<Obj>, a: nat)
    requires MemOk(objs)
    ensures a < |objs| && objs[a].mapped ==>
              && objs[a].kind == Attach && objs[a].linked && objs[a].good
              && Is(objs, objs[a].parent, Permit) && objs[objs[a].parent].linked
              && Is(objs, objs[objs[a].parent].owner, Group)
  {
    if a < |objs| && objs[a].mapped {
      assert ObjOk(objs, a);
      assert ObjOk(objs, objs[a].parent);
    }
  }

  lemma BeginFacts(s: State, pc: Pc, c: Choice)
    requires pc.Idle?
    requires MemOk(s.objs) && InRange(s.objs, pc) && Knows(s.objs, pc)
    ensures var act := Begin(s.objs, c.op); Facts(s.objs, pc, act.e) && Guarded(s, pc, act.e)
  {
    match c.op {
      case DoFault(a) => MappedIsLinked(s.objs, a);
      case DoDetach(a) => MappedIsLinked(s.objs, a);
      case _ =>
    }
  }

  lemma BeginKnows(s: State, pc: Pc, c: Choice)
    requires pc.Idle?
    requires MemOk(s.objs) && Knows(s.objs, pc)
    ensures var act := Begin(s.objs, c.op); LeadsOn(s, pc, act)
  {
    match c.op {
      case DoFault(a) => MappedIsLinked(s.objs, a);
      case DoDetach(a) => MappedIsLinked(s.objs, a);
      case _ =>
    }
  }

  lemma MappedGain(s: State, c: Choice, o: nat)
    requires c.op.DoFault? || c.op.DoDetach?
    ensures var act := Begin(s.objs, c.op); Held(act.pc, o) == Gain(s.objs, act.e, o)
  {
  }

  lemma EnderGain(s: State, c: Choice, o: nat)
    requires c.op.DoRelease? || c.op.DoRemove? || c.op.DoFork? || c.op.DoInvalidate? || c.op.DoTeardown? || c.op.DoFlush?
    ensures var act := Begin(s.objs, c.op); Held(act.pc, o) == Gain(s.objs, act.e, o)
  {
  }

  lemma MakerGain(s: State, c: Choice, o: nat)
    requires c.op.DoOpen? || c.op.DoMake? || c.op.DoGet? || c.op.DoAttach?
    ensures var act := Begin(s.objs, c.op); Held(act.pc, o) == Gain(s.objs, act.e, o)
  {
  }

  lemma BeginGain(s: State, pc: Pc, c: Choice, o: nat)
    requires pc.Idle?
    requires Knows(s.objs, pc)
    ensures var act := Begin(s.objs, c.op); Held(act.pc, o) == Held(pc, o) + Gain(s.objs, act.e, o)
  {
    if c.op.DoFault? || c.op.DoDetach? {
      MappedGain(s, c, o);
    } else if c.op.DoOpen? || c.op.DoMake? || c.op.DoGet? || c.op.DoAttach? {
      MakerGain(s, c, o);
    } else {
      EnderGain(s, c, o);
    }
  }

  lemma MakeGetFacts(s: State, pc: Pc, c: Choice)
    requires pc.MakeHas? || pc.GetHas? || pc.GetSeg? || pc.GetAll?
    requires MemOk(s.objs) && InRange(s.objs, pc) && Knows(s.objs, pc)
    ensures var act := MakeGetAct(s.objs, pc, c); Facts(s.objs, pc, act.e) && Guarded(s, pc, act.e)
  {
  }

  lemma MakeGetKnows(s: State, pc: Pc, c: Choice)
    requires pc.MakeHas? || pc.GetHas? || pc.GetSeg? || pc.GetAll?
    requires MemOk(s.objs) && Knows(s.objs, pc)
    ensures var act := MakeGetAct(s.objs, pc, c); LeadsOn(s, pc, act)
  {
  }

  lemma MakeGetGain(s: State, pc: Pc, c: Choice, o: nat)
    requires pc.MakeHas? || pc.GetHas? || pc.GetSeg? || pc.GetAll?
    requires Knows(s.objs, pc)
    ensures var act := MakeGetAct(s.objs, pc, c); Held(act.pc, o) == Held(pc, o) + Gain(s.objs, act.e, o)
  {
  }

  lemma AttachFacts(s: State, pc: Pc, c: Choice)
    requires pc.AttachHas? || pc.AttachAp? || pc.AttachSeg? || pc.AttachAll? || pc.AttachNew? || pc.AttachFail?
    requires MemOk(s.objs) && InRange(s.objs, pc) && Knows(s.objs, pc)
    ensures var act := AttachAct(s.objs, pc, c); Facts(s.objs, pc, act.e) && Guarded(s, pc, act.e)
  {
    match pc {
      case AttachAp(_, p) => assert ObjOk(s.objs, p);
      case AttachSeg(_, p, q) =>
        assert ObjOk(s.objs, p);
        assert ObjOk(s.objs, q);
      case _ =>
    }
  }

  lemma AttachKnows(s: State, pc: Pc, c: Choice)
    requires pc.AttachHas? || pc.AttachAp? || pc.AttachSeg? || pc.AttachAll? || pc.AttachNew? || pc.AttachFail?
    requires MemOk(s.objs) && Knows(s.objs, pc)
    ensures var act := AttachAct(s.objs, pc, c); LeadsOn(s, pc, act)
  {
    match pc {
      case AttachAp(_, p) => assert ObjOk(s.objs, p);
      case AttachSeg(_, p, q) =>
        assert ObjOk(s.objs, p);
        assert ObjOk(s.objs, q);
      case _ =>
    }
  }

  lemma AttachGain(s: State, pc: Pc, c: Choice, o: nat)
    requires pc.AttachHas? || pc.AttachAp? || pc.AttachSeg? || pc.AttachAll? || pc.AttachNew? || pc.AttachFail?
    requires Knows(s.objs, pc)
    ensures var act := AttachAct(s.objs, pc, c); Held(act.pc, o) == Held(pc, o) + Gain(s.objs, act.e, o)
  {
  }

  lemma FaultDetachFacts(s: State, pc: Pc, c: Choice)
    requires pc.FaultTest? || pc.FaultBusy? || pc.DetachTest? || pc.DetachMarked?
    requires MemOk(s.objs) && InRange(s.objs, pc) && Knows(s.objs, pc)
    ensures var act := FaultDetachAct(s, pc, c); Facts(s.objs, pc, act.e) && Guarded(s, pc, act.e)
  {
    match pc {
      case FaultTest(_, p, _) => assert ObjOk(s.objs, p);
      case DetachTest(a, _) => assert ObjOk(s.objs, a);
      case _ =>
    }
  }

  lemma FaultDetachKnows(s: State, pc: Pc, c: Choice)
    requires pc.FaultTest? || pc.FaultBusy? || pc.DetachTest? || pc.DetachMarked?
    requires MemOk(s.objs) && Knows(s.objs, pc)
    ensures var act := FaultDetachAct(s, pc, c); LeadsOn(s, pc, act)
  {
    match pc {
      case FaultTest(_, p, _) => assert ObjOk(s.objs, p);
      case DetachTest(a, _) => assert ObjOk(s.objs, a);
      case _ =>
    }
  }

  lemma FaultDetachGain(s: State, pc: Pc, c: Choice, o: nat)
    requires pc.FaultTest? || pc.FaultBusy? || pc.DetachTest? || pc.DetachMarked?
    requires Knows(s.objs, pc)
    ensures var act := FaultDetachAct(s, pc, c); Held(act.pc, o) == Held(pc, o) + Gain(s.objs, act.e, o)
  {
  }

  lemma ReleaseFacts(s: State, pc: Pc, c: Choice)
    requires pc.ReleaseHas? || pc.Release? || pc.ReleaseLoop?
    requires MemOk(s.objs) && InRange(s.objs, pc) && Knows(s.objs, pc)
    ensures var act := ReleaseAct(s.objs, pc, c); Facts(s.objs, pc, act.e) && Guarded(s, pc, act.e)
  {
    if pc.Release? {
      assert ObjOk(s.objs, pc.p);
    }
  }

  lemma ReleaseKnows(s: State, pc: Pc, c: Choice)
    requires pc.ReleaseHas? || pc.Release? || pc.ReleaseLoop?
    requires MemOk(s.objs) && Knows(s.objs, pc)
    ensures var act := ReleaseAct(s.objs, pc, c); LeadsOn(s, pc, act)
  {
    if pc.Release? {
      assert ObjOk(s.objs, pc.p);
    }
  }

  lemma ReleaseLoopGain(s: State, pc: Pc, c: Choice, o: nat)
    requires pc.ReleaseLoop? && Knows(s.objs, pc)
    ensures var act := ReleaseAct(s.objs, pc, c); Held(act.pc, o) == Held(pc, o) + Gain(s.objs, act.e, o)
  {
  }

  lemma ReleaseGain(s: State, pc: Pc, c: Choice, o: nat)
    requires pc.ReleaseHas? || pc.Release? || pc.ReleaseLoop?
    requires Knows(s.objs, pc)
    ensures var act := ReleaseAct(s.objs, pc, c); Held(act.pc, o) == Held(pc, o) + Gain(s.objs, act.e, o)
  {
    if pc.ReleaseLoop? {
      ReleaseLoopGain(s, pc, c, o);
    }
  }

  lemma DetachAttFacts(s: State, pc: Pc, c: Choice)
    requires pc.ReleaseAtt? || pc.ReleaseAttMarked?
    requires MemOk(s.objs) && InRange(s.objs, pc) && Knows(s.objs, pc)
    ensures var act := DetachAttAct(s, pc, c); Facts(s.objs, pc, act.e) && Guarded(s, pc, act.e)
  {
    assert ObjOk(s.objs, pc.a);
  }

  lemma DetachAttKnows(s: State, pc: Pc, c: Choice)
    requires pc.ReleaseAtt? || pc.ReleaseAttMarked?
    requires MemOk(s.objs) && Knows(s.objs, pc)
    ensures var act := DetachAttAct(s, pc, c); LeadsOn(s, pc, act)
  {
    assert ObjOk(s.objs, pc.a);
  }

  lemma DetachAttGain(s: State, pc: Pc, c: Choice, o: nat)
    requires pc.ReleaseAtt? || pc.ReleaseAttMarked?
    requires Knows(s.objs, pc)
    ensures var act := DetachAttAct(s, pc, c); Held(act.pc, o) == Held(pc, o) + Gain(s.objs, act.e, o)
  {
  }

  lemma RemoveFacts(s: State, pc: Pc, c: Choice)
    requires pc.RemoveHas? || pc.Remove? || pc.RemoveMarked?
    requires MemOk(s.objs) && InRange(s.objs, pc) && Knows(s.objs, pc)
    ensures var act := RemoveAct(s.objs, pc, c); Facts(s.objs, pc, act.e) && Guarded(s, pc, act.e)
  {
    if pc.Remove? {
      assert ObjOk(s.objs, pc.q);
    }
  }

  lemma RemoveKnows(s: State, pc: Pc, c: Choice)
    requires pc.RemoveHas? || pc.Remove? || pc.RemoveMarked?
    requires MemOk(s.objs) && Knows(s.objs, pc)
    ensures var act := RemoveAct(s.objs, pc, c); LeadsOn(s, pc, act)
  {
    if pc.Remove? {
      assert ObjOk(s.objs, pc.q);
    }
  }

  lemma RemoveGain(s: State, pc: Pc, c: Choice, o: nat)
    requires pc.RemoveHas? || pc.Remove? || pc.RemoveMarked?
    requires Knows(s.objs, pc)
    ensures var act := RemoveAct(s.objs, pc, c); Held(act.pc, o) == Held(pc, o) + Gain(s.objs, act.e, o)
  {
  }

  lemma SweepFacts(s: State, pc: Pc, c: Choice)
    requires pc.SweepSegs? || pc.SweepAps? || pc.SweepAtts? || pc.SweepAtt?
    ensures var act := SweepAct(s.objs, pc, c); Facts(s.objs, pc, act.e) && Guarded(s, pc, act.e)
  {
  }

  lemma SweepKnows(s: State, pc: Pc, c: Choice)
    requires pc.SweepSegs? || pc.SweepAps? || pc.SweepAtts? || pc.SweepAtt?
    requires Knows(s.objs, pc)
    ensures var act := SweepAct(s.objs, pc, c); LeadsOn(s, pc, act)
  {
  }

  lemma SweepLeaves(s: State, pc: Pc, c: Choice, o: nat)
    requires pc.SweepSegs? || pc.SweepAps? || pc.SweepAtts? || pc.SweepAtt?
    requires SweepAct(s.objs, pc, c).e.Nothing?
    ensures Held(SweepAct(s.objs, pc, c).pc, o) == Held(pc, o)
  {
  }

  lemma SweepTakes(s: State, pc: Pc, c: Choice, o: nat)
    requires pc.SweepSegs? || pc.SweepAps? || pc.SweepAtts?
    requires !SweepAct(s.objs, pc, c).e.Nothing?
    ensures SweepAct(s.objs, pc, c).e == Inc(Ref(c.pick), No, No)
    ensures Held(SweepAct(s.objs, pc, c).pc, o) == Held(pc, o) + Ind(c.pick, o)
  {
  }

  lemma SweepGain(s: State, pc: Pc, c: Choice, o: nat)
    requires pc.SweepSegs? || pc.SweepAps? || pc.SweepAtts? || pc.SweepAtt?
    ensures var act := SweepAct(s.objs, pc, c); Held(act.pc, o) == Held(pc, o) + Gain(s.objs, act.e, o)
  {
    if SweepAct(s.objs, pc, c).e.Nothing? {
      SweepLeaves(s, pc, c, o);
    } else {
      SweepTakes(s, pc, c, o);
    }
  }

  lemma TearFacts(s: State, pc: Pc, c: Choice)
    requires pc.TearMark? || pc.TearPermits? || pc.TearSegments? || pc.Flush?
    requires MemOk(s.objs) && InRange(s.objs, pc) && Knows(s.objs, pc)
    ensures var act := TearAct(s.objs, pc, c); Facts(s.objs, pc, act.e) && Guarded(s, pc, act.e)
  {
  }

  lemma TearLoopKnows(s: State, pc: Pc, c: Choice)
    requires pc.TearPermits? || pc.TearSegments?
    requires Knows(s.objs, pc)
    ensures var act := TearAct(s.objs, pc, c); LeadsOn(s, pc, act)
  {
  }

  lemma TearKnows(s: State, pc: Pc, c: Choice)
    requires pc.TearMark? || pc.TearPermits? || pc.TearSegments? || pc.Flush?
    requires MemOk(s.objs) && Knows(s.objs, pc)
    ensures var act := TearAct(s.objs, pc, c); LeadsOn(s, pc, act)
  {
    if pc.TearPermits? || pc.TearSegments? {
      TearLoopKnows(s, pc, c);
    }
  }

  lemma TearGain(s: State, pc: Pc, c: Choice, o: nat)
    requires pc.TearMark? || pc.TearPermits? || pc.TearSegments? || pc.Flush?
    requires Knows(s.objs, pc)
    ensures var act := TearAct(s.objs, pc, c); Held(act.pc, o) == Held(pc, o) + Gain(s.objs, act.e, o)
  {
  }
}
