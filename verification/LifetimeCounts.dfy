/**
 Every run keeps the reference counts right: a count is the reference of the lists plus the
 references of linked permits plus those that threads hold.  Hence no listed object is freed,
 nothing is freed twice, nothing freed is touched, and after teardown nothing is left.
 */
module LifetimeCounts {
  import opened Sums
  import opened Lifetime
  import opened LifetimeInv
  import opened LifetimeSafety

  // ----- Counts -----

  function Grants(x: Obj, o: nat): nat {
    if x.kind == Permit && x.linked then Ind(x.parent, o) + Ind(x.top, o) else 0
  }

  function GrantWeights(objs: seq<Obj>, o: nat): (r: seq<int>)
    ensures |r| == |objs|
  {
    seq(|objs|, i requires 0 <= i < |objs| => Grants(objs[i], o))
  }

  function HeldWeights(threads: seq<Pc>, o: nat): (r: seq<int>)
    ensures |r| == |threads|
  {
    seq(|threads|, i requires 0 <= i < |threads| => Held(threads[i], o))
  }

  /** The references of lists and of linked permits on object o. */
  function Links(objs: seq<Obj>, o: nat): int
    requires o < |objs|
  {
    (if objs[o].linked then 1 else 0) + Sum(GrantWeights(objs, o))
  }

  /** A count is the existence reference plus the permits' plus the threads'.  An object without
      references is freed, an object on its list is not. */
  ghost predicate Tally(s: State, o: nat)
    requires o < |s.objs|
  {
    && s.objs[o].refcnt == Links(s.objs, o) + Sum(HeldWeights(s.threads, o))
    && (s.objs[o].refcnt == 0 ==> s.objs[o].freed)
    && (s.objs[o].linked ==> !s.objs[o].freed)
  }

  ghost predicate Tallied(s: State) {
    forall o :: 0 <= o < |s.objs| ==> Tally(s, o)
  }

  /** Moreover what is freed has no references. */
  ghost predicate Counted(s: State) {
    Tallied(s) && forall o :: 0 <= o < |s.objs| && s.objs[o].freed ==> s.objs[o].refcnt == 0
  }

  lemma GrantUpdate(objs: seq<Obj>, i: nat, x: Obj, o: nat)
    requires i < |objs|
    ensures Sum(GrantWeights(objs[i := x], o)) == Sum(GrantWeights(objs, o)) - Grants(objs[i], o) + Grants(x, o)
  {
    SumUpdate(GrantWeights(objs, o), i, Grants(x, o));
    assert GrantWeights(objs[i := x], o) == GrantWeights(objs, o)[i := Grants(x, o)];
  }

  lemma GrantAppend(objs: seq<Obj>, x: Obj, o: nat)
    ensures Sum(GrantWeights(objs + [x], o)) == Sum(GrantWeights(objs, o)) + Grants(x, o)
  {
    SumAppend(GrantWeights(objs, o), Grants(x, o));
    assert GrantWeights(objs + [x], o) == GrantWeights(objs, o) + [Grants(x, o)];
  }

  lemma FlagCounts(objs: seq<Obj>, e: Effect, o: nat)
    requires (e.Dec? || e.Mark? || e.SetMapped? || e.SetDone?) && e.o < |objs| && o < |objs|
    ensures var objs' := Apply(objs, e); |objs'| == |objs| && Links(objs', o) == Links(objs, o)
  {
    var objs' := Apply(objs, e);
    GrantUpdate(objs, e.o, objs'[e.o], o);
    assert objs' == objs[e.o := objs'[e.o]];
  }

  lemma UnlinkCounts(objs: seq<Obj>, x: nat, o: nat)
    requires x < |objs| && objs[x].linked && o < |objs|
    ensures var objs' := Apply(objs, Unlink(x)); |objs'| == |objs| && Links(objs', o) == Links(objs, o) - Gain(objs, Unlink(x), o)
  {
    GrantUpdate(objs, x, objs[x].(linked := false, mapped := false), o);
  }

  /** What an effect does to an object's count beyond its lists and permits is what the acting
      thread gains. */
  lemma EffectCounts(objs: seq<Obj>, t: Pc, e: Effect, o: nat)
    requires Facts(objs, t, e) && o < |objs|
    ensures var objs' := Apply(objs, e);
            o < |objs'| && objs'[o].refcnt - Links(objs', o) == objs[o].refcnt - Links(objs, o) + Gain(objs, e, o)
  {
    if e.Add? {
      GrantAppend(objs, e.x, o);
    } else if e.Inc? {
      assert GrantWeights(Apply(objs, e), o) == GrantWeights(objs, o);
    } else if e.Unlink? {
      UnlinkCounts(objs, e.o, o);
    } else if !e.Nothing? {
      FlagCounts(objs, e, o);
    }
  }

  /** A new object has the list's reference and the thread's. */
  lemma NewCounts(objs: seq<Obj>, t: Pc, x: Obj)
    requires MemOk(objs) && Knows(objs, t) && InRange(objs, t) && Facts(objs, t, Add(x))
    ensures var n := |objs|; x.refcnt == Links(objs + [x], n) + Gain(objs, Add(x), n)
  {
    var n := |objs|;
    GrantAppend(objs, x, n);
    forall i | 0 <= i < n
      ensures GrantWeights(objs, n)[i] == 0
    {
      assert ObjOk(objs, i);
    }
    SumNonNegative(GrantWeights(objs, n));
  }

  lemma HeldUpdate(threads: seq<Pc>, t: nat, pc: Pc, o: nat)
    requires t < |threads|
    ensures Sum(HeldWeights(threads[t := pc], o)) == Sum(HeldWeights(threads, o)) - Held(threads[t], o) + Held(pc, o)
  {
    SumUpdate(HeldWeights(threads, o), t, Held(pc, o));
    assert HeldWeights(threads[t := pc], o) == HeldWeights(threads, o)[t := Held(pc, o)];
  }

  // ----- Nothing freed is touched -----

  /** Somebody refers to object o: its list, a permit on its list, or a thread. */
  predicate Referenced(s: State, o: nat) {
    && o < |s.objs|
    && (|| s.objs[o].linked
        || (exists p :: 0 <= p < |s.objs| && Grants(s.objs[p], o) > 0)
        || (exists t :: 0 <= t < |s.threads| && Held(s.threads[t], o) > 0))
  }

  lemma ReferencedIffPositive(s: State, o: nat)
    requires o < |s.objs| && Tally(s, o)
    ensures s.objs[o].refcnt >= 0 && (Referenced(s, o) <==> s.objs[o].refcnt > 0)
  {
    SumNonNegative(GrantWeights(s.objs, o));
    SumNonNegative(HeldWeights(s.threads, o));
    if p :| 0 <= p < |s.objs| && Grants(s.objs[p], o) > 0 {
      SumAtLeast(GrantWeights(s.objs, o), p);
    }
    if t :| 0 <= t < |s.threads| && Held(s.threads[t], o) > 0 {
      SumAtLeast(HeldWeights(s.threads, o), t);
    }
  }

  lemma ReferencedIffAlive(s: State, o: nat)
    requires Counted(s) && o < |s.objs|
    ensures Referenced(s, o) <==> !s.objs[o].freed
  {
    assert Tally(s, o);
    ReferencedIffPositive(s, o);
  }

  predicate SlotSafe(s: State, x: Slot) {
    x.Ref? ==> Referenced(s, x.o)
  }

  /** Whatever the effect touches, somebody refers to. */
  predicate Safe(s: State, e: Effect) {
    match e
    case Inc(a, b, c) => SlotSafe(s, a) && SlotSafe(s, b) && SlotSafe(s, c)
    case Dec(o) => Referenced(s, o)
    case Mark(o, _) => Referenced(s, o)
    case Unlink(o) => Referenced(s, o)
    case SetMapped(o) => Referenced(s, o)
    case SetDone(o) => Referenced(s, o)
    case _ => true
  }

  lemma SafeTouchesNothing(s: State, e: Effect)
    requires Counted(s) && Safe(s, e)
    ensures !Touches(s.objs, e)
  {
    forall o | 0 <= o < |s.objs| && Referenced(s, o) ensures !s.objs[o].freed {
      ReferencedIffAlive(s, o);
    }
  }

  /** The three places that take a reference through a field rather than from a list: an attach
      on its permit's segment and on the segment's group, and a fault on the group that holds the
      permit.  Somebody else refers to the object. */
  predicate Kept(s: State, e: Event) {
    e.t < |s.threads| ==>
      var pc := s.threads[e.t];
      && (pc.AttachAp? && pc.p < |s.objs| ==> Referenced(s, s.objs[pc.p].parent))
      && (pc.AttachSeg? && pc.q < |s.objs| ==> Referenced(s, s.objs[pc.q].parent))
      && (pc.Idle? && e.c.op.DoFault? ==> FaultKept(s, e.c.op.a))
  }

  predicate FaultKept(s: State, a: nat) {
    Is(s.objs, a, Attach) && s.objs[a].mapped && Is(s.objs, s.objs[a].parent, Permit) ==>
      Referenced(s, s.objs[s.objs[a].parent].owner)
  }

  lemma GrantsParents(s: State, p: nat)
    requires MemOk(s.objs) && Is(s.objs, p, Permit) && s.objs[p].linked
    ensures Referenced(s, s.objs[p].parent) && Referenced(s, s.objs[p].top)
  {
    assert ObjOk(s.objs, p);
    assert Grants(s.objs[p], s.objs[p].parent) > 0 && Grants(s.objs[p], s.objs[p].top) > 0;
  }

  lemma BeginSafe(s: State, op: Op)
    requires MemOk(s.objs) && (op.DoFault? ==> FaultKept(s, op.a))
    ensures Safe(s, Begin(s.objs, op).e)
  {
    match op {
      case DoFault(a) => MappedIsLinked(s.objs, a);
      case DoDetach(a) => MappedIsLinked(s.objs, a);
      case _ =>
    }
  }

  lemma HolderSafe(s: State, t: nat, e: Effect)
    requires MemOk(s.objs) && t < |s.threads| && InRange(s.objs, s.threads[t])
    requires Facts(s.objs, s.threads[t], e) && !e.Inc?
    requires e.Dec? ==> Held(s.threads[t], e.o) > 0
    ensures Safe(s, e)
  {
  }

  lemma FaultSafe(s: State, pc: Pc, c: Choice)
    requires MemOk(s.objs) && pc.FaultTest? && Knows(s.objs, pc)
    ensures Safe(s, ActOf(s, pc, c).e)
  {
    assert ObjOk(s.objs, pc.p);
    if s.objs[pc.p].linked {
      GrantsParents(s, pc.p);
    }
  }

  lemma GetSafe(s: State, pc: Pc, c: Choice)
    requires pc.GetHas? || pc.GetSeg?
    ensures Safe(s, ActOf(s, pc, c).e)
  {
  }

  lemma AttachSafe(s: State, t: nat, c: Choice)
    requires t < |s.threads| && Kept(s, Event(t, c))
    requires s.threads[t].AttachHas? || s.threads[t].AttachAp? || s.threads[t].AttachSeg?
    ensures Safe(s, ActOf(s, s.threads[t], c).e)
  {
  }

  lemma EndSafe(s: State, pc: Pc, c: Choice)
    requires || pc.ReleaseHas? || pc.ReleaseLoop? || pc.RemoveHas? || pc.TearPermits? || pc.TearSegments?
             || pc.SweepSegs? || pc.SweepAps? || pc.SweepAtts?
    ensures var e := ActOf(s, pc, c).e; e.Inc? ==> Safe(s, e)
  {
  }

  /** Only these take references. */
  lemma Takers(s: State, pc: Pc, c: Choice)
    requires ActOf(s, pc, c).e.Inc?
    ensures || pc.Idle? || pc.FaultTest? || pc.GetHas? || pc.GetSeg? || pc.AttachHas? || pc.AttachAp? || pc.AttachSeg?
            || pc.ReleaseHas? || pc.ReleaseLoop? || pc.RemoveHas? || pc.TearPermits? || pc.TearSegments?
            || pc.SweepSegs? || pc.SweepAps? || pc.SweepAtts?
  {
  }

  /** No other operation touches what nobody refers to. */
  lemma ActSafe(s: State, t: nat, c: Choice)
    requires Inv(s) && t < |s.threads| && Kept(s, Event(t, c))
    ensures Safe(s, ActOf(s, s.threads[t], c).e)
  {
    var pc := s.threads[t];
    var e := ActOf(s, pc, c).e;
    ActSound(s, pc, c);
    if !e.Inc? {
      if pc.Drop? {
        DropFacts(s, pc.hand, pc.next);
      }
      HolderSafe(s, t, e);
    } else {
      Takers(s, pc, c);
      if pc.Idle? {
        BeginSafe(s, c.op);
      } else if pc.FaultTest? {
        FaultSafe(s, pc, c);
      } else if pc.GetHas? || pc.GetSeg? {
        GetSafe(s, pc, c);
      } else if pc.AttachHas? || pc.AttachAp? || pc.AttachSeg? {
        AttachSafe(s, t, c);
      } else {
        EndSafe(s, pc, c);
      }
    }
  }

  /** What a step that is not kept goes on to touch. */
  function Missed(s: State, pc: Pc, c: Choice): nat {
    if pc.AttachAp? && pc.p < |s.objs| then s.objs[pc.p].parent
    else if pc.AttachSeg? && pc.q < |s.objs| then s.objs[pc.q].parent
    else if pc.Idle? && c.op.DoFault? && Is(s.objs, c.op.a, Attach) && s.objs[c.op.a].parent < |s.objs|
    then s.objs[s.objs[c.op.a].parent].owner
    else 0
  }

  lemma UnkeptTouches(s: State, t: nat, c: Choice)
    requires Inv(s) && Counted(s) && t < |s.threads| && !Kept(s, Event(t, c))
    ensures Touches(s.objs, ActOf(s, s.threads[t], c).e)
  {
    ActSound(s, s.threads[t], c);
    ReferencedIffAlive(s, Missed(s, s.threads[t], c));
  }

  lemma KeptIffTouchesNothing(s: State, t: nat, c: Choice)
    requires Inv(s) && Counted(s) && t < |s.threads|
    ensures Kept(s, Event(t, c)) <==> !Touches(s.objs, ActOf(s, s.threads[t], c).e)
  {
    if Kept(s, Event(t, c)) {
      ActSafe(s, t, c);
      SafeTouchesNothing(s, ActOf(s, s.threads[t], c).e);
    } else {
      UnkeptTouches(s, t, c);
    }
  }

  // ----- One step -----

  /** Whoever drops a reference has one, beside that of the list. */
  lemma DropperHolds(s: State, t: nat, c: Choice, o: nat)
    requires Inv(s) && t < |s.threads| && ActOf(s, s.threads[t], c).e == Dec(o) && o < |s.objs| && Tally(s, o)
    ensures s.objs[o].refcnt >= 1 && (s.objs[o].linked ==> s.objs[o].refcnt >= 2)
  {
    var pc := s.threads[t];
    OnlyDropDrops(s, pc, c);
    DropFacts(s, pc.hand, pc.next);
    SumNonNegative(GrantWeights(s.objs, o));
    SumAtLeast(HeldWeights(s.threads, o), t);
  }

  lemma OnlyDropDrops(s: State, pc: Pc, c: Choice)
    requires ActOf(s, pc, c).e.Dec?
    ensures pc.Drop?
  {
  }

  lemma TallyOld(s: State, t: nat, c: Choice, o: nat)
    requires Inv(s) && t < |s.threads| && o < |s.objs| && Tally(s, o)
    ensures o < |Next(s, Event(t, c)).objs| && Tally(Next(s, Event(t, c)), o)
  {
    var pc := s.threads[t];
    var act := ActOf(s, pc, c);
    ActSound(s, pc, c);
    ActGain(s, pc, c, o);
    EffectCounts(s.objs, pc, act.e, o);
    HeldUpdate(s.threads, t, act.pc, o);
    ApplyIsApplied(s.objs, act.e);
    if act.e == Dec(o) {
      DropperHolds(s, t, c, o);
    } else if act.e.Inc? {
      ReferencedIffPositive(s, o);
    }
  }

  lemma TallyNew(s: State, t: nat, c: Choice, o: nat)
    requires Inv(s) && t < |s.threads| && o == |s.objs| && ActOf(s, s.threads[t], c).e.Add?
    ensures o < |Next(s, Event(t, c)).objs| && Tally(Next(s, Event(t, c)), o)
  {
    var pc := s.threads[t];
    var act := ActOf(s, pc, c);
    ActSound(s, pc, c);
    ActGain(s, pc, c, o);
    NewCounts(s.objs, pc, act.e.x);
    HeldUpdate(s.threads, t, act.pc, o);
    forall u | 0 <= u < |s.threads| ensures HeldWeights(s.threads, o)[u] == 0 {
      assert InRange(s.objs, s.threads[u]);
    }
    SumNonNegative(HeldWeights(s.threads, o));
  }

  /** Every step keeps the equation, whatever it touches. */
  lemma StepKeepsTally(s: State, t: nat, c: Choice)
    requires Inv(s) && Tallied(s) && t < |s.threads|
    ensures Tallied(Next(s, Event(t, c)))
  {
    var s' := Next(s, Event(t, c));
    ApplyIsApplied(s.objs, ActOf(s, s.threads[t], c).e);
    forall o | 0 <= o < |s'.objs| ensures Tally(s', o) {
      if o < |s.objs| {
        assert Tally(s, o);
        TallyOld(s, t, c, o);
      } else {
        TallyNew(s, t, c, o);
      }
    }
  }

  /** A step that touches nothing freed frees only what has no references left. */
  lemma StepKeepsCounts(s: State, t: nat, c: Choice)
    requires Inv(s) && Counted(s) && t < |s.threads| && Kept(s, Event(t, c))
    ensures Counted(Next(s, Event(t, c)))
  {
    var s' := Next(s, Event(t, c));
    var e := ActOf(s, s.threads[t], c).e;
    StepKeepsTally(s, t, c);
    KeptIffTouchesNothing(s, t, c);
    ActSound(s, s.threads[t], c);
    ApplyIsApplied(s.objs, e);
    forall o | 0 <= o < |s'.objs| && s'.objs[o].freed ensures s'.objs[o].refcnt == 0 {
      if o < |s.objs| && s.objs[o].freed {
        FreedUntouched(s.objs, e, o);
      }
    }
  }

  lemma FreedUntouched(objs: seq<Obj>, e: Effect, o: nat)
    requires !Touches(objs, e) && o < |objs| && objs[o].freed
    ensures After(objs[o], o, e) == objs[o]
  {
  }
}
