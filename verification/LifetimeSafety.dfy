/**
 Every step keeps the invariant of the reference-counting machine.
 */
module LifetimeSafety {
  import opened Lifetime
  import opened LifetimeInv

  // ----- Effects, object by object -----

  function After(x: Obj, o: nat, e: Effect): Obj {
    match e
    case Inc(_, _, _) => x.(refcnt := x.refcnt + IncCount(e, o))
    case Dec(y) => if y == o then Dropped(x) else x
    case Mark(y, on) => if y == o then x.(destroying := on) else x
    case Unlink(y) => if y == o then x.(linked := false, mapped := false) else x
    case SetMapped(y) => if y == o then x.(mapped := true) else x
    case SetDone(y) => if y == o then x.(done := true) else x
    case _ => x
  }

  ghost predicate Applied(objs: seq<Obj>, e: Effect, objs': seq<Obj>) {
    && |objs'| == |objs| + (if e.Add? then 1 else 0)
    && (forall o :: 0 <= o < |objs| ==> objs'[o] == After(objs[o], o, e))
    && (e.Add? ==> objs'[|objs|] == e.x)
  }

  lemma ApplyIsApplied(objs: seq<Obj>, e: Effect)
    ensures Applied(objs, e, Apply(objs, e))
  {
  }

  // ----- The acting thread -----

  /** In a make, get, attach, fault or detach. */
  predicate Creates(pc: Pc) {
    || pc.MakeHas? || pc.GetHas? || pc.GetSeg? || pc.GetAll?
    || pc.AttachHas? || pc.AttachAp? || pc.AttachSeg? || pc.AttachAll? || pc.AttachNew? || pc.AttachFail?
    || pc.FaultTest? || pc.FaultBusy? || pc.DetachTest? || pc.DetachMarked?
  }

  /** In a release or a removal. */
  predicate Ends(pc: Pc) {
    || pc.ReleaseHas? || pc.Release? || pc.ReleaseLoop?
    || pc.ReleaseAtt? || pc.ReleaseAttMarked?
    || pc.RemoveHas? || pc.Remove? || pc.RemoveMarked?
  }

  lemma CreatorFacts(s: State, pc: Pc, c: Choice)
    requires Creates(pc)
    requires MemOk(s.objs) && InRange(s.objs, pc) && Knows(s.objs, pc)
    ensures var act := ActOf(s, pc, c); Facts(s.objs, pc, act.e) && Guarded(s, pc, act.e)
  {
    if pc.MakeHas? || pc.GetHas? || pc.GetSeg? || pc.GetAll? {
      MakeGetFacts(s, pc, c);
    } else if pc.AttachHas? || pc.AttachAp? || pc.AttachSeg? || pc.AttachAll? || pc.AttachNew? || pc.AttachFail? {
      AttachFacts(s, pc, c);
    } else {
      FaultDetachFacts(s, pc, c);
    }
  }

  lemma EnderFacts(s: State, pc: Pc, c: Choice)
    requires Ends(pc)
    requires MemOk(s.objs) && InRange(s.objs, pc) && Knows(s.objs, pc)
    ensures var act := ActOf(s, pc, c); Facts(s.objs, pc, act.e) && Guarded(s, pc, act.e)
  {
    if pc.ReleaseHas? || pc.Release? || pc.ReleaseLoop? {
      ReleaseFacts(s, pc, c);
    } else if pc.ReleaseAtt? || pc.ReleaseAttMarked? {
      DetachAttFacts(s, pc, c);
    } else {
      RemoveFacts(s, pc, c);
    }
  }

  lemma ActSound(s: State, pc: Pc, c: Choice)
    requires MemOk(s.objs) && InRange(s.objs, pc) && Knows(s.objs, pc)
    ensures var act := ActOf(s, pc, c); Facts(s.objs, pc, act.e) && Guarded(s, pc, act.e)
  {
    if pc.Idle? {
      BeginFacts(s, pc, c);
    } else if pc.Drop? {
      DropFacts(s, pc.hand, pc.next);
    } else if Ends(pc) {
      EnderFacts(s, pc, c);
    } else if pc.SweepSegs? || pc.SweepAps? || pc.SweepAtts? || pc.SweepAtt? {
      SweepFacts(s, pc, c);
    } else if pc.TearMark? || pc.TearPermits? || pc.TearSegments? || pc.Flush? {
      TearFacts(s, pc, c);
    } else {
      CreatorFacts(s, pc, c);
    }
  }

  lemma DropFacts(s: State, hand: Hand, k: Then)
    requires InRange(s.objs, Drop(hand, k))
    ensures var act := DropAct(hand, k); Facts(s.objs, Drop(hand, k), act.e) && Guarded(s, Drop(hand, k), act.e)
    ensures var act := DropAct(hand, k); act.e.Dec? ==> Held(Drop(hand, k), act.e.o) > 0
  {
    var e := DropAct(hand, k).e;
    if e.Dec? {
      assert Held(Drop(hand, k), e.o) > 0;
    }
  }

  lemma CreatorKnows(s: State, pc: Pc, c: Choice)
    requires Creates(pc)
    requires MemOk(s.objs) && Knows(s.objs, pc)
    ensures LeadsOn(s, pc, ActOf(s, pc, c))
  {
    if pc.MakeHas? || pc.GetHas? || pc.GetSeg? || pc.GetAll? {
      MakeGetKnows(s, pc, c);
    } else if pc.AttachHas? || pc.AttachAp? || pc.AttachSeg? || pc.AttachAll? || pc.AttachNew? || pc.AttachFail? {
      AttachKnows(s, pc, c);
    } else {
      FaultDetachKnows(s, pc, c);
    }
  }

  lemma EnderKnows(s: State, pc: Pc, c: Choice)
    requires Ends(pc)
    requires MemOk(s.objs) && Knows(s.objs, pc)
    ensures LeadsOn(s, pc, ActOf(s, pc, c))
  {
    if pc.ReleaseHas? || pc.Release? || pc.ReleaseLoop? {
      ReleaseKnows(s, pc, c);
    } else if pc.ReleaseAtt? || pc.ReleaseAttMarked? {
      DetachAttKnows(s, pc, c);
    } else {
      RemoveKnows(s, pc, c);
    }
  }

  lemma ActLeadsOn(s: State, pc: Pc, c: Choice)
    requires MemOk(s.objs) && Knows(s.objs, pc)
    ensures LeadsOn(s, pc, ActOf(s, pc, c))
  {
    if pc.Idle? {
      BeginKnows(s, pc, c);
    } else if pc.Drop? {
      DropLeadsOn(s, pc.hand, pc.next);
    } else if Ends(pc) {
      EnderKnows(s, pc, c);
    } else if pc.SweepSegs? || pc.SweepAps? || pc.SweepAtts? || pc.SweepAtt? {
      SweepKnows(s, pc, c);
    } else if pc.TearMark? || pc.TearPermits? || pc.TearSegments? || pc.Flush? {
      TearKnows(s, pc, c);
    } else {
      CreatorKnows(s, pc, c);
    }
  }

  lemma DropLeadsOn(s: State, hand: Hand, k: Then)
    requires Knows(s.objs, Drop(hand, k))
    ensures LeadsOn(s, Drop(hand, k), DropAct(hand, k))
  {
  }

  lemma CreatorGain(s: State, pc: Pc, c: Choice, o: nat)
    requires Creates(pc)
    requires Knows(s.objs, pc)
    ensures var act := ActOf(s, pc, c); Held(act.pc, o) == Held(pc, o) + Gain(s.objs, act.e, o)
  {
    if pc.MakeHas? || pc.GetHas? || pc.GetSeg? || pc.GetAll? {
      MakeGetGain(s, pc, c, o);
    } else if pc.AttachHas? || pc.AttachAp? || pc.AttachSeg? || pc.AttachAll? || pc.AttachNew? || pc.AttachFail? {
      AttachGain(s, pc, c, o);
    } else {
      FaultDetachGain(s, pc, c, o);
    }
  }

  lemma EndingGain(s: State, pc: Pc, c: Choice, o: nat)
    requires Ends(pc)
    requires Knows(s.objs, pc)
    ensures var act := ActOf(s, pc, c); Held(act.pc, o) == Held(pc, o) + Gain(s.objs, act.e, o)
  {
    if pc.ReleaseHas? || pc.Release? || pc.ReleaseLoop? {
      ReleaseGain(s, pc, c, o);
    } else if pc.ReleaseAtt? || pc.ReleaseAttMarked? {
      DetachAttGain(s, pc, c, o);
    } else {
      RemoveGain(s, pc, c, o);
    }
  }

  lemma ActGain(s: State, pc: Pc, c: Choice, o: nat)
    requires Knows(s.objs, pc)
    ensures var act := ActOf(s, pc, c); Held(act.pc, o) == Held(pc, o) + Gain(s.objs, act.e, o)
  {
    if pc.Idle? {
      BeginGain(s, pc, c, o);
    } else if pc.Drop? {
      DropGain(s, pc.hand, pc.next, o);
    } else if Ends(pc) {
      EndingGain(s, pc, c, o);
    } else if pc.SweepSegs? || pc.SweepAps? || pc.SweepAtts? || pc.SweepAtt? {
      SweepGain(s, pc, c, o);
    } else if pc.TearMark? || pc.TearPermits? || pc.TearSegments? || pc.Flush? {
      TearGain(s, pc, c, o);
    } else {
      CreatorGain(s, pc, c, o);
    }
  }

  lemma ContinueHolds(k: Then, o: nat)
    ensures Held(Continue(k), o) == ThenCount(k, o)
  {
  }

  lemma DropGain(s: State, hand: Hand, k: Then, o: nat)
    ensures var act := DropAct(hand, k); Held(act.pc, o) == Held(Drop(hand, k), o) + Gain(s.objs, act.e, o)
  {
    ContinueHolds(k, o);
    assert Held(Drop(hand, k), o) == HandCount(hand, o) + ThenCount(k, o);
  }

  // ----- What other threads know stays true -----

  /** Thread u does not stand in the way of the effect: it owns nothing that the effect changes,
      and it is not kept out by the attachment's mutex or mmap lock. */
  ghost predicate Apart(objs: seq<Obj>, t: Pc, e: Effect, u: Pc) {
    && (forall o :: Owns(t, o) ==> !Owns(u, o))
    && (e.Mark? && e.on && !t.AttachNew? && Is(objs, e.o, Attach) ==> !((u.AttachNew? || u.AttachFail?) && u.a == e.o))
    && (e.Unlink? && !t.AttachFail? && Is(objs, e.o, Attach) ==> !(u.FaultTest? && u.a == e.o))
  }

  /** The same objects but for their counts. */
  ghost predicate Alike(objs: seq<Obj>, objs': seq<Obj>) {
    |objs'| == |objs| && forall o :: 0 <= o < |objs| ==> objs'[o] == objs[o].(refcnt := objs'[o].refcnt, freed := objs'[o].freed)
  }

  lemma KnowsAlike(objs: seq<Obj>, objs': seq<Obj>, u: Pc)
    requires Alike(objs, objs') && Knows(objs, u)
    ensures Knows(objs', u)
  {
  }

  lemma KnowsAfterAdd(objs: seq<Obj>, t: Pc, e: Effect, objs': seq<Obj>, u: Pc)
    requires Knows(objs, t) && Knows(objs, u) && Facts(objs, t, e) && Applied(objs, e, objs') && e.Add?
    ensures Knows(objs', u)
  {
  }

  lemma KnowsAfterMark(objs: seq<Obj>, e: Effect, objs': seq<Obj>, u: Pc)
    requires Knows(objs, u) && Applied(objs, e, objs') && e.Mark? && !Owns(u, e.o)
    requires !e.on ==> Is(objs, e.o, Attach)
    ensures Knows(objs', u)
  {
  }

  lemma KnowsAfterUnlink(objs: seq<Obj>, e: Effect, objs': seq<Obj>, u: Pc)
    requires Knows(objs, u) && Applied(objs, e, objs') && e.Unlink? && !Owns(u, e.o)
    requires u.FaultTest? ==> u.a != e.o
    ensures Knows(objs', u)
  {
  }

  lemma KnowsAfterDone(objs: seq<Obj>, e: Effect, objs': seq<Obj>, u: Pc)
    requires Knows(objs, u) && Applied(objs, e, objs') && e.SetDone?
    ensures Knows(objs', u)
  {
  }

  lemma KnowsAfterMapped(objs: seq<Obj>, e: Effect, objs': seq<Obj>, u: Pc)
    requires Knows(objs, u) && Applied(objs, e, objs') && e.SetMapped? && !Owns(u, e.o)
    ensures Knows(objs', u)
  {
  }

  /** An object that is not marked has no owner, but for the attach that creates it. */
  lemma OwnersMark(objs: seq<Obj>, u: Pc, o: nat)
    requires Knows(objs, u) && Owns(u, o)
    ensures o < |objs| && objs[o].kind != Group && (objs[o].destroying || (u.AttachNew? && objs[o].kind == Attach))
  {
  }

  lemma NotOwned(objs: seq<Obj>, t: Pc, e: Effect, u: Pc)
    requires Knows(objs, t) && Knows(objs, u) && Facts(objs, t, e) && Apart(objs, t, e, u)
    requires e.Mark? || e.Unlink? || e.SetMapped?
    ensures !Owns(u, e.o)
  {
    if Owns(u, e.o) {
      OwnersMark(objs, u, e.o);
    }
  }

  lemma NotTesting(objs: seq<Obj>, t: Pc, e: Effect, u: Pc)
    requires Knows(objs, t) && Knows(objs, u) && Facts(objs, t, e) && Apart(objs, t, e, u) && e.Unlink?
    ensures u.FaultTest? ==> u.a != e.o
  {
  }

  lemma KnowsAfterChange(objs: seq<Obj>, t: Pc, e: Effect, objs': seq<Obj>, u: Pc)
    requires MemOk(objs) && Knows(objs, t) && Knows(objs, u) && Facts(objs, t, e) && Applied(objs, e, objs')
    requires Apart(objs, t, e, u) && (e.Mark? || e.Unlink? || e.SetMapped?)
    ensures Knows(objs', u)
  {
    NotOwned(objs, t, e, u);
    if e.Mark? {
      KnowsAfterMark(objs, e, objs', u);
    } else if e.Unlink? {
      NotTesting(objs, t, e, u);
      KnowsAfterUnlink(objs, e, objs', u);
    } else {
      KnowsAfterMapped(objs, e, objs', u);
    }
  }

  lemma KnowsStable(objs: seq<Obj>, t: Pc, e: Effect, objs': seq<Obj>, u: Pc)
    requires MemOk(objs) && Knows(objs, t) && Knows(objs, u) && Facts(objs, t, e) && Applied(objs, e, objs')
    requires Apart(objs, t, e, u)
    ensures Knows(objs', u)
  {
    if e.Mark? || e.Unlink? || e.SetMapped? {
      KnowsAfterChange(objs, t, e, objs', u);
    } else if e.Add? {
      KnowsAfterAdd(objs, t, e, objs', u);
    } else if e.SetDone? {
      KnowsAfterDone(objs, e, objs', u);
    } else {
      KnowsAlike(objs, objs', u);
    }
  }

  // ----- The objects stay well formed -----

  lemma MemAfterAdd(objs: seq<Obj>, t: Pc, e: Effect, objs': seq<Obj>)
    requires MemOk(objs) && Knows(objs, t) && InRange(objs, t) && Facts(objs, t, e) && Applied(objs, e, objs') && e.Add?
    ensures MemOk(objs')
  {
    forall o | 0 <= o < |objs'| ensures ObjOk(objs', o) {
      if o < |objs| {
        assert ObjOk(objs, o);
      } else if t.AttachAll? {
        assert ObjOk(objs, t.p);
      } else if t.MakeHas? {
        assert ObjOk(objs, t.g);
      } else if t.GetAll? {
        assert ObjOk(objs, t.h);
      }
    }
  }

  lemma MemAfterUnlink(objs: seq<Obj>, t: Pc, e: Effect, objs': seq<Obj>)
    requires MemOk(objs) && Knows(objs, t) && Facts(objs, t, e) && Applied(objs, e, objs') && e.Unlink?
    ensures MemOk(objs')
  {
    forall o | 0 <= o < |objs'| ensures ObjOk(objs', o) {
      assert ObjOk(objs, o);
    }
  }

  lemma MemAfterMark(objs: seq<Obj>, t: Pc, e: Effect, objs': seq<Obj>)
    requires MemOk(objs) && Knows(objs, t) && Facts(objs, t, e) && Applied(objs, e, objs') && e.Mark?
    ensures MemOk(objs')
  {
    assert !e.on ==> objs[e.o].linked;
    forall o | 0 <= o < |objs'| ensures ObjOk(objs', o) {
      assert ObjOk(objs, o);
    }
  }

  lemma MemAfterSet(objs: seq<Obj>, t: Pc, e: Effect, objs': seq<Obj>)
    requires MemOk(objs) && Knows(objs, t) && Facts(objs, t, e) && Applied(objs, e, objs') && (e.SetMapped? || e.SetDone?)
    ensures MemOk(objs')
  {
    forall o | 0 <= o < |objs'| ensures ObjOk(objs', o) {
      assert ObjOk(objs, o);
    }
  }

  lemma MemStable(objs: seq<Obj>, t: Pc, e: Effect, objs': seq<Obj>)
    requires MemOk(objs) && Knows(objs, t) && InRange(objs, t) && Facts(objs, t, e) && Applied(objs, e, objs')
    ensures MemOk(objs')
  {
    match e {
      case Add(_) => MemAfterAdd(objs, t, e, objs');
      case Unlink(_) => MemAfterUnlink(objs, t, e, objs');
      case Mark(_, _) => MemAfterMark(objs, t, e, objs');
      case SetMapped(_) => MemAfterSet(objs, t, e, objs');
      case SetDone(_) => MemAfterSet(objs, t, e, objs');
      case _ =>
        forall o | 0 <= o < |objs'| ensures ObjOk(objs', o) {
          assert ObjOk(objs, o);
        }
    }
  }

  // ----- One step -----

  lemma StepApart(s: State, t: nat, c: Choice, u: nat)
    requires Inv(s) && t < |s.threads| && u < |s.threads| && u != t
    requires var e := ActOf(s, s.threads[t], c).e; Facts(s.objs, s.threads[t], e) && Guarded(s, s.threads[t], e)
    ensures Apart(s.objs, s.threads[t], ActOf(s, s.threads[t], c).e, s.threads[u])
  {
    forall o | Owns(s.threads[t], o) ensures !Owns(s.threads[u], o) {
    }
  }

  lemma OwnersStaySole(s: State, t: nat, act: Act)
    requires Inv(s) && t < |s.threads| && Inherits(s, s.threads[t], act) && Facts(s.objs, s.threads[t], act.e)
    requires forall u :: 0 <= u < |s.threads| && u != t ==> Apart(s.objs, s.threads[t], act.e, s.threads[u])
    ensures SoleOwners(State(s.objs, s.threads[t := act.pc], s.broken))
  {
    forall u, o | 0 <= u < |s.threads| && u != t && Owns(act.pc, o)
      ensures !Owns(s.threads[u], o)
    {
      if Owns(s.threads[t], o) {
      } else if act.e.Add? {
        if Owns(s.threads[u], o) {
          OwnersMark(s.objs, s.threads[u], o);
        }
      } else {
        NotOwned(s.objs, s.threads[t], act.e, s.threads[u]);
      }
    }
  }

  lemma OwnInRange(s: State, pc: Pc, c: Choice)
    requires MemOk(s.objs) && InRange(s.objs, pc) && Knows(s.objs, pc)
    ensures var act := ActOf(s, pc, c); InRange(Apply(s.objs, act.e), act.pc)
  {
    var act := ActOf(s, pc, c);
    ActSound(s, pc, c);
    ApplyIsApplied(s.objs, act.e);
    forall o: nat | Held(act.pc, o) > 0
      ensures o < |Apply(s.objs, act.e)|
    {
      ActGain(s, pc, c, o);
      if Held(pc, o) == 0 {
        GainInRange(s.objs, pc, act.e, o);
      }
    }
  }

  lemma GainInRange(objs: seq<Obj>, pc: Pc, e: Effect, o: nat)
    requires MemOk(objs) && Facts(objs, pc, e) && Gain(objs, e, o) > 0
    ensures o < |objs| || (e.Add? && o == |objs|)
  {
    if e.Unlink? {
      assert ObjOk(objs, e.o);
    }
  }

  lemma OwnKnows(s: State, pc: Pc, c: Choice)
    requires MemOk(s.objs) && Knows(s.objs, pc)
    ensures var act := ActOf(s, pc, c); Knows(Apply(s.objs, act.e), act.pc)
  {
    var act := ActOf(s, pc, c);
    ActLeadsOn(s, pc, c);
    if act.e.Inc? || act.e.Dec? {
      ApplyIsApplied(s.objs, act.e);
      KnowsAlike(s.objs, Apply(s.objs, act.e), act.pc);
    }
  }

  lemma StepKeepsInv(s: State, t: nat, c: Choice)
    requires Inv(s) && t < |s.threads|
    ensures Inv(Next(s, Event(t, c)))
  {
    var pc := s.threads[t];
    var act := ActOf(s, pc, c);
    var s' := Next(s, Event(t, c));
    ActSound(s, pc, c);
    ActLeadsOn(s, pc, c);
    ApplyIsApplied(s.objs, act.e);
    MemStable(s.objs, pc, act.e, s'.objs);
    OwnInRange(s, pc, c);
    OwnKnows(s, pc, c);
    forall u | 0 <= u < |s.threads| && u != t
      ensures Apart(s.objs, pc, act.e, s.threads[u])
      ensures InRange(s'.objs, s.threads[u]) && Knows(s'.objs, s.threads[u])
    {
      StepApart(s, t, c, u);
      KnowsStable(s.objs, pc, act.e, s'.objs, s.threads[u]);
    }
    OwnersStaySole(s, t, act);
  }
}
