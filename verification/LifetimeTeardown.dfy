/**
 Teardown.  If no make or get of a group is in flight when its teardown begins, then a group that
 is torn down has no segments and no permits, only such a group is flushed, and once every group
 has been flushed everything has been freed.
 */
module LifetimeTeardown {
  import opened Lifetime
  import opened LifetimeInv
  import opened LifetimeSafety
  import opened LifetimeCounts
  import opened LifetimeRuns

  /** A make or get that may still add a segment or a permit to group g. */
  predicate InFlight(pc: Pc, g: nat) {
    (pc.MakeHas? && pc.g == g) || (pc.GetAll? && pc.h == g)
  }

  /** No make or get of a group is in flight when the group's teardown begins. */
  predicate Calm(s: State, e: Event) {
    e.t < |s.threads| && s.threads[e.t].TearMark? ==>
      forall u :: 0 <= u < |s.threads| ==> !InFlight(s.threads[u], s.threads[e.t].g)
  }

  predicate CalmRun(s: State, events: seq<Event>)
    decreases |events|
  {
    events == [] || (Calm(s, events[0]) && CalmRun(Next(s, events[0]), events[1..]))
  }

  // ----- Groups that are torn down -----

  /** Lists of a group that is torn down are empty, and only such a group is flushed. */
  predicate Tidy(objs: seq<Obj>, o: nat)
    requires o < |objs|
  {
    var x := objs[o];
    && (x.done ==> x.kind == Group && x.destroying)
    && (x.kind == Group && !x.linked ==> x.done)
    && (x.kind == Segment && x.linked ==> Is(objs, x.parent, Group) && !objs[x.parent].done)
    && (x.kind == Permit && x.linked ==> Is(objs, x.owner, Group) && objs[x.owner].linked && !objs[x.owner].done)
  }

  /** The teardown has released all permits of group g. */
  predicate PastPermits(pc: Pc, g: nat) {
    || pc == TearSegments(g)
    || (pc.Drop? && pc.next == NextSegment(g))
    || ((pc.Remove? || pc.RemoveMarked?) && pc.tearing && pc.g == g)
    || ((pc.SweepAps? || pc.SweepAtts? || pc.SweepAtt?) && pc.k == RemoveHome(g, true))
    || (pc.Drop? && (pc.next.SweepNextAp? || pc.next.SweepNextAtt?) && pc.next.k == RemoveHome(g, true))
  }

  /** What a thread knows of the groups it refers to. */
  ghost predicate Sees(objs: seq<Obj>, pc: Pc) {
    && (pc.MakeHas? ==> Is(objs, pc.g, Group) && !objs[pc.g].destroying)
    && (pc.GetAll? ==> Is(objs, pc.h, Group) && objs[pc.h].linked && !objs[pc.h].destroying)
    && (pc.Flush? ==> pc.g < |objs| && objs[pc.g].done)
    && (forall g: nat :: PastPermits(pc, g) ==> Tearing(objs, g) && !HasPermit(objs, g))
  }

  ghost predicate Orderly(s: State) {
    && (forall o :: 0 <= o < |s.objs| ==> Tidy(s.objs, o))
    && (forall t :: 0 <= t < |s.threads| ==> Sees(s.objs, s.threads[t]))
  }

  /** What the acting thread adds to the effect's own facts. */
  predicate Warranted(objs: seq<Obj>, e: Effect) {
    && (e.Add? ==>
         && !e.x.done && !e.x.destroying && e.x.linked
         && (e.x.kind == Segment ==> Is(objs, e.x.parent, Group) && !objs[e.x.parent].destroying)
         && (e.x.kind == Permit ==> Is(objs, e.x.owner, Group) && objs[e.x.owner].linked && !objs[e.x.owner].destroying))
    && (e.Unlink? && Is(objs, e.o, Group) ==> objs[e.o].done)
    && (e.SetDone? ==> Tearing(objs, e.o) && !HasPermit(objs, e.o) && !HasSegment(objs, e.o))
    && (e.Mark? && !e.on ==> Is(objs, e.o, Attach))
  }

  lemma ActWarranted(objs: seq<Obj>, pc: Pc, e: Effect)
    requires Facts(objs, pc, e) && Knows(objs, pc) && Sees(objs, pc)
    ensures Warranted(objs, e)
  {
    assert pc.TearSegments? ==> PastPermits(pc, pc.g);
  }

  lemma TidyStays(objs: seq<Obj>, e: Effect, objs': seq<Obj>, o: nat)
    requires Applied(objs, e, objs') && Warranted(objs, e) && o < |objs'|
    requires forall i :: 0 <= i < |objs| ==> Tidy(objs, i)
    ensures Tidy(objs', o)
  {
    if o < |objs| {
      assert Tidy(objs, o);
    }
    assert e.Add? && e.x.kind == Segment ==> Tidy(objs, e.x.parent);
    assert e.Add? && e.x.kind == Permit ==> Tidy(objs, e.x.owner);
  }

  lemma NoPermitStays(objs: seq<Obj>, e: Effect, objs': seq<Obj>, g: nat)
    requires Applied(objs, e, objs') && Warranted(objs, e) && Tearing(objs, g) && !HasPermit(objs, g)
    ensures Tearing(objs', g) && !HasPermit(objs', g)
  {
    forall p | 0 <= p < |objs'| && objs'[p].kind == Permit && objs'[p].linked
      ensures objs'[p].owner != g
    {
      if p < |objs| {
        assert objs[p].linked;
      }
    }
  }

  lemma SeesStays(objs: seq<Obj>, e: Effect, objs': seq<Obj>, u: Pc)
    requires Applied(objs, e, objs') && Warranted(objs, e) && Sees(objs, u)
    requires forall i :: 0 <= i < |objs| ==> Tidy(objs, i)
    requires e.Mark? && e.on && Is(objs, e.o, Group) ==> !InFlight(u, e.o)
    ensures Sees(objs', u)
  {
    forall g: nat | PastPermits(u, g) ensures Tearing(objs', g) && !HasPermit(objs', g) {
      NoPermitStays(objs, e, objs', g);
    }
    assert e.Unlink? && Is(objs, e.o, Group) ==> Tidy(objs, e.o);
  }

  /** The acting thread sees what its next program counter claims, before the effect. */
  lemma ActSees(s: State, pc: Pc, c: Choice)
    requires Knows(s.objs, pc) && Sees(s.objs, pc)
    ensures Sees(s.objs, ActOf(s, pc, c).pc)
  {
    forall g: nat | PastPermits(ActOf(s, pc, c).pc, g)
      ensures Tearing(s.objs, g) && !HasPermit(s.objs, g)
    {
      SegmentPhase(s, pc, c, g);
    }
  }

  lemma TearPhase(s: State, pc: Pc, c: Choice, g: nat)
    requires pc.TearMark? || pc.TearPermits? || pc.TearSegments? || pc.Flush?
    requires PastPermits(TearAct(s.objs, pc, c).pc, g)
    ensures PastPermits(pc, g) || (pc == TearPermits(g) && !HasPermit(s.objs, g))
  {
  }

  lemma RemovePhase(s: State, pc: Pc, c: Choice, g: nat)
    requires pc.RemoveHas? || pc.Remove? || pc.RemoveMarked?
    requires PastPermits(RemoveAct(s.objs, pc, c).pc, g)
    ensures PastPermits(pc, g)
  {
  }

  lemma SweepPhase(s: State, pc: Pc, c: Choice, g: nat)
    requires pc.SweepSegs? || pc.SweepAps? || pc.SweepAtts? || pc.SweepAtt?
    requires Knows(s.objs, pc) && PastPermits(SweepAct(s.objs, pc, c).pc, g)
    ensures PastPermits(pc, g)
  {
  }

  lemma DropPhase(hand: Hand, k: Then, g: nat)
    requires PastPermits(DropAct(hand, k).pc, g)
    ensures PastPermits(Drop(hand, k), g)
  {
  }

  /** No other operation leads into the segment phase of a teardown. */
  lemma NoPhase(s: State, pc: Pc, c: Choice, g: nat)
    requires !pc.TearMark? && !pc.TearPermits? && !pc.TearSegments? && !pc.Flush?
    requires !pc.RemoveHas? && !pc.Remove? && !pc.RemoveMarked? && !pc.Drop?
    requires !pc.SweepSegs? && !pc.SweepAps? && !pc.SweepAtts? && !pc.SweepAtt?
    ensures !PastPermits(ActOf(s, pc, c).pc, g)
  {
  }

  lemma SegmentPhase(s: State, pc: Pc, c: Choice, g: nat)
    requires Knows(s.objs, pc) && PastPermits(ActOf(s, pc, c).pc, g)
    ensures PastPermits(pc, g) || (pc == TearPermits(g) && !HasPermit(s.objs, g))
  {
    if pc.TearMark? || pc.TearPermits? || pc.TearSegments? || pc.Flush? {
      TearPhase(s, pc, c, g);
    } else if pc.RemoveHas? || pc.Remove? || pc.RemoveMarked? {
      RemovePhase(s, pc, c, g);
    } else if pc.SweepSegs? || pc.SweepAps? || pc.SweepAtts? || pc.SweepAtt? {
      SweepPhase(s, pc, c, g);
    } else if pc.Drop? {
      DropPhase(pc.hand, pc.next, g);
    } else {
      NoPhase(s, pc, c, g);
    }
  }

  lemma MarkerMakesNothing(s: State, pc: Pc, c: Choice)
    requires ActOf(s, pc, c).e.Mark?
    ensures !ActOf(s, pc, c).pc.MakeHas? && !ActOf(s, pc, c).pc.GetAll?
  {
  }

  lemma NotInFlight(s: State, t: nat, c: Choice, u: nat)
    requires t < |s.threads| && u < |s.threads| && Calm(s, Event(t, c))
    requires Facts(s.objs, s.threads[t], ActOf(s, s.threads[t], c).e)
    ensures var e := ActOf(s, s.threads[t], c).e;
            e.Mark? && e.on && Is(s.objs, e.o, Group) ==> !InFlight(Next(s, Event(t, c)).threads[u], e.o)
  {
    if ActOf(s, s.threads[t], c).e.Mark? {
      MarkerMakesNothing(s, s.threads[t], c);
    }
  }

  lemma StepKeepsOrderly(s: State, t: nat, c: Choice)
    requires Inv(s) && Orderly(s) && t < |s.threads| && Calm(s, Event(t, c))
    ensures Orderly(Next(s, Event(t, c)))
  {
    var pc := s.threads[t];
    var act := ActOf(s, pc, c);
    var s' := Next(s, Event(t, c));
    ActSound(s, pc, c);
    ActSees(s, pc, c);
    ActWarranted(s.objs, pc, act.e);
    ApplyIsApplied(s.objs, act.e);
    forall o | 0 <= o < |s'.objs| ensures Tidy(s'.objs, o) {
      TidyStays(s.objs, act.e, s'.objs, o);
    }
    forall u | 0 <= u < |s.threads| ensures Sees(s'.objs, s'.threads[u]) {
      NotInFlight(s, t, c, u);
      SeesStays(s.objs, act.e, s'.objs, s'.threads[u]);
    }
  }

  lemma {:induction false} RunKeepsOrderly(s: State, events: seq<Event>)
    requires Inv(s) && Orderly(s) && CalmRun(s, events)
    ensures Inv(Run(s, events)) && Orderly(Run(s, events))
    decreases |events|
  {
    if events != [] {
      if events[0].t < |s.threads| {
        StepKeepsOrderly(s, events[0].t, events[0].c);
        StepKeepsInv(s, events[0].t, events[0].c);
      }
      RunKeepsOrderly(Next(s, events[0]), events[1..]);
    }
  }

  /** In such a run a fault finds its permit's group, and an attach whose permit is on its list
      finds the segment and its group. */
  lemma OrderlyIsKept(s: State, t: nat, c: Choice)
    requires Inv(s) && Orderly(s) && t < |s.threads|
    requires var pc := s.threads[t]; pc.AttachAp? || pc.AttachSeg? ==> s.objs[pc.p].linked
    ensures Kept(s, Event(t, c))
  {
    var pc := s.threads[t];
    if pc.AttachAp? || pc.AttachSeg? {
      GrantsParents(s, pc.p);
      assert ObjOk(s.objs, pc.p);
    } else if pc.Idle? && c.op.DoFault? {
      MappedIsLinked(s.objs, c.op.a);
      assert Is(s.objs, c.op.a, Attach) && s.objs[c.op.a].mapped ==> Tidy(s.objs, s.objs[c.op.a].parent);
    }
  }

  // ----- Releases that wait for attaches -----

  /** Thread pc has found permit p and is still to take its references through it. */
  predicate Fetching(pc: Pc, p: nat) {
    (pc.AttachAp? || pc.AttachSeg?) && pc.p == p
  }

  /** No permit is taken off its list while an attach that has found it is still to take its
      references on segment and group. */
  predicate Patient(s: State, e: Event) {
    e.t < |s.threads| ==>
      var act := ActOf(s, s.threads[e.t], e.c);
      act.e.Unlink? ==> forall u :: 0 <= u < |s.threads| ==> !Fetching(s.threads[u], act.e.o)
  }

  predicate PatientRun(s: State, events: seq<Event>)
    decreases |events|
  {
    events == [] || (Patient(s, events[0]) && PatientRun(Next(s, events[0]), events[1..]))
  }

  /** The permit of every such attach is on its list. */
  ghost predicate PermitsStay(s: State) {
    forall t :: 0 <= t < |s.threads| && (s.threads[t].AttachAp? || s.threads[t].AttachSeg?) ==>
      s.threads[t].p < |s.objs| && s.objs[s.threads[t].p].linked
  }

  lemma OnlyAttachFetches(s: State, pc: Pc, c: Choice, p: nat)
    requires Fetching(ActOf(s, pc, c).pc, p)
    ensures pc.AttachHas? || pc.AttachAp? || pc.AttachSeg?
  {
  }

  lemma FetcherFound(s: State, pc: Pc, c: Choice, p: nat)
    requires Knows(s.objs, pc) && Fetching(ActOf(s, pc, c).pc, p)
    ensures Fetching(pc, p) || (p < |s.objs| && s.objs[p].linked)
    ensures !ActOf(s, pc, c).e.Unlink?
  {
    OnlyAttachFetches(s, pc, c, p);
    assert ActOf(s, pc, c) == AttachAct(s.objs, pc, c);
  }

  lemma StaysLinked(objs: seq<Obj>, e: Effect, p: nat)
    requires p < |objs| && objs[p].linked && e != Unlink(p)
    ensures After(objs[p], p, e).linked
  {
  }

  lemma NextPermitsStay(s: State, e: Event)
    requires Inv(s) && PermitsStay(s) && Patient(s, e)
    ensures PermitsStay(Next(s, e))
  {
    if e.t < |s.threads| {
      var s' := Next(s, e);
      var act := ActOf(s, s.threads[e.t], e.c);
      ApplyIsApplied(s.objs, act.e);
      forall t | 0 <= t < |s'.threads| && (s'.threads[t].AttachAp? || s'.threads[t].AttachSeg?)
        ensures s'.threads[t].p < |s'.objs| && s'.objs[s'.threads[t].p].linked
      {
        var p := s'.threads[t].p;
        if t == e.t {
          FetcherFound(s, s.threads[t], e.c, p);
        }
        StaysLinked(s.objs, act.e, p);
      }
    }
  }

  lemma {:induction false} PatientRunKept(s: State, events: seq<Event>)
    requires Inv(s) && Orderly(s) && PermitsStay(s) && CalmRun(s, events) && PatientRun(s, events)
    ensures KeptRun(s, events)
    decreases |events|
  {
    if events != [] {
      NextPermitsStay(s, events[0]);
      if events[0].t < |s.threads| {
        OrderlyIsKept(s, events[0].t, events[0].c);
        StepKeepsOrderly(s, events[0].t, events[0].c);
        StepKeepsInv(s, events[0].t, events[0].c);
      }
      PatientRunKept(Next(s, events[0]), events[1..]);
    }
  }

  /** No run touches freed memory in which releases let the attaches of their permit take their
      references first, and no make or get is in flight when a teardown begins. */
  lemma PatientRunTouchesNothingFreed(threads: nat, events: seq<Event>)
    requires CalmRun(Init(threads), events) && PatientRun(Init(threads), events)
    ensures !Run(Init(threads), events).broken
  {
    InitExact(threads);
    PatientRunKept(Init(threads), events);
    FreedIsTouchedIffLate(threads, events);
  }

  // ----- Nothing is left -----

  /** The attach that has to unlink attachment a again. */
  predicate Minds(pc: Pc, a: nat) {
    (pc.AttachNew? || pc.AttachFail?) && pc.a == a
  }

  /** An attachment linked after its permit was marked is minded by the attach that will fail. */
  ghost predicate Attended(s: State) {
    forall a :: 0 <= a < |s.objs| && s.objs[a].kind == Attach && s.objs[a].linked && !s.objs[a].good ==>
      exists t :: 0 <= t < |s.threads| && Minds(s.threads[t], a)
  }

  lemma MinderStays(s: State, t: nat, c: Choice, a: nat)
    requires Inv(s) && t < |s.threads| && Minds(s.threads[t], a) && !s.objs[a].good
    ensures var act := ActOf(s, s.threads[t], c); Minds(act.pc, a) || act.e == Unlink(a)
  {
  }

  lemma NextKeepsAttended(s: State, e: Event)
    requires Inv(s) && Attended(s)
    ensures Attended(Next(s, e))
  {
    if e.t < |s.threads| {
      var s' := Next(s, e);
      var act := ActOf(s, s.threads[e.t], e.c);
      ActSound(s, s.threads[e.t], e.c);
      ApplyIsApplied(s.objs, act.e);
      forall a | 0 <= a < |s'.objs| && s'.objs[a].kind == Attach && s'.objs[a].linked && !s'.objs[a].good
        ensures exists t :: 0 <= t < |s'.threads| && Minds(s'.threads[t], a)
      {
        if a < |s.objs| {
          var t :| 0 <= t < |s.threads| && Minds(s.threads[t], a);
          if t == e.t {
            MinderStays(s, t, e.c, a);
          }
          assert Minds(s'.threads[t], a);
        } else {
          assert Minds(s'.threads[e.t], a);
        }
      }
    }
  }

  lemma {:induction false} RunKeepsAttended(s: State, events: seq<Event>)
    requires Inv(s) && Attended(s)
    ensures Attended(Run(s, events))
    decreases |events|
  {
    if events != [] {
      NextKeepsAttended(s, events[0]);
      if events[0].t < |s.threads| {
        StepKeepsInv(s, events[0].t, events[0].c);
      }
      RunKeepsAttended(Next(s, events[0]), events[1..]);
    }
  }

  predicate AtRest(s: State) {
    forall t :: 0 <= t < |s.threads| ==> s.threads[t].Idle?
  }

  lemma NothingLinked(s: State, o: nat)
    requires Inv(s) && Orderly(s) && Attended(s) && AtRest(s) && o < |s.objs|
    requires forall g :: 0 <= g < |s.objs| && s.objs[g].kind == Group ==> !s.objs[g].linked
    ensures !s.objs[o].linked
  {
    var x := s.objs[o];
    assert ObjOk(s.objs, o) && Tidy(s.objs, o);
    assert ObjOk(s.objs, x.parent) && Tidy(s.objs, x.parent);
  }

  lemma UnreferencedAtRest(s: State, o: nat)
    requires AtRest(s) && o < |s.objs| && forall i :: 0 <= i < |s.objs| ==> !s.objs[i].linked
    ensures !Referenced(s, o)
  {
  }

  /** Once every operation has returned, everything is freed if and only if every group has been
      flushed, in whatever order owners and attachers left. */
  lemma NothingIsLeft(threads: nat, events: seq<Event>)
    requires CalmRun(Init(threads), events)
    requires AtRest(Run(Init(threads), events))
    ensures var s := Run(Init(threads), events);
            (forall o :: 0 <= o < |s.objs| ==> s.objs[o].freed)
            <==> (forall g :: 0 <= g < |s.objs| && s.objs[g].kind == Group ==> !s.objs[g].linked)
  {
    var s := Run(Init(threads), events);
    InitExact(threads);
    RunKeepsOrderly(Init(threads), events);
    RunKeepsAttended(Init(threads), events);
    RunTallies(Init(threads), events);
    forall o | 0 <= o < |s.objs|
      ensures s.objs[o].linked ==> !s.objs[o].freed
      ensures !Referenced(s, o) ==> s.objs[o].freed
    {
      assert Tally(s, o);
      ReferencedIffPositive(s, o);
    }
    if forall g :: 0 <= g < |s.objs| && s.objs[g].kind == Group ==> !s.objs[g].linked {
      forall o | 0 <= o < |s.objs| ensures !s.objs[o].linked {
        NothingLinked(s, o);
      }
      forall o | 0 <= o < |s.objs| ensures s.objs[o].freed {
        UnreferencedAtRest(s, o);
      }
    }
  }
}
