/**
 Two runs in which the reference counts alone do not help: an attach overtaken by the removal of
 its segment and the release of its permit, and a make overtaken by the teardown of its group.
 */
module LifetimeRaces {
  import opened Lifetime
  import opened LifetimeCounts
  import opened LifetimeRuns
  import opened LifetimeTeardown

  lemma {:induction false} Onward(s0: State, events: seq<Event>, e: Event)
    ensures Run(s0, events + [e]) == Next(Run(s0, events), e)
    ensures CalmRun(s0, events + [e]) <==> CalmRun(s0, events) && Calm(Run(s0, events), e)
    ensures KeptRun(s0, events + [e]) <==> KeptRun(s0, events) && Kept(Run(s0, events), e)
    decreases |events|
  {
    if events == [] {
      assert [e][1..] == [];
    } else {
      assert (events + [e])[1..] == events[1..] + [e];
      Onward(Next(s0, events[0]), events[1..], e);
    }
  }

  /** A run reaches state s, calm or kept all the way as asked. */
  ghost predicate Reaches(events: seq<Event>, calm: bool, s: State) {
    && Run(Init(2), events) == s
    && (if calm then CalmRun(Init(2), events) else KeptRun(Init(2), events))
  }

  lemma Step(events: seq<Event>, calm: bool, s: State, t: nat, c: Choice, s': State) returns (events': seq<Event>)
    requires Reaches(events, calm, s) && Next(s, Event(t, c)) == s'
    requires if calm then Calm(s, Event(t, c)) else Kept(s, Event(t, c))
    ensures Reaches(events', calm, s')
  {
    Onward(Init(2), events, Event(t, c));
    events' := events + [Event(t, c)];
  }

  lemma Take(events: seq<Event>, calm: bool, s: State, t: nat, c: Choice, o: nat, s': State) returns (events': seq<Event>)
    requires Reaches(events, calm, s) && t < |s.threads| && o < |s.objs| && !s.objs[o].freed
    requires if calm then Calm(s, Event(t, c)) else Kept(s, Event(t, c))
    requires |s'.threads| == |s.threads| && s'.threads == s.threads[t := s'.threads[t]] && s'.broken == s.broken
    requires ActOf(s, s.threads[t], c) == Act(Inc(Ref(o), No, No), s'.threads[t])
    requires s'.objs == s.objs[o := s.objs[o].(refcnt := s.objs[o].refcnt + 1)]
    ensures Reaches(events', calm, s')
  {
    assert Apply(s.objs, Inc(Ref(o), No, No)) == s'.objs;
    events' := Step(events, calm, s, t, c, s');
  }

  function Tg(n: int): Obj {
    Blank.(refcnt := n)
  }

  function Seg(n: int): Obj {
    Blank.(kind := Segment, refcnt := n)
  }

  function Ap(n: int): Obj {
    Blank.(kind := Permit, parent := 1, refcnt := n)
  }

  function Gone(x: Obj): Obj {
    x.(destroying := true, linked := false)
  }

  function Yes(pick: nat): Choice {
    Choice(DoOpen, true, pick)
  }

  function Start(op: Op): Choice {
    Choice(op, true, 0)
  }

  lemma Opened(calm: bool) returns (events: seq<Event>)
    ensures Reaches(events, calm, State([Tg(1)], [Idle, Idle], false))
  {
    events := Step([], calm, Init(2), 0, Start(DoOpen), State([Tg(1)], [Idle, Idle], false));
  }

  lemma Made() returns (events: seq<Event>)
    ensures Reaches(events, true, State([Tg(1), Seg(1)], [Idle, Idle], false))
  {
    events := Opened(true);
    var s0 := State([Tg(1)], [Idle, Idle], false);
    var s1 := State([Tg(2)], [MakeHas(0), Idle], false);
    var s2 := State([Tg(2), Seg(1)], [Drop1(0, Return), Idle], false);
    var s3 := State([Tg(1), Seg(1)], [Drop(Empty, Return), Idle], false);
    var s4 := State([Tg(1), Seg(1)], [Idle, Idle], false);
    events := Take(events, true, s0, 0, Start(DoMake(0)), 0, s1);
    events := Step(events, true, s1, 0, Yes(0), s2);
    events := Step(events, true, s2, 0, Yes(0), s3);
    events := Step(events, true, s3, 0, Yes(0), s4);
  }

  lemma Getting() returns (events: seq<Event>)
    ensures Reaches(events, true, State([Tg(3), Seg(2)], [GetAll(0, 1, 0), Idle], false))
  {
    events := Made();
    var s0 := State([Tg(1), Seg(1)], [Idle, Idle], false);
    var s1 := State([Tg(2), Seg(1)], [GetHas(0), Idle], false);
    var s2 := State([Tg(2), Seg(2)], [GetSeg(0, 1), Idle], false);
    var s3 := State([Tg(3), Seg(2)], [GetAll(0, 1, 0), Idle], false);
    events := Take(events, true, s0, 0, Start(DoGet(0)), 0, s1);
    events := Take(events, true, s1, 0, Yes(1), 1, s2);
    events := Take(events, true, s2, 0, Yes(0), 0, s3);
  }

  lemma Got() returns (events: seq<Event>)
    ensures Reaches(events, true, State([Tg(2), Seg(2), Ap(1)], [Idle, Idle], false))
  {
    events := Getting();
    var s0 := State([Tg(3), Seg(2)], [GetAll(0, 1, 0), Idle], false);
    var s1 := State([Tg(3), Seg(2), Ap(1)], [Drop1(0, Return), Idle], false);
    var s2 := State([Tg(2), Seg(2), Ap(1)], [Drop(Empty, Return), Idle], false);
    var s3 := State([Tg(2), Seg(2), Ap(1)], [Idle, Idle], false);
    events := Step(events, true, s0, 0, Yes(0), s1);
    events := Step(events, true, s1, 0, Yes(0), s2);
    events := Step(events, true, s2, 0, Yes(0), s3);
  }

  lemma AttachBegun() returns (events: seq<Event>)
    ensures Reaches(events, true, State([Tg(3), Seg(2), Ap(2)], [AttachAp(0, 2), Idle], false))
  {
    events := Got();
    var s0 := State([Tg(2), Seg(2), Ap(1)], [Idle, Idle], false);
    var s1 := State([Tg(3), Seg(2), Ap(1)], [AttachHas(0), Idle], false);
    var s2 := State([Tg(3), Seg(2), Ap(2)], [AttachAp(0, 2), Idle], false);
    events := Take(events, true, s0, 0, Start(DoAttach(0)), 0, s1);
    events := Take(events, true, s1, 0, Yes(2), 2, s2);
  }

  /** The attach has found its permit; the other thread goes on. */
  function Race(tg: Obj, seg: Obj, ap: Obj, other: Pc): State {
    State([tg, seg, ap], [AttachAp(0, 2), other], false)
  }

  lemma SegmentFound() returns (events: seq<Event>)
    ensures Reaches(events, true, Race(Tg(4), Seg(3), Ap(2), Remove(1, 0, false)))
  {
    events := AttachBegun();
    var s0 := Race(Tg(3), Seg(2), Ap(2), Idle);
    var s1 := Race(Tg(4), Seg(2), Ap(2), RemoveHas(0));
    var s2 := Race(Tg(4), Seg(3), Ap(2), Remove(1, 0, false));
    events := Take(events, true, s0, 1, Start(DoRemove(0)), 0, s1);
    events := Take(events, true, s1, 1, Yes(1), 1, s2);
  }

  lemma SegmentSwept() returns (events: seq<Event>)
    ensures Reaches(events, true, Race(Tg(4), Seg(3).(destroying := true), Ap(2), RemoveMarked(1, 0, false)))
  {
    events := SegmentFound();
    var s0 := Race(Tg(4), Seg(3), Ap(2), Remove(1, 0, false));
    var s1 := Race(Tg(4), Seg(3).(destroying := true), Ap(2), SweepAps(1, RemoveHome(0, false)));
    var s2 := Race(Tg(4), Seg(3).(destroying := true), Ap(2), RemoveMarked(1, 0, false));
    events := Step(events, true, s0, 1, Yes(0), s1);
    events := Step(events, true, s1, 1, Yes(0), s2);
  }

  lemma SegmentUnlinked() returns (events: seq<Event>)
    ensures Reaches(events, true, Race(Tg(4), Gone(Seg(3)), Ap(2), Drop3(1, 1, 0, Return)))
  {
    events := SegmentSwept();
    var s0 := Race(Tg(4), Seg(3).(destroying := true), Ap(2), RemoveMarked(1, 0, false));
    events := Step(events, true, s0, 1, Yes(0), Race(Tg(4), Gone(Seg(3)), Ap(2), Drop3(1, 1, 0, Return)));
  }

  lemma SegmentRemoved() returns (events: seq<Event>)
    ensures Reaches(events, true, Race(Tg(3), Gone(Seg(1)), Ap(2), Idle))
  {
    events := SegmentUnlinked();
    var s0 := Race(Tg(4), Gone(Seg(3)), Ap(2), Drop3(1, 1, 0, Return));
    var s1 := Race(Tg(4), Gone(Seg(2)), Ap(2), Drop2(1, 0, Return));
    var s2 := Race(Tg(4), Gone(Seg(1)), Ap(2), Drop1(0, Return));
    var s3 := Race(Tg(3), Gone(Seg(1)), Ap(2), Drop(Empty, Return));
    var s4 := Race(Tg(3), Gone(Seg(1)), Ap(2), Idle);
    events := Step(events, true, s0, 1, Yes(0), s1);
    events := Step(events, true, s1, 1, Yes(0), s2);
    events := Step(events, true, s2, 1, Yes(0), s3);
    events := Step(events, true, s3, 1, Yes(0), s4);
  }

  lemma PermitFound() returns (events: seq<Event>)
    ensures Reaches(events, true, Race(Tg(4), Gone(Seg(1)), Ap(3), Release(2, 0, false)))
  {
    events := SegmentRemoved();
    var s0 := Race(Tg(3), Gone(Seg(1)), Ap(2), Idle);
    var s1 := Race(Tg(4), Gone(Seg(1)), Ap(2), ReleaseHas(0));
    var s2 := Race(Tg(4), Gone(Seg(1)), Ap(3), Release(2, 0, false));
    events := Take(events, true, s0, 1, Start(DoRelease(0)), 0, s1);
    events := Take(events, true, s1, 1, Yes(2), 2, s2);
  }

  lemma PermitMarked() returns (events: seq<Event>)
    ensures Reaches(events, true, Race(Tg(4), Gone(Seg(1)), Ap(3).(destroying := true), ReleaseLoop(2, 0, false)))
  {
    events := PermitFound();
    var s0 := Race(Tg(4), Gone(Seg(1)), Ap(3), Release(2, 0, false));
    events := Step(events, true, s0, 1, Yes(0), Race(Tg(4), Gone(Seg(1)), Ap(3).(destroying := true), ReleaseLoop(2, 0, false)));
  }

  lemma PermitReleased() returns (events: seq<Event>)
    ensures Reaches(events, true, Race(Tg(4), Gone(Seg(1)), Gone(Ap(3)), Drop5(1, 0, 2, 2, 0)))
  {
    events := PermitMarked();
    var s0 := Race(Tg(4), Gone(Seg(1)), Ap(3).(destroying := true), ReleaseLoop(2, 0, false));
    events := Step(events, true, s0, 1, Yes(0), Race(Tg(4), Gone(Seg(1)), Gone(Ap(3)), Drop5(1, 0, 2, 2, 0)));
  }

  /** An attach that has found its permit, overtaken by the segment's removal and the permit's
      release, takes a reference on a segment that has been freed. */
  lemma AttachTouchesFreed() returns (events: seq<Event>)
    ensures CalmRun(Init(2), events) && Run(Init(2), events).broken
  {
    events := PermitReleased();
    var s0 := Race(Tg(4), Gone(Seg(1)), Gone(Ap(3)), Drop5(1, 0, 2, 2, 0));
    var s1 := Race(Tg(4), Gone(Seg(0)).(freed := true), Gone(Ap(3)), Drop4(0, 2, 2, 0, Return));
    events := Step(events, true, s0, 1, Yes(0), s1);
    events := Step(events, true, s1, 0, Yes(0), Next(s1, Event(0, Yes(0))));
  }

  /** A group that is torn down. */
  function Torn(n: int): Obj {
    Tg(n).(destroying := true, done := true)
  }

  /** The make has found its group; the other thread goes on. */
  function Overtaken(tg: Obj, other: Pc): State {
    State([tg], [MakeHas(0), other], false)
  }

  lemma TearBegun() returns (events: seq<Event>)
    ensures Reaches(events, false, Overtaken(Tg(3).(destroying := true), TearPermits(0)))
  {
    events := Opened(false);
    var s0 := State([Tg(1)], [Idle, Idle], false);
    var s1 := Overtaken(Tg(2), Idle);
    var s2 := Overtaken(Tg(3), TearMark(0));
    var s3 := Overtaken(Tg(3).(destroying := true), TearPermits(0));
    events := Take(events, false, s0, 0, Start(DoMake(0)), 0, s1);
    events := Take(events, false, s1, 1, Start(DoTeardown(0)), 0, s2);
    events := Step(events, false, s2, 1, Yes(0), s3);
  }

  lemma ListsEmpty() returns (events: seq<Event>)
    ensures Reaches(events, false, Overtaken(Torn(3), Drop1(0, Return)))
  {
    events := TearBegun();
    var s0 := Overtaken(Tg(3).(destroying := true), TearPermits(0));
    var s1 := Overtaken(Tg(3).(destroying := true), TearSegments(0));
    var s2 := Overtaken(Torn(3), Drop1(0, Return));
    events := Step(events, false, s0, 1, Yes(0), s1);
    events := Step(events, false, s1, 1, Yes(0), s2);
  }

  lemma TornDown() returns (events: seq<Event>)
    ensures Reaches(events, false, Overtaken(Torn(2), Idle))
  {
    events := ListsEmpty();
    var s0 := Overtaken(Torn(3), Drop1(0, Return));
    var s1 := Overtaken(Torn(2), Drop(Empty, Return));
    var s2 := Overtaken(Torn(2), Idle);
    events := Step(events, false, s0, 1, Yes(0), s1);
    events := Step(events, false, s1, 1, Yes(0), s2);
  }

  lemma FlushBegun() returns (events: seq<Event>)
    ensures Reaches(events, false, Overtaken(Gone(Torn(3)), Drop2(0, 0, Return)))
  {
    events := TornDown();
    var s0 := Overtaken(Torn(2), Idle);
    var s1 := Overtaken(Torn(3), Flush(0));
    var s2 := Overtaken(Gone(Torn(3)), Drop2(0, 0, Return));
    events := Take(events, false, s0, 1, Start(DoFlush(0)), 0, s1);
    events := Step(events, false, s1, 1, Yes(0), s2);
  }

  lemma Flushed() returns (events: seq<Event>)
    ensures Reaches(events, false, Overtaken(Gone(Torn(1)), Idle))
  {
    events := FlushBegun();
    var s0 := Overtaken(Gone(Torn(3)), Drop2(0, 0, Return));
    var s1 := Overtaken(Gone(Torn(2)), Drop1(0, Return));
    var s2 := Overtaken(Gone(Torn(1)), Drop(Empty, Return));
    var s3 := Overtaken(Gone(Torn(1)), Idle);
    events := Step(events, false, s0, 1, Yes(0), s1);
    events := Step(events, false, s1, 1, Yes(0), s2);
    events := Step(events, false, s2, 1, Yes(0), s3);
  }

  /** A make overtaken by the teardown and flush of its group leaves a segment that nothing frees. */
  lemma LateMakeLeaks() returns (events: seq<Event>)
    ensures KeptRun(Init(2), events)
    ensures var s := Run(Init(2), events);
            && AtRest(s)
            && (forall g :: 0 <= g < |s.objs| && s.objs[g].kind == Group ==> !s.objs[g].linked)
            && !(forall o :: 0 <= o < |s.objs| ==> s.objs[o].freed)
  {
    events := Flushed();
    var s0 := Overtaken(Gone(Torn(1)), Idle);
    var s1 := State([Gone(Torn(1)), Seg(1)], [Drop1(0, Return), Idle], false);
    var s2 := State([Gone(Torn(0)).(freed := true), Seg(1)], [Drop(Empty, Return), Idle], false);
    var s3 := State([Gone(Torn(0)).(freed := true), Seg(1)], [Idle, Idle], false);
    events := Step(events, false, s0, 0, Yes(0), s1);
    events := Step(events, false, s1, 0, Yes(0), s2);
    events := Step(events, false, s2, 0, Yes(0), s3);
    assert !s3.objs[1].freed;
  }
}
