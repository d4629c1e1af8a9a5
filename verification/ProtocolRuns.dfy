/**
 Concrete runs: an attach and the release of its permit that put each other to sleep for good, a
 fault whose remap finds no valid frame and loses its pin, a detach of 2^31 pages that loses a
 pin, and a removed segment that wraps around and whose page stays mapped.
 */
module ProtocolRuns {
  import opened Words
  import opened Protocol
  import opened ProtocolPins
  import opened ProtocolDeadlock

  lemma {:induction false} RunAppend(s: State, events: seq<Event>, e: Event)
    ensures Run(s, events + [e]) == Next(Run(s, events), e)
    decreases |events|
  {
    if events == [] {
      assert Run(s, [e]) == Run(Next(s, e), []);
    } else {
      assert (events + [e])[1..] == events[1..] + [e];
      RunAppend(Next(s, events[0]), events[1..], e);
    }
  }

  function Ok(op: Op): Choice {
    Choice(op, true, 1, 0, 0, Fit)
  }

  const Step := Ok(DoOpen(7))

  /** One group with one segment. */
  function MadeAs(wrapped: bool): Mem {
    Mem([Tg(7, false, 0, 0)], [Seg(0, false, false, false, wrapped)], [], 0, 0)
  }

  const Made := MadeAs(false)

  // ----- Attach and release -----

  /** A run of two threads that ends with memory m and the threads at p and q. */
  ghost predicate Meet(events: seq<Event>, m: Mem, p: Pc, q: Pc) {
    Run(Init(2), events) == State(m, [p, q])
  }

  lemma First(events: seq<Event>, m: Mem, p: Pc, q: Pc, c: Choice, act: Act) returns (events': seq<Event>)
    requires Meet(events, m, p, q) && ActOf(State(m, [p, q]), 0, p, c) == act && EffectWf(m, act.e)
    ensures Meet(events', Apply(m, act.e), act.pc, q)
  {
    RunAppend(Init(2), events, Event(0, c));
    events' := events + [Event(0, c)];
    assert [p, q][0 := act.pc] == [act.pc, q];
  }

  lemma Second(events: seq<Event>, m: Mem, p: Pc, q: Pc, c: Choice, act: Act) returns (events': seq<Event>)
    requires Meet(events, m, p, q) && ActOf(State(m, [p, q]), 1, q, c) == act && EffectWf(m, act.e)
    ensures Meet(events', Apply(m, act.e), p, act.pc)
  {
    RunAppend(Init(2), events, Event(1, c));
    events' := events + [Event(1, c)];
    assert [p, q][1 := act.pc] == [p, act.pc];
  }

  /** The attachment is linked and not yet mapped, in another address space. */
  const Linked := Made.(atts := [Att(0, 0, 5, 2, false, false, NotYet, true, {})])

  function At5(st: AttachStage): Pc {
    Attach(0, 0, 5, st)
  }

  function Release(st: DetachStage): Pc {
    Detach(0, 5, true, st)
  }

  lemma MadeByFirst() returns (events: seq<Event>)
    ensures Meet(events, Made, Idle, Idle)
  {
    events := [];
    assert Init(2).threads == [Idle, Idle];
    events := First(events, Mem([], [], [], 0, 0), Idle, Idle, Ok(DoOpen(7)), Act(OpenTg(7), Idle));
    events := First(events, Made.(segs := []), Idle, Idle, Ok(DoMake(0, false)), Act(MakeSeg(0, false), Idle));
  }

  lemma AttachAllowed() returns (events: seq<Event>)
    ensures Meet(events, Made, At5(ACreate), Idle)
  {
    events := MadeByFirst();
    events := First(events, Made, Idle, Idle, Ok(DoAttach(0, 5)), To(At5(AWaitSema)));
    events := First(events, Made, At5(AWaitSema), Idle, Step, To(At5(ATest)));
    events := First(events, Made, At5(ATest), Idle, Step, To(At5(ACreate)));
  }

  lemma AttachAboutToMap() returns (events: seq<Event>)
    ensures Meet(events, Linked, At5(AWaitMm(0)), Idle)
  {
    events := AttachAllowed();
    events := First(events, Made, At5(ACreate), Idle, Step, Act(NewAtt(0, 0, 5, 2), At5(ALinked(0))));
    events := First(events, Linked, At5(ALinked(0)), Idle, Step, To(At5(AWaitMm(0))));
  }

  lemma ReleaseAboutToLock() returns (events: seq<Event>)
    ensures Meet(events, Linked, At5(AWaitMm(0)), Release(DWaitMutex))
  {
    events := AttachAboutToMap();
    events := Second(events, Linked, At5(AWaitMm(0)), Idle, Ok(DoDetach(0, true)), To(Release(DWaitMm)));
    events := Second(events, Linked, At5(AWaitMm(0)), Release(DWaitMm), Step, To(Release(DFind)));
    events := Second(events, Linked, At5(AWaitMm(0)), Release(DFind), Step, To(Release(DWaitMutex)));
  }

  /** A run of two threads that ends with an attach and the release of its permit putting each
      other to sleep for good. */
  lemma AttachAndReleaseDeadlock() returns (events: seq<Event>)
    ensures var s := Run(Init(2), events);
            && |s.threads| == 2 && s.threads[0].Attach? && s.threads[1].Detach?
            && BlockedBy(s, 0, 1) && BlockedBy(s, 1, 0)
  {
    events := ReleaseAboutToLock();
  }

  // ----- A lost pin -----

  /** A run of one thread that ends with memory m and the thread at pc. */
  ghost predicate Gets(events: seq<Event>, m: Mem, pc: Pc) {
    Run(Init(1), events) == State(m, [pc])
  }

  lemma Go(events: seq<Event>, m: Mem, pc: Pc, c: Choice, act: Act) returns (events': seq<Event>)
    requires Gets(events, m, pc) && ActOf(State(m, [pc]), 0, pc, c) == act && EffectWf(m, act.e)
    ensures Gets(events', Apply(m, act.e), act.pc)
  {
    RunAppend(Init(1), events, Event(0, c));
    events' := events + [Event(0, c)];
    assert [pc][0 := act.pc] == [act.pc];
  }

  /** Whether the segment wraps around, and the pages of its attachment. */
  datatype Shape = Shape(wrapped: bool, size: nat)

  /** One group, one segment and one attachment of it, in the group's own address space. */
  function With(h: Shape, destroying: bool, valid: bool, vma: Vma, linked: bool, pages: set<nat>): Mem {
    MadeAs(h.wrapped).(atts := [Att(0, 0, 7, h.size, destroying, valid, vma, linked, pages)])
  }

  function NewAttachment(h: Shape): Mem {
    With(h, false, false, NotYet, true, {})
  }

  function Attached(h: Shape): Mem {
    With(h, false, false, Mapped, true, {})
  }

  function On(st: AttachStage): Pc {
    Attach(0, 0, 7, st)
  }

  lemma MadeAlone(w: bool) returns (events: seq<Event>)
    ensures Gets(events, MadeAs(w), Idle)
  {
    events := [];
    assert Init(1).threads == [Idle];
    events := Go(events, Mem([], [], [], 0, 0), Idle, Ok(DoOpen(7)), Act(OpenTg(7), Idle));
    events := Go(events, MadeAs(w).(segs := []), Idle, Ok(DoMake(0, w)), Act(MakeSeg(0, w), Idle));
  }

  lemma AttachCreates(h: Shape) returns (events: seq<Event>)
    requires h.size > 0
    ensures Gets(events, NewAttachment(h), On(ALinked(0)))
  {
    var m := MadeAs(h.wrapped);
    events := MadeAlone(h.wrapped);
    events := Go(events, m, Idle, Ok(DoAttach(0, 7)), To(On(AWaitSema)));
    events := Go(events, m, On(AWaitSema), Step, To(On(ATest)));
    events := Go(events, m, On(ATest), Step, To(On(ACreate)));
    events := Go(events, m, On(ACreate), Step.(pick := h.size - 1), Act(NewAtt(0, 0, 7, h.size), On(ALinked(0))));
  }

  lemma AttachReturns(h: Shape) returns (events: seq<Event>)
    requires h.size > 0
    ensures Gets(events, Attached(h), Idle)
  {
    var m := NewAttachment(h);
    events := AttachCreates(h);
    events := Go(events, m, On(ALinked(0)), Step, To(On(AWaitMm(0))));
    events := Go(events, m, On(AWaitMm(0)), Step, To(On(AMapped(0))));
    events := Go(events, m, On(AMapped(0)), Step, To(On(ASetVma(0))));
    events := Go(events, m, On(ASetVma(0)), Step, Act(SetVma(0), On(ARelMutex(0))));
    assert Apply(m, SetVma(0)) == Attached(h);
    events := Go(events, Attached(h), On(ARelMutex(0)), Step, To(On(ARelSema)));
    events := Go(events, Attached(h), On(ARelSema), Step, To(Idle));
  }

  function At(st: FaultStage): Pc {
    Fault(Ctx(0, 0, 0, 0, 7, 7), st)
  }

  lemma FaultLocks(h: Shape) returns (events: seq<Event>)
    requires h.size > 0
    ensures Gets(events, Attached(h), At(FSource(false)))
  {
    var m := Attached(h);
    events := AttachReturns(h);
    events := Go(events, m, Idle, Ok(DoFault(0, 0)), To(At(FEnter)));
    events := Go(events, m, At(FEnter), Step, To(At(FTryGate)));
    events := Go(events, m, At(FTryGate), Step, To(At(FTrySema)));
    events := Go(events, m, At(FTrySema), Step, To(At(FTested)));
    events := Go(events, m, At(FTested), Step, To(At(FSource(false))));
  }

  lemma FaultWaits(events0: seq<Event>, h: Shape) returns (events: seq<Event>)
    requires h.size > 0 && Gets(events0, Attached(h), At(FVerify(false)))
    ensures Gets(events, Attached(h), At(FWaitMutex))
  {
    events := Go(events0, Attached(h), At(FVerify(false)), Step, To(At(FWaitMutex)));
  }

  lemma FaultValidates(h: Shape) returns (events: seq<Event>)
    requires h.size > 0
    ensures Gets(events, Attached(h), At(FPin))
  {
    var m := Attached(h);
    events := FaultLocks(h);
    events := Go(events, m, At(FSource(false)), Step, To(At(FVerify(false))));
    events := FaultWaits(events, h);
    events := Go(events, m, At(FWaitMutex), Step, To(At(FValidate)));
    events := Go(events, m, At(FValidate), Step, To(At(FPin)));
  }

  /** The books with one pin, of which k are lost. */
  function Pinned(m: Mem, k: int): Mem {
    m.(tgs := [Tg(7, false, 1, k)], nPinned := 1)
  }

  lemma FaultPins(h: Shape) returns (events: seq<Event>)
    requires h.size > 0
    ensures Gets(events, Pinned(Attached(h), 0), At(FFlag))
  {
    events := FaultValidates(h);
    events := Go(events, Attached(h), At(FPin), Step, Act(Pin(0), At(FFlag)));
  }

  lemma FaultFlags(h: Shape) returns (events: seq<Event>)
    requires h.size > 0
    ensures Gets(events, Pinned(With(h, false, true, Mapped, true, {}), 0), At(FInstall))
  {
    var m := Pinned(With(h, false, true, Mapped, true, {}), 0);
    events := FaultPins(h);
    events := Go(events, Pinned(Attached(h), 0), At(FFlag), Step, Act(Flag(0), At(FUpRead)));
    assert Apply(Pinned(Attached(h), 0), Flag(0)) == m;
    events := Go(events, m, At(FUpRead), Step, To(At(FUnblock)));
    events := Go(events, m, At(FUnblock), Step, To(At(FInstall)));
  }

  const Leaving := Left(false, false, true, true, true)

  lemma FaultUnwinds(events0: seq<Event>, m: Mem) returns (events: seq<Event>)
    requires Gets(events0, m, At(FUnwind(Leaving))) && CtxOk(m, Ctx(0, 0, 0, 0, 7, 7))
    ensures Gets(events, m, Idle)
  {
    var left := Leaving.(src := false);
    events := Go(events0, m, At(FUnwind(Leaving)), Step, To(At(FUnwind(left))));
    events := Go(events, m, At(FUnwind(left)), Step, To(At(FUnwind(left.(mutex := false)))));
    events := Go(events, m, At(FUnwind(left.(mutex := false))), Step, To(Idle));
  }

  /** No operation is in progress, no page is mapped, and a page is pinned. */
  predicate PinLeft(s: State) {
    && Quiescent(s)
    && (forall a :: 0 <= a < |s.m.atts| ==> s.m.atts[a].pages == {})
    && s.m.nPinned != s.m.nUnpinned
  }

  /** The frame is not valid: nothing is mapped, and nobody will give the pin back. */
  lemma PinLost() returns (events: seq<Event>)
    ensures PinLeft(Run(Init(1), events))
  {
    var m := With(Shape(false, 1), false, true, Mapped, true, {});
    events := FaultFlags(Shape(false, 1));
    events := Go(events, Pinned(m, 0), At(FInstall), Step.(pick := 0), Act(Lose(0), At(FUnwind(Leaving))));
    assert Apply(Pinned(m, 0), Lose(0)) == Pinned(m, 1);
    events := FaultUnwinds(events, Pinned(m, 1));
  }

  // ----- An attachment of 2^31 pages -----

  const Huge := Shape(false, TWO31)

  lemma FaultMaps(h: Shape) returns (events: seq<Event>)
    requires h.size > 0
    ensures Gets(events, Pinned(With(h, false, true, Mapped, true, {0}), 0), Idle)
  {
    var m := Pinned(With(h, false, true, Mapped, true, {}), 0);
    var m' := Pinned(With(h, false, true, Mapped, true, {0}), 0);
    events := FaultFlags(h);
    events := Go(events, m, At(FInstall), Step, Act(Install(0, 0), At(FUnwind(Leaving))));
    assert Apply(m, Install(0, 0)) == m';
    events := FaultUnwinds(events, m');
  }

  function Off(st: DetachStage): Pc {
    Detach(0, 7, false, st)
  }

  lemma DetachLocks(h: Shape) returns (events: seq<Event>)
    requires h.size > 0
    ensures Gets(events, Pinned(With(h, false, true, Mapped, true, {0}), 0), Off(DTest))
  {
    var m := Pinned(With(h, false, true, Mapped, true, {0}), 0);
    events := FaultMaps(h);
    events := Go(events, m, Idle, Ok(DoDetach(0, false)), To(Off(DWaitMm)));
    events := Go(events, m, Off(DWaitMm), Step, To(Off(DFind)));
    events := Go(events, m, Off(DFind), Step, To(Off(DWaitMutex)));
    events := Go(events, m, Off(DWaitMutex), Step, To(Off(DWaitInv)));
    events := Go(events, m, Off(DWaitInv), Step, To(Off(DTest)));
  }

  lemma DetachMarks(h: Shape) returns (events: seq<Event>)
    requires h.size > 0
    ensures Gets(events, Pinned(With(h, true, true, Mapped, true, {0}), 0), Off(DRelInv))
  {
    var m := Pinned(With(h, false, true, Mapped, true, {0}), 0);
    var m' := Pinned(With(h, true, true, Mapped, true, {0}), 0);
    events := DetachLocks(h);
    events := Go(events, m, Off(DTest), Step, Act(MarkAtt(0, true), Off(DRelInv)));
    assert Apply(m, MarkAtt(0, true)) == m';
  }

  lemma DetachOwns(h: Shape) returns (events: seq<Event>)
    requires h.size > 0
    ensures Gets(events, Pinned(With(h, true, true, Mapped, true, {0}), 0), Off(DUnpin))
  {
    var m := Pinned(With(h, true, true, Mapped, true, {0}), 0);
    events := DetachMarks(h);
    events := Go(events, m, Off(DRelInv), Step, To(Off(DOwner)));
    events := Go(events, m, Off(DOwner), Step, To(Off(DUnpin)));
  }

  lemma DetachUnpins() returns (events: seq<Event>)
    ensures Gets(events, Pinned(With(Huge, true, false, Gone, true, {0}), 1), Off(DUnlink))
  {
    var m := Pinned(With(Huge, true, true, Mapped, true, {0}), 0);
    events := DetachOwns(Huge);
    assert Visited(m.atts[0], UnpinAtt(0, Fit)) == {};
    events := Go(events, m, Off(DUnpin), Step, Act(UnpinAtt(0, Fit), Off(DUnlink)));
    assert Apply(m, UnpinAtt(0, Fit)) == Pinned(With(Huge, true, false, Gone, true, {0}), 1);
  }

  lemma DetachUnlinks() returns (events: seq<Event>)
    ensures Gets(events, Pinned(With(Huge, true, false, Gone, false, {0}), 1), Off(DRelMutex))
  {
    var m := Pinned(With(Huge, true, false, Gone, true, {0}), 1);
    events := DetachUnpins();
    events := Go(events, m, Off(DUnlink), Step, Act(UnlinkAtt(0), Off(DRelMutex)));
    assert Apply(m, UnlinkAtt(0)) == Pinned(With(Huge, true, false, Gone, false, {0}), 1);
  }

  lemma DetachUnmaps() returns (events: seq<Event>)
    ensures Gets(events, Pinned(With(Huge, true, false, Gone, false, {0}), 1), Off(DMunmap))
  {
    var m := Pinned(With(Huge, true, false, Gone, false, {0}), 1);
    events := DetachUnlinks();
    events := Go(events, m, Off(DRelMutex), Step, To(Off(DRelMm)));
    events := Go(events, m, Off(DRelMm), Step, To(Off(DWaitMunmap)));
    events := Go(events, m, Off(DWaitMunmap), Step, To(Off(DMunmap)));
  }

  /** The int page count of 2^31 pages is negative: the detach gives nothing back, and the unmap
      removes the page all the same. */
  lemma PinOverrun() returns (events: seq<Event>)
    ensures PinLeft(Run(Init(1), events))
  {
    var m := Pinned(With(Huge, true, false, Gone, false, {0}), 1);
    events := DetachUnmaps();
    events := Go(events, m, Off(DMunmap), Step, Act(UnmapAtt(0), Idle));
    assert Apply(m, UnmapAtt(0)) == Pinned(With(Huge, true, false, Gone, false, {}), 1);
  }

  // ----- A segment that wraps around -----

  const Wraps := Shape(true, 1)

  /** The page is mapped and its segment is in the given state. */
  function Clinging(destroying: bool, destroyed: bool, recalling: bool): Mem {
    Pinned(With(Wraps, false, true, Mapped, true, {0}), 0).(segs := [Seg(0, destroying, destroyed, recalling, true)])
  }

  function Removing(destroying: bool, destroyed: bool): Mem {
    Clinging(destroying, destroyed, false)
  }

  function Clearing(ws: WalkStage): Pc {
    Remove(0, MClear(Walk({}, ws)))
  }

  lemma RemoveSweeps() returns (events: seq<Event>)
    ensures Gets(events, Removing(true, false), Clearing(CClear(0, 7)))
  {
    var m := Removing(true, false);
    events := FaultMaps(Wraps);
    events := Go(events, Removing(false, false), Idle, Ok(DoRemove(0)), To(Remove(0, MTest)));
    events := Go(events, Removing(false, false), Remove(0, MTest), Step, Act(MarkSeg(0), Remove(0, MWaitSema)));
    events := Go(events, m, Remove(0, MWaitSema), Step, To(Clearing(CNext)));
    events := Go(events, m, Clearing(CNext), Step.(pick := 0), To(Clearing(CWaitMm(0, 7))));
    events := Go(events, m, Clearing(CWaitMm(0, 7)), Step, To(Clearing(CWaitMutex(0, 7))));
    events := Go(events, m, Clearing(CWaitMutex(0, 7)), Step, To(Clearing(CClear(0, 7))));
  }

  lemma RemoveSwept() returns (events: seq<Event>)
    ensures Gets(events, Removing(true, false), Remove(0, MMark))
  {
    var m := Removing(true, false);
    events := RemoveSweeps();
    events := Go(events, m, Clearing(CClear(0, 7)), Step, To(Clearing(CRelMutex(0, 7))));
    events := Go(events, m, Clearing(CRelMutex(0, 7)), Step, To(Clearing(CRelMm(0, 7))));
    assert {} + {0} == {0};
    events := Go(events, m, Clearing(CRelMm(0, 7)), Step, To(Remove(0, MClear(Walk({0}, CNext)))));
    assert AllExamined(m, 0, {0});
    events := Go(events, m, Remove(0, MClear(Walk({0}, CNext))), Step, To(Remove(0, MMark)));
  }

  predicate MappedAndDestroyed(m: Mem, a: nat)
    requires a < |m.atts|
  {
    m.atts[a].seg < |m.segs| && m.segs[m.atts[a].seg].destroyed && m.atts[a].pages != {}
  }

  /** The removal clears nothing of a segment that wraps around: it returns, the segment is
      DESTROYED, and the page is still mapped. */
  lemma WrappedStaysMapped() returns (events: seq<Event>)
    ensures var s := Run(Init(1), events);
            Quiescent(s) && exists a :: 0 <= a < |s.m.atts| && MappedAndDestroyed(s.m, a)
  {
    events := RemoveSwept();
    events := Go(events, Removing(true, false), Remove(0, MMark), Step, Act(FinishSeg(0), Remove(0, MUp)));
    events := Go(events, Removing(true, true), Remove(0, MUp), Step, To(Idle));
    assert MappedAndDestroyed(Run(Init(1), events).m, 0);
  }

  function Forking(st: RecallStage): Pc {
    Recall(0, {}, st)
  }

  lemma RecallBegins() returns (events: seq<Event>)
    ensures Gets(events, Clinging(false, false, true), Forking(RClear(0, Walk({}, CNext))))
  {
    var m := Clinging(false, false, false);
    events := FaultMaps(Wraps);
    events := Go(events, m, Idle, Ok(DoRecall(0)), To(Forking(RWaitGate)));
    events := Go(events, m, Forking(RWaitGate), Step, To(Forking(RWaitMutex)));
    events := Go(events, m, Forking(RWaitMutex), Step, To(Forking(RWalk)));
    events := Go(events, m, Forking(RWalk), Step.(pick := 0), To(Forking(RTest(0))));
    events := Go(events, m, Forking(RTest(0)), Step, Act(SetRecalling(0, true), Forking(RWaitSema(0))));
    events := Go(events, Clinging(false, false, true), Forking(RWaitSema(0)), Step, To(Forking(RClear(0, Walk({}, CNext)))));
  }

  function Recalling(ws: WalkStage): Pc {
    Forking(RClear(0, Walk({}, ws)))
  }

  lemma RecallSweeps() returns (events: seq<Event>)
    ensures Gets(events, Clinging(false, false, true), Recalling(CRelMm(0, 7)))
  {
    var m := Clinging(false, false, true);
    events := RecallBegins();
    events := Go(events, m, Recalling(CNext), Step.(pick := 0), To(Recalling(CWaitMm(0, 7))));
    events := Go(events, m, Recalling(CWaitMm(0, 7)), Step, To(Recalling(CWaitMutex(0, 7))));
    events := Go(events, m, Recalling(CWaitMutex(0, 7)), Step, To(Recalling(CClear(0, 7))));
    events := Go(events, m, Recalling(CClear(0, 7)), Step, To(Recalling(CRelMutex(0, 7))));
    events := Go(events, m, Recalling(CRelMutex(0, 7)), Step, To(Recalling(CRelMm(0, 7))));
  }

  lemma RecallSwept() returns (events: seq<Event>)
    ensures Gets(events, Clinging(false, false, true), Forking(RUnflag(0)))
  {
    var m := Clinging(false, false, true);
    events := RecallSweeps();
    assert {} + {0} == {0};
    events := Go(events, m, Recalling(CRelMm(0, 7)), Step, To(Forking(RClear(0, Walk({0}, CNext)))));
    assert AllExamined(m, 0, {0});
    events := Go(events, m, Forking(RClear(0, Walk({0}, CNext))), Step, To(Forking(RUnflag(0))));
  }

  lemma RecallDone() returns (events: seq<Event>)
    ensures Gets(events, Clinging(false, false, false), Recall(0, {0}, RWalk))
  {
    var m := Clinging(false, false, false);
    events := RecallSwept();
    events := Go(events, Clinging(false, false, true), Forking(RUnflag(0)), Step,
                 Act(SetRecalling(0, false), Forking(RUp(0))));
    assert {} + {0} == {0};
    events := Go(events, m, Forking(RUp(0)), Step, To(Recall(0, {0}, RWalk)));
  }

  /** Nor does a recall: the fork is in progress, and the page is mapped. */
  lemma WrappedForkSeesPage() returns (events: seq<Event>)
    ensures var s := Run(Init(1), events);
            && |s.threads| == 1 && s.threads[0].Recall? && s.threads[0].rs.RWindow?
            && |s.m.atts| == 1 && !s.m.atts[0].destroying && s.m.atts[0].tg == s.threads[0].tg && s.m.atts[0].pages != {}
            && s.m.atts[0].seg < |s.m.segs| && !s.m.segs[s.m.atts[0].seg].destroying
  {
    var m := Clinging(false, false, false);
    events := RecallDone();
    assert AllRecalled(m, 0, {0});
    events := Go(events, m, Recall(0, {0}, RWalk), Step, To(Recall(0, {0}, RRelMutex)));
    events := Go(events, m, Recall(0, {0}, RRelMutex), Step, To(Recall(0, {0}, RWindow)));
  }
}
