/**
 The invariant of every run of the protocol and what follows from it: VALIDPTEs is
 sound, a DESTROYED segment has no mapped page and never gains one, and no page is
 mapped while a fork is in progress.
 */
module ProtocolSafety {
  import opened Locks
  import opened Protocol
  import opened ProtocolLocks
  import opened ProtocolKnowledge
  import opened ProtocolEffects
  import opened ProtocolOwners

  // ----- The sweeps of other threads -----

  /** Nothing becomes flagged or reachable, and nothing stops being destroyed. */
  ghost predicate Shrinks(m: Mem, m': Mem) {
    && Extends(m, m')
    && (forall a :: 0 <= a < |m.atts| ==>
        (m'.atts[a].valid ==> m.atts[a].valid) && (m'.atts[a].linked ==> m.atts[a].linked))
    && (forall a :: |m.atts| <= a < |m'.atts| ==> !m'.atts[a].valid)
    && (forall a :: 0 <= a < |m.atts| ==> m.atts[a].seg < |m.segs|)
    && (forall q :: 0 <= q < |m.segs| && m.segs[q].destroying ==> m'.segs[q].destroying)
  }

  lemma NoValidShrinks(m: Mem, m': Mem, q: nat)
    requires Shrinks(m, m')
    ensures NoValid(m, q) ==> NoValid(m', q)
    ensures q >= |m.segs| ==> NoValid(m', q)
  {
  }

  lemma QuietShrinks(m: Mem, m': Mem, q: nat)
    requires Shrinks(m, m')
    ensures Quiet(m, q) ==> Quiet(m', q)
  {
    NoValidShrinks(m, m', q);
  }

  lemma SweptShrinks(m: Mem, m': Mem, pc: Pc)
    requires Shrinks(m, m') && Located(m, pc) && Swept(m, pc)
    ensures Swept(m', pc)
  {
    forall q: nat
      ensures NoValid(m, q) ==> NoValid(m', q)
      ensures Quiet(m, q) ==> Quiet(m', q)
    {
      NoValidShrinks(m, m', q);
      QuietShrinks(m, m', q);
    }
  }

  lemma EffectShrinks(m: Mem, e: Effect, m': Mem)
    requires MemOk(m) && EffectWf(m, e) && Applied(m, e, m') && !e.Flag?
    ensures Shrinks(m, m')
  {
    assert forall a :: 0 <= a < |m.atts| ==> AttWf(m, a);
  }

  /** Only a fault flags an attachment, and the semaphore and the gate it holds keep
      every sweep of the segment away. */
  lemma SweptFlagged(m: Mem, t: Pc, e: Effect, m': Mem, u: Pc)
    requires e.Flag? && EffectWf(m, e) && Applied(m, e, m') && Performs(m, t, e)
    requires Located(m, t) && Located(m, u) && CompatiblePcs(t, u) && Swept(m, u)
    ensures Swept(m', u)
  {
    var seg, tg := m.atts[e.a].seg, m.atts[e.a].tg;
    assert Compatible(Holds(t, Sema(seg)), Holds(u, Sema(seg)));
    assert Compatible(Holds(t, GateLock(tg)), Holds(u, GateLock(tg)));
    forall q: nat | q != seg
      ensures NoValid(m, q) ==> NoValid(m', q)
      ensures Quiet(m, q) ==> Quiet(m', q)
    {
    }
  }

  // ----- The sweep of the thread that takes the step -----

  lemma WalkSwept(s: State, t: nat, q: nat, w: Walk, c: Choice, m': Mem)
    requires WalkLocated(s.m, q, w) && SeenClean(m', w) && |s.m.atts| <= |m'.atts|
    requires forall a :: 0 <= a < |s.m.atts| && Unflagged(s.m, a) ==> Unflagged(m', a)
    requires forall a :: 0 <= a < |m'.atts| && m'.atts[a].seg == q && m'.atts[a].linked && !Unflagged(m', a) ==>
      a < |s.m.atts| && s.m.atts[a].seg == q && s.m.atts[a].linked
    requires w.ws.CClear? ==> Unflagged(m', w.ws.att)
    ensures var n := WalkNext(s, t, q, w, c);
            if n.Ended? then NoValid(m', q) else SeenClean(m', n.w)
  {
  }

  lemma RecallSwept(s: State, t: nat, g: nat, done: set<nat>, st: RecallStage, c: Choice, m': Mem)
    requires MemOk(s.m) && ThreadOk(s.m, Recall(g, done, st))
    requires Applied(s.m, RecallAct(s, t, g, done, st, c).e, m') && Swept(m', Recall(g, done, st))
    ensures Swept(m', RecallAct(s, t, g, done, st, c).pc)
  {
    if st.RClear? {
      WalkSwept(s, t, st.q, st.w, c, m');
    }
  }

  lemma RemoveSwept(s: State, t: nat, q: nat, st: RemoveStage, c: Choice, m': Mem)
    requires MemOk(s.m) && ThreadOk(s.m, Remove(q, st))
    requires Applied(s.m, RemoveAct(s, t, q, st, c).e, m') && Swept(m', Remove(q, st))
    ensures Swept(m', RemoveAct(s, t, q, st, c).pc)
  {
    if st.MClear? {
      WalkSwept(s, t, q, st.w, c, m');
    }
  }

  // ----- The invariant -----

  ghost predicate Inv(s: State) {
    && Exclusion(s)
    && Owned(s)
    && MemOk(s.m)
    && (forall t :: 0 <= t < |s.threads| ==> ThreadOk(s.m, s.threads[t]))
  }

  lemma MutexConflict(p: Pc, u: Pc, l: Lock)
    requires CompatiblePcs(p, u)
    ensures !(Holds(p, l) == Wr && Holds(u, l) == Wr)
  {
    assert Compatible(Holds(p, l), Holds(u, l));
  }

  /** No other thread recalls segment q while thread t, holding the recall mutex of the
      group, is about to. */
  lemma NotRecalling(s: State, t: nat, q: nat)
    requires Inv(s) && t < |s.threads| && s.threads[t].Recall? && s.threads[t].rs == RTest(q)
    ensures q < |s.m.segs| && !s.m.segs[q].recalling
  {
    assert ThreadOk(s.m, s.threads[t]);
    if s.m.segs[q].recalling {
      assert Announced(s.m, RecallJob(q));
      var u :| 0 <= u < |s.threads| && Works(s.threads[u], RecallJob(q));
      assert ThreadOk(s.m, s.threads[u]);
      MutexConflict(s.threads[t], s.threads[u], RecallMutex(s.m.segs[q].tg));
    }
  }

  lemma OthersSegClaims(m: Mem, t: Pc, e: Effect, m': Mem, u: Pc, q: nat)
    requires EffectWf(m, e) && Performs(m, t, e) && Applied(m, e, m')
    requires Located(m, u) && CompatiblePcs(t, u) && q < |m'.segs|
    requires q < |m.segs| ==> SegClaims(u, q, m.segs[q])
    ensures SegClaims(u, q, m'.segs[q])
  {
    assert Compatible(Holds(t, Sema(q)), Holds(u, Sema(q)));
  }

  lemma FaultSegClaims(s: State, t: nat, f: Ctx, st: FaultStage, c: Choice, m': Mem, q: nat)
    requires CtxOk(s.m, f) && q < |s.m.segs| && SegClaims(Fault(f, st), q, s.m.segs[q])
    requires s.m.segs[q].destroyed ==> s.m.segs[q].destroying
    requires Applied(s.m, FaultAct(s, t, f, st, c).e, m')
    ensures SegClaims(FaultAct(s, t, f, st, c).pc, q, m'.segs[q])
  {
  }

  lemma RecallSegClaims(s: State, t: nat, g: nat, done: set<nat>, st: RecallStage, c: Choice, m': Mem, q: nat)
    requires q < |s.m.segs| && SegClaims(Recall(g, done, st), q, s.m.segs[q])
    requires st == RTest(q) ==> !s.m.segs[q].recalling
    requires Applied(s.m, RecallAct(s, t, g, done, st, c).e, m')
    ensures SegClaims(RecallAct(s, t, g, done, st, c).pc, q, m'.segs[q])
  {
  }

  lemma RemoveSegClaims(s: State, t: nat, r: nat, st: RemoveStage, c: Choice, m': Mem, q: nat)
    requires r < |s.m.segs| && q < |s.m.segs| && SegClaims(Remove(r, st), q, s.m.segs[q])
    requires Applied(s.m, RemoveAct(s, t, r, st, c).e, m')
    ensures SegClaims(RemoveAct(s, t, r, st, c).pc, q, m'.segs[q])
  {
  }

  lemma OwnSegClaims(s: State, t: nat, pc: Pc, c: Choice, m': Mem, q: nat)
    requires Located(s.m, pc) && q < |s.m.segs| && SegClaims(pc, q, s.m.segs[q])
    requires s.m.segs[q].destroyed ==> s.m.segs[q].destroying
    requires pc.Recall? && pc.rs == RTest(q) ==> !s.m.segs[q].recalling
    requires Applied(s.m, ActOf(s, t, pc, c).e, m')
    ensures SegClaims(ActOf(s, t, pc, c).pc, q, m'.segs[q])
  {
    match pc {
      case Fault(f, st) => FaultSegClaims(s, t, f, st, c, m', q);
      case Recall(g, done, st) => RecallSegClaims(s, t, g, done, st, c, m', q);
      case Remove(r, st) => RemoveSegClaims(s, t, r, st, c, m', q);
      case Detach(a, mm, byList, st) => DetachFocus(s, t, a, mm, byList, st, c);
      case Close(a, mm, st) => CloseFocus(s, t, a, mm, st);
      case _ =>
    }
  }

  // ----- One step -----

  /** The thread that takes the step. */
  lemma OwnThreadOk(s: State, t: nat, pc: Pc, c: Choice, m': Mem)
    requires MemOk(s.m) && ThreadOk(s.m, pc)
    requires pc.Recall? && pc.rs.RTest? && pc.rs.q < |s.m.segs| ==> !s.m.segs[pc.rs.q].recalling
    requires var act := ActOf(s, t, pc, c); Sound(s.m, pc, act) && Applied(s.m, act.e, m')
    ensures ThreadOk(m', ActOf(s, t, pc, c).pc)
  {
    var act := ActOf(s, t, pc, c);
    OwnLocated(s, t, pc, c, m');
    forall a | 0 <= a < |m'.atts|
      ensures Claims(act.pc, a, m'.atts[a])
    {
      if a < |s.m.atts| {
        ActClaims(s, t, pc, c, a);
      }
    }
    forall q | 0 <= q < |m'.segs|
      ensures SegClaims(act.pc, q, m'.segs[q])
    {
      if q < |s.m.segs| {
        assert SegOk(s.m, q);
        OwnSegClaims(s, t, pc, c, m', q);
      }
    }
    OwnSwept(s, t, pc, c, m');
  }

  lemma OwnLocated(s: State, t: nat, pc: Pc, c: Choice, m': Mem)
    requires Located(s.m, pc)
    requires var act := ActOf(s, t, pc, c); Sound(s.m, pc, act) && Applied(s.m, act.e, m')
    ensures Located(m', ActOf(s, t, pc, c).pc)
  {
    var act := ActOf(s, t, pc, c);
    if !act.e.NewAtt? {
      LocatedExtends(s.m, m', act.pc);
    }
  }

  lemma SweepStays(m: Mem, e: Effect, m': Mem, pc: Pc)
    requires MemOk(m) && EffectWf(m, e) && Applied(m, e, m') && !e.Flag? && Located(m, pc) && Swept(m, pc)
    ensures Swept(m', pc)
  {
    EffectShrinks(m, e, m');
    SweptShrinks(m, m', pc);
  }

  lemma RestFocus(s: State, t: nat, pc: Pc, c: Choice)
    requires pc.Idle? || pc.Inval? || pc.Attach?
    ensures var pc' := ActOf(s, t, pc, c).pc;
            && (pc'.Recall? ==> pc'.done == {} && pc'.rs.RWaitGate?)
            && (pc'.Remove? ==> pc'.ms.MTest?)
  {
  }

  lemma OwnSwept(s: State, t: nat, pc: Pc, c: Choice, m': Mem)
    requires MemOk(s.m) && ThreadOk(s.m, pc)
    requires var act := ActOf(s, t, pc, c); Sound(s.m, pc, act) && Applied(s.m, act.e, m')
    ensures Swept(m', ActOf(s, t, pc, c).pc)
  {
    match pc {
      case Recall(g, done, st) =>
        SweepStays(s.m, ActOf(s, t, pc, c).e, m', pc);
        RecallSwept(s, t, g, done, st, c, m');
      case Remove(q, st) =>
        SweepStays(s.m, ActOf(s, t, pc, c).e, m', pc);
        RemoveSwept(s, t, q, st, c, m');
      case Fault(f, st) => FaultFocus(s, t, f, st, c);
      case Detach(a, mm, byList, st) => DetachFocus(s, t, a, mm, byList, st, c);
      case Close(a, mm, st) => CloseFocus(s, t, a, mm, st);
      case _ => RestFocus(s, t, pc, c);
    }
  }

  lemma ChangedClaims(m: Mem, t: Pc, e: Effect, u: Pc)
    requires Located(m, t) && Located(m, u) && CompatiblePcs(t, u)
    requires EffectWf(m, e) && Performs(m, t, e) && OnAtt(e)
    requires Claims(t, e.a, m.atts[e.a]) && Claims(u, e.a, m.atts[e.a])
    ensures Claims(u, e.a, AttAfter(m.atts[e.a], e))
  {
    PerformerKnows(m, t, e);
    ClaimsStable(m, t, e, u);
  }

  lemma OthersClaims(m: Mem, t: Pc, e: Effect, m': Mem, u: Pc, a: nat)
    requires Located(m, t) && Located(m, u) && CompatiblePcs(t, u) && a < |m'.atts|
    requires forall b :: 0 <= b < |m.atts| ==> Claims(t, b, m.atts[b]) && Claims(u, b, m.atts[b])
    requires EffectWf(m, e) && Performs(m, t, e) && Applied(m, e, m')
    ensures Claims(u, a, m'.atts[a])
  {
    if OnAtt(e) && e.a == a {
      ChangedClaims(m, t, e, u);
    }
  }

  lemma OthersSwept(m: Mem, t: Pc, e: Effect, m': Mem, u: Pc)
    requires MemOk(m) && Located(m, t) && Located(m, u) && CompatiblePcs(t, u) && Swept(m, u)
    requires EffectWf(m, e) && Performs(m, t, e) && Applied(m, e, m')
    ensures Swept(m', u)
  {
    if e.Flag? {
      SweptFlagged(m, t, e, m', u);
    } else {
      SweepStays(m, e, m', u);
    }
  }

  /** Every other thread. */
  lemma OtherThreadOk(m: Mem, t: Pc, e: Effect, m': Mem, u: Pc)
    requires MemOk(m) && ThreadOk(m, t) && ThreadOk(m, u) && CompatiblePcs(t, u)
    requires EffectWf(m, e) && Performs(m, t, e) && Applied(m, e, m')
    ensures ThreadOk(m', u)
  {
    LocatedExtends(m, m', u);
    forall a | 0 <= a < |m'.atts|
      ensures Claims(u, a, m'.atts[a])
    {
      OthersClaims(m, t, e, m', u, a);
    }
    forall q | 0 <= q < |m'.segs|
      ensures SegClaims(u, q, m'.segs[q])
    {
      OthersSegClaims(m, t, e, m', u, q);
    }
    OthersSwept(m, t, e, m', u);
  }

  lemma MemStaysOk(m: Mem, t: Pc, e: Effect, m': Mem)
    requires MemOk(m) && ThreadOk(m, t)
    requires EffectWf(m, e) && Performs(m, t, e) && Applied(m, e, m')
    requires |m.tgs| <= |m'.tgs| && (e.MakeSeg? ==> e.g < |m'.tgs|)
    ensures MemOk(m')
  {
    assert forall a :: 0 <= a < |m.atts| ==> AttWf(m, a);
    assert forall q :: 0 <= q < |m.segs| ==> SegWf(m, q);
    forall a | 0 <= a < |m'.atts|
      ensures AttWf(m', a) && AttOk(m'.atts[a])
    {
      if OnAtt(e) && e.a == a {
        PerformerKnows(m, t, e);
        AttStaysOk(m.atts[a], e);
      }
    }
    forall q | 0 <= q < |m'.segs|
      ensures SegWf(m', q) && SegOk(m', q)
    {
      if q < |m.segs| {
        assert SegWf(m, q);
        SegStaysOk(m, t, e, m', q);
      }
    }
  }

  lemma SegStaysOk(m: Mem, t: Pc, e: Effect, m': Mem, q: nat)
    requires MemOk(m) && ThreadOk(m, t) && q < |m.segs|
    requires EffectWf(m, e) && Performs(m, t, e) && Applied(m, e, m')
    ensures SegOk(m', q)
  {
    assert SegOk(m, q);
    if e.Flag? {
      assert SegClaims(t, q, m.segs[q]);
      if m.atts[e.a].seg != q {
        assert NoValid(m, q) ==> NoValid(m', q);
      }
    } else {
      EffectShrinks(m, e, m');
      NoValidShrinks(m, m', q);
    }
  }

  lemma ThreadsStayOk(s: State, t: nat, c: Choice, m': Mem)
    requires Inv(s) && t < |s.threads|
    requires var act := ActOf(s, t, s.threads[t], c);
             Sound(s.m, s.threads[t], act) && Applied(s.m, act.e, m')
    ensures ThreadOk(m', ActOf(s, t, s.threads[t], c).pc)
    ensures forall u :: 0 <= u < |s.threads| && u != t ==> ThreadOk(m', s.threads[u])
  {
    var pc := s.threads[t];
    if pc.Recall? && pc.rs.RTest? {
      NotRecalling(s, t, pc.rs.q);
    }
    OwnThreadOk(s, t, pc, c, m');
    forall u | 0 <= u < |s.threads| && u != t
      ensures ThreadOk(m', s.threads[u])
    {
      assert CompatiblePcs(pc, s.threads[u]);
      OtherThreadOk(s.m, pc, ActOf(s, t, pc, c).e, m', s.threads[u]);
    }
  }

  lemma MemAndOwnersStayOk(s: State, t: nat, c: Choice, m': Mem)
    requires Inv(s) && t < |s.threads|
    requires var act := ActOf(s, t, s.threads[t], c);
             Sound(s.m, s.threads[t], act) && Applied(s.m, act.e, m')
    ensures MemOk(m') && Owned(State(m', s.threads[t := ActOf(s, t, s.threads[t], c).pc]))
  {
    var pc := s.threads[t];
    var e := ActOf(s, t, pc, c).e;
    assert ThreadOk(s.m, pc);
    if OnAtt(e) {
      PerformerKnows(s.m, pc, e);
    }
    OwnedStep(s, t, c, m');
    MemStaysOk(s.m, pc, e, m');
  }

  lemma StepKeepsInv(s: State, t: nat, c: Choice)
    requires Inv(s) && t < |s.threads|
    ensures Inv(Next(s, Event(t, c)))
  {
    var pc := s.threads[t];
    var act := ActOf(s, t, pc, c);
    assert ThreadOk(s.m, pc);
    ActSound(s, t, pc, c);
    ApplyIsApplied(s.m, act.e);
    NextKeepsExclusion(s, Event(t, c));
    MemAndOwnersStayOk(s, t, c, Apply(s.m, act.e));
    ThreadsStayOk(s, t, c, Apply(s.m, act.e));
  }

  lemma {:induction false} RunKeepsInv(s: State, events: seq<Event>)
    requires Inv(s)
    ensures Inv(Run(s, events))
    decreases |events|
  {
    if events != [] {
      if events[0].t < |s.threads| {
        StepKeepsInv(s, events[0].t, events[0].c);
      }
      RunKeepsInv(Next(s, events[0]), events[1..]);
    }
  }

  lemma InitInv(threads: nat)
    ensures Inv(Init(threads))
  {
  }

  // ----- What every run guarantees -----

  predicate Live(m: Mem, a: nat) {
    a < |m.atts| && !m.atts[a].destroying
  }

  /** VALIDPTEs is sound: a live attachment with a mapped page has the flag set, in every
      state of every run. */
  lemma ValidPtesSound(threads: nat, events: seq<Event>, a: nat)
    requires Live(Run(Init(threads), events).m, a)
    ensures var m := Run(Init(threads), events).m; m.atts[a].pages != {} ==> m.atts[a].valid
  {
    InitInv(threads);
    RunKeepsInv(Init(threads), events);
    assert AttOk(Run(Init(threads), events).m.atts[a]);
  }

  /** Once a segment that does not wrap around is DESTROYED no live attachment of it has a mapped page. */
  lemma DestroyedIsUnmapped(threads: nat, events: seq<Event>, a: nat)
    requires Live(Run(Init(threads), events).m, a)
    ensures var m := Run(Init(threads), events).m;
            && m.atts[a].seg < |m.segs|
            && (m.segs[m.atts[a].seg].destroyed && !Wrapped(m, m.atts[a].seg) ==> m.atts[a].pages == {})
  {
    InitInv(threads);
    RunKeepsInv(Init(threads), events);
    var m := Run(Init(threads), events).m;
    assert AttWf(m, a) && AttOk(m.atts[a]);
    assert SegOk(m, m.atts[a].seg);
  }

  lemma {:induction false} RunExtends(s: State, events: seq<Event>)
    requires Inv(s)
    ensures Extends(s.m, Run(s, events).m)
    ensures forall q :: 0 <= q < |s.m.segs| && s.m.segs[q].destroyed ==> Run(s, events).m.segs[q].destroyed
    decreases |events|
  {
    if events != [] {
      var s' := Next(s, events[0]);
      if events[0].t < |s.threads| {
        var act := ActOf(s, events[0].t, s.threads[events[0].t], events[0].c);
        assert ThreadOk(s.m, s.threads[events[0].t]);
        ActSound(s, events[0].t, s.threads[events[0].t], events[0].c);
        ApplyIsApplied(s.m, act.e);
        StepKeepsInv(s, events[0].t, events[0].c);
      }
      RunExtends(s', events[1..]);
    }
  }

  /** ... and none ever gains one: from a state in which segment q, which does not wrap around, is
      DESTROYED, no continuation of the run gives a live attachment of q a mapped page, although a fault
      gives the segment up before it installs its page table entry. */
  lemma DestroyedStaysUnmapped(threads: nat, before: seq<Event>, after: seq<Event>, q: nat, a: nat)
    requires var m := Run(Init(threads), before).m; q < |m.segs| && m.segs[q].destroyed && !Wrapped(m, q)
    requires var m := Run(Run(Init(threads), before), after).m; Live(m, a) && m.atts[a].seg == q
    ensures Run(Run(Init(threads), before), after).m.atts[a].pages == {}
  {
    InitInv(threads);
    var s := Run(Init(threads), before);
    RunKeepsInv(Init(threads), before);
    RunKeepsInv(s, after);
    RunExtends(s, after);
    var m := Run(s, after).m;
    assert AttOk(m.atts[a]) && SegOk(m, q);
  }

  /** From the return of fork_begin to fork_end, no live attachment to a segment of the group
      that is not DESTROYING and does not wrap around has a mapped page. */
  lemma ForkSeesNoPages(threads: nat, events: seq<Event>, t: nat, a: nat)
    requires var s := Run(Init(threads), events);
             && t < |s.threads| && s.threads[t].Recall? && s.threads[t].rs.RWindow?
             && Live(s.m, a) && s.m.atts[a].tg == s.threads[t].tg
    ensures var m := Run(Init(threads), events).m;
            && m.atts[a].seg < |m.segs|
            && (!m.segs[m.atts[a].seg].destroying && !Wrapped(m, m.atts[a].seg) ==> m.atts[a].pages == {})
  {
    InitInv(threads);
    RunKeepsInv(Init(threads), events);
    var s := Run(Init(threads), events);
    assert ThreadOk(s.m, s.threads[t]);
    assert AttWf(s.m, a) && AttOk(s.m.atts[a]);
    assert Quiet(s.m, s.m.atts[a].seg);
  }

  // ----- At most one unlink -----

  predicate Unlinks(e: Effect, a: nat) {
    e == UnlinkAtt(a) || e == FailAtt(a)
  }

  /** How often during the run attachment a is unlinked and loses its existence reference,
      by a detach, a release, a whole-vma unmap or a failed attach. */
  ghost function Unlinked(s: State, events: seq<Event>, a: nat): nat
    decreases |events|
  {
    if events == [] then 0
    else
      var e := events[0];
      (if e.t < |s.threads| && Unlinks(ActOf(s, e.t, s.threads[e.t], e.c).e, a) then 1 else 0)
      + Unlinked(Next(s, e), events[1..], a)
  }

  /** Only what is linked is unlinked. */
  lemma UnlinkerKnows(s: State, t: nat, c: Choice, a: nat)
    requires Inv(s) && t < |s.threads| && Unlinks(ActOf(s, t, s.threads[t], c).e, a)
    ensures a < |s.m.atts| && s.m.atts[a].linked
  {
    var pc := s.threads[t];
    assert ThreadOk(s.m, pc);
    ActSound(s, t, pc, c);
    PerformerKnows(s.m, pc, ActOf(s, t, pc, c).e);
    assert AttOk(s.m.atts[a]);
  }

  lemma LinkedAfter(at: Att, e: Effect)
    ensures AttAfter(at, e).linked == (at.linked && !e.UnlinkAtt? && !e.FailAtt?)
  {
  }

  lemma StepUnlinks(s: State, t: nat, c: Choice, a: nat)
    requires Inv(s) && t < |s.threads|
    ensures var e, m' := ActOf(s, t, s.threads[t], c).e, Next(s, Event(t, c)).m;
            && (Unlinks(e, a) ==> a < |s.m.atts| && s.m.atts[a].linked && a < |m'.atts| && !m'.atts[a].linked)
            && (a < |s.m.atts| && !s.m.atts[a].linked ==> a < |m'.atts| && !m'.atts[a].linked)
  {
    var pc := s.threads[t];
    var e := ActOf(s, t, pc, c).e;
    assert ThreadOk(s.m, pc);
    ActSound(s, t, pc, c);
    ApplyIsApplied(s.m, e);
    if Unlinks(e, a) {
      UnlinkerKnows(s, t, c, a);
    }
    if a < |s.m.atts| {
      LinkedAfter(s.m.atts[a], e);
    }
  }

  lemma {:induction false} RunUnlinksOnce(s: State, events: seq<Event>, a: nat)
    requires Inv(s)
    ensures Unlinked(s, events, a) <= 1
    ensures a < |s.m.atts| && !s.m.atts[a].linked ==> Unlinked(s, events, a) == 0
    decreases |events|
  {
    if events != [] {
      var e := events[0];
      if e.t < |s.threads| {
        StepUnlinks(s, e.t, e.c, a);
        StepKeepsInv(s, e.t, e.c);
      }
      RunUnlinksOnce(Next(s, e), events[1..], a);
    }
  }

  /** At most one of any racing detach, release, unmap or failed attach unlinks an attachment. */
  lemma UnlinkedAtMostOnce(threads: nat, events: seq<Event>, a: nat)
    ensures Unlinked(Init(threads), events, a) <= 1
  {
    InitInv(threads);
    RunUnlinksOnce(Init(threads), events, a);
  }
}
