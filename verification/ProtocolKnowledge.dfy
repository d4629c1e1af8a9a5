/**
 What each program counter of the protocol knows about the shared state, and why no
 step of another thread makes it wrong: the locks the thread holds exclude every
 effect that could.
 */
module ProtocolKnowledge {
  import opened Locks
  import opened Protocol
  import opened ProtocolLocks

  // ----- What each program counter knows -----

  /** The indices a program counter carries point at the objects it means. */
  ghost predicate Located(m: Mem, pc: Pc) {
    match pc
    case Idle => true
    case Fault(f, _) => CtxOk(m, f)
    case Recall(g, done, st) =>
      && g < |m.tgs|
      && (forall q :: q in done ==> q < |m.segs| && m.segs[q].tg == g)
      && (OnSegment(st) ==> st.q < |m.segs| && m.segs[st.q].tg == g)
      && (st.RClear? ==> WalkLocated(m, st.q, st.w))
    case Remove(q, st) => SegWf(m, q) && (st.MClear? ==> WalkLocated(m, q, st.w))
    case Detach(a, mm, _, _) => AttWf(m, a) && m.atts[a].mm == mm
    case Close(a, mm, _) => AttWf(m, a) && m.atts[a].mm == mm
    case Inval(g, mm, st) =>
      && g < |m.tgs|
      && m.tgs[g].mm == mm
      && (st.IWaitInv? || st.IClear? || st.IRelInv? ==> AttWf(m, st.a) && m.atts[st.a].tg == g)
    case Attach(q, g, mm, st) =>
      && SegWf(m, q)
      && m.segs[q].tg == g
      && (OnAttachment(st) ==> AttWf(m, st.a) && m.atts[st.a].seg == q && m.atts[st.a].mm == mm)
  }

  predicate OnSegment(st: RecallStage) {
    st.RTest? || st.RAwait? || st.RWaitSema? || st.RClear? || st.RUnflag? || st.RUp?
  }

  predicate OnAttachment(st: AttachStage) {
    st.ALinked? || st.AWaitMm? || st.AMapped? || st.ASetVma? || st.AFail? || st.ARelMutex?
  }

  ghost predicate WalkLocated(m: Mem, q: nat, w: Walk) {
    && (forall a :: a in w.seen ==> a < |m.atts| && m.atts[a].seg == q)
    && (!w.ws.CNext? ==> AttWf(m, w.ws.att) && m.atts[w.ws.att].seg == q && m.atts[w.ws.att].mm == w.ws.mm)
  }

  /** Stages at which the fault handler has seen the vma and still holds its mmap lock. */
  predicate VmaKnown(st: FaultStage) {
    match st
    case FTryGate | FTrySema | FTested | FSource(false) | FWaitSrcAbove(false) | FVerify(false) => true
    case FWaitMutex | FValidate | FPin | FFlag | FUpRead | FUnblock | FInstall => true
    case _ => false
  }

  /** What a program counter claims of the attachment it works on. */
  predicate Claims(pc: Pc, a: nat, at: Att) {
    match pc
    case Fault(f, st) =>
      f.att == a ==>
        && (VmaKnown(st) ==> at.vma.Mapped?)
        && (st.FPin? || st.FFlag? || st.FUpRead? || st.FUnblock? || st.FInstall? ==> !at.destroying)
        && (st.FUpRead? || st.FUnblock? || st.FInstall? ==> at.valid)
        && (st.FPin? || st.FFlag? || st.FUpRead? || st.FUnblock? || st.FInstall? ==> f.page < at.size)
    case Detach(b, _, byList, st) =>
      b == a ==>
        && (!byList && (st.DWaitMutex? || st.DWaitInv? || st.DTest?) ==> at.vma.Mapped?)
        && (st.DRelInv? || st.DOwner? || st.DLook? ==> at.destroying && at.linked && (!byList ==> at.vma.Mapped?))
        && (st.DOwner? ==> !byList)
        && (st.DUnpin? ==> at.destroying && at.linked && at.vma.Mapped?)
        && (st.DUnlink? ==> at.linked)
        && (st.DUnlink? || st.DRelMutex? || st.DRelMm? || st.DWaitMunmap? || st.DMunmap? ==>
            at.destroying && at.vma.Gone? && !at.valid)
    case Close(b, _, st) =>
      b == a ==>
        && (st.KWaitMutex? || st.KTest? || st.KUnlink? ==> at.vma.Gone?)
        && (st.KUnlink? ==> at.destroying && at.linked)
    case Attach(_, _, _, st) =>
      OnAttachment(st) && !st.ARelMutex? && st.a == a ==>
        at.vma.NotYet? && !at.valid && at.pages == {} && !at.destroying
    case _ => true
  }

  /** What a program counter claims of the flags of the segment it works on. */
  predicate SegClaims(pc: Pc, q: nat, seg: Seg) {
    match pc
    case Fault(f, st) => f.seg == q && st.FFlag? ==> !seg.destroyed
    case Recall(_, _, st) => st.RAwait? && st.q == q ==> seg.destroying
    case Remove(r, st) => r == q && !st.MTest? ==> seg.destroying
    case _ => true
  }

  predicate Wrapped(m: Mem, q: nat) {
    q < |m.segs| && m.segs[q].wrapped
  }

  /** Attachment a is not flagged VALIDPTEs, or its segment wraps around and is never cleared. */
  predicate Unflagged(m: Mem, a: nat)
    requires a < |m.atts|
  {
    !m.atts[a].valid || Wrapped(m, m.atts[a].seg)
  }

  /** No attachment that can be reached from segment q is flagged. */
  ghost predicate NoValid(m: Mem, q: nat) {
    forall a :: 0 <= a < |m.atts| && m.atts[a].seg == q && m.atts[a].linked ==> Unflagged(m, a)
  }

  ghost predicate SeenClean(m: Mem, w: Walk) {
    && (forall a :: a in w.seen && a < |m.atts| ==> Unflagged(m, a))
    && ((w.ws.CRelMutex? || w.ws.CRelMm?) && w.ws.att < |m.atts| ==> Unflagged(m, w.ws.att))
  }

  /** Segment q is going away, or nothing reachable from it is flagged. */
  ghost predicate Quiet(m: Mem, q: nat) {
    q < |m.segs| ==> m.segs[q].destroying || NoValid(m, q)
  }

  /** What a walk or a recall has established so far. */
  ghost predicate Swept(m: Mem, pc: Pc) {
    match pc
    case Recall(g, done, st) =>
      && (st.RWaitGate? ==> done == {})
      && (forall q :: q in done ==> Quiet(m, q))
      && (st.RClear? ==> SeenClean(m, st.w))
      && (st.RUnflag? || st.RUp? ==> NoValid(m, st.q))
      && (st.RRelMutex? || st.RWindow? ==>
          forall q :: 0 <= q < |m.segs| && m.segs[q].tg == g ==> Quiet(m, q))
    case Remove(q, st) => (st.MClear? ==> SeenClean(m, st.w)) && (st.MMark? ==> NoValid(m, q))
    case _ => true
  }

  ghost predicate ThreadOk(m: Mem, pc: Pc) {
    && Located(m, pc)
    && (forall a :: 0 <= a < |m.atts| ==> Claims(pc, a, m.atts[a]))
    && (forall q :: 0 <= q < |m.segs| ==> SegClaims(pc, q, m.segs[q]))
    && Swept(m, pc)
  }

  // ----- What holds of the shared state -----

  predicate AttOk(at: Att) {
    && (at.pages != {} ==> (at.vma.Mapped? && at.valid) || (at.vma.Gone? && !at.valid && at.destroying))
    && (!at.destroying ==> at.linked)
    && (at.valid ==> !at.vma.NotYet?)
    && (forall p :: p in at.pages ==> p < at.size)
  }

  ghost predicate SegOk(m: Mem, q: nat)
    requires q < |m.segs|
  {
    m.segs[q].destroyed ==> m.segs[q].destroying && NoValid(m, q)
  }

  ghost predicate MemOk(m: Mem) {
    && (forall a :: 0 <= a < |m.atts| ==> AttWf(m, a) && AttOk(m.atts[a]))
    && (forall q :: 0 <= q < |m.segs| ==> SegWf(m, q) && SegOk(m, q))
  }

  // ----- Which program counter performs which effect -----

  predicate IsClearing(pc: Pc, a: nat) {
    || (pc.Recall? && pc.rs.RClear? && pc.rs.w.ws.CClear? && pc.rs.w.ws.att == a)
    || (pc.Remove? && pc.ms.MClear? && pc.ms.w.ws.CClear? && pc.ms.w.ws.att == a)
  }

  predicate Performs(m: Mem, pc: Pc, e: Effect)
    requires EffectWf(m, e)
  {
    match e
    case Nothing => true
    case OpenTg(_) | MarkTg(_) | MakeSeg(_, _) => pc.Idle?
    case MarkSeg(q) => pc == Remove(q, MTest)
    case FinishSeg(q) => pc == Remove(q, MMark)
    case SetRecalling(q, on) => pc.Recall? && pc.rs == if on then RTest(q) else RUnflag(q)
    case Pin(g) => pc.Fault? && pc.f.tg == g && pc.fs == FPin && CtxOk(m, pc.f) && !m.segs[pc.f.seg].destroying
    case Unpin(g) => pc.Fault? && pc.f.tg == g && pc.fs == FInstall
    case Lose(g) => pc.Fault? && pc.f.tg == g && pc.fs == FInstall
    case Flag(a) => pc.Fault? && pc.f.att == a && pc.fs == FFlag
    case Install(a, p) => pc.Fault? && pc.f.att == a && pc.f.page == p && pc.fs == FInstall && p !in m.atts[a].pages
    case ClearAll(a, _) => IsClearing(pc, a)
    case ClearSome(a, _, _, _) => pc.Inval? && pc.vs == IClear(a)
    case NewAtt(q, g, mm, _) => pc == Attach(q, g, mm, ACreate)
    case SetVma(a) => pc.Attach? && pc.hs == ASetVma(a)
    case FailAtt(a) => pc.Attach? && pc.hs == AFail(a)
    case MarkAtt(a, on) =>
      if on then !m.atts[a].destroying && ((pc.Detach? && pc.att == a && pc.ds == DTest)
                                           || (pc.Close? && pc.att == a && pc.ks == KTest))
      else pc.Detach? && pc.att == a && pc.ds == DOwner
    case UnpinAtt(a, _) => pc.Detach? && pc.att == a && pc.ds == DUnpin
    case UnlinkAtt(a) => (pc.Detach? && pc.att == a && pc.ds == DUnlink) || (pc.Close? && pc.att == a && pc.ks == KUnlink)
    case UnmapAtt(a) => pc.Detach? && pc.att == a && pc.ds == DMunmap
    case ZapAtt(a) => pc.Close? && pc.att == a && pc.ks == KZap && m.atts[a].vma.Mapped?
  }

  predicate OnAtt(e: Effect) {
    || e.Flag? || e.Install? || e.ClearAll? || e.ClearSome? || e.SetVma? || e.FailAtt? || e.MarkAtt?
    || e.UnpinAtt? || e.UnlinkAtt? || e.UnmapAtt? || e.ZapAtt?
  }

  /** Effects performed under the mutex of the attachment. */
  predicate UnderMutex(e: Effect) {
    e.Flag? || e.Install? || e.ClearAll? || e.SetVma? || e.FailAtt? || e.MarkAtt? || e.UnpinAtt? || e.UnlinkAtt?
  }

  /** Effects performed with the mmap lock of the attaching process held for writing. */
  predicate UnderOwnMmap(e: Effect) {
    e.UnpinAtt? || e.ZapAtt?
  }

  /** What the performer of an effect knows of the attachment. */
  predicate Facts(at: Att, e: Effect) {
    match e
    case Flag(_) => at.vma.Mapped? && !at.destroying
    case Install(_, page) => at.vma.Mapped? && !at.destroying && at.valid && page !in at.pages && page < at.size
    case SetVma(_) => at.vma.NotYet? && !at.valid && at.pages == {} && !at.destroying
    case FailAtt(_) => at.vma.NotYet? && !at.valid && at.pages == {} && !at.destroying
    case MarkAtt(_, on) => if on then !at.destroying else at.destroying && at.linked && at.vma.Mapped?
    case UnpinAtt(_, _) => at.destroying && at.linked && at.vma.Mapped?
    case UnlinkAtt(_) => at.destroying && at.linked
    case UnmapAtt(_) => at.destroying && at.vma.Gone? && !at.valid
    case ZapAtt(_) => at.vma.Mapped?
    case _ => true
  }

  lemma PerformerFacts(m: Mem, t: Pc, e: Effect)
    requires OnAtt(e) && EffectWf(m, e) && Performs(m, t, e) && Claims(t, e.a, m.atts[e.a])
    ensures Facts(m.atts[e.a], e)
  {
  }

  lemma PerformerHoldsMutex(m: Mem, t: Pc, e: Effect)
    requires UnderMutex(e) && EffectWf(m, e) && Performs(m, t, e)
    ensures Holds(t, AttMutex(e.a)) == Wr
  {
  }

  lemma PerformerHoldsMmap(m: Mem, t: Pc, e: Effect)
    requires OnAtt(e) && EffectWf(m, e) && Performs(m, t, e) && Located(m, t)
    ensures UnderOwnMmap(e) ==> Holds(t, Mmap(m.atts[e.a].mm)) == Wr
    ensures e.ClearSome? ==> Holds(t, Mmap(m.tgs[m.atts[e.a].tg].mm)) == Wr
  {
  }

  lemma PerformerKnows(m: Mem, t: Pc, e: Effect)
    requires OnAtt(e) && EffectWf(m, e) && Performs(m, t, e)
    requires Located(m, t) && Claims(t, e.a, m.atts[e.a])
    ensures Facts(m.atts[e.a], e)
    ensures UnderMutex(e) ==> Holds(t, AttMutex(e.a)) == Wr
    ensures UnderOwnMmap(e) ==> Holds(t, Mmap(m.atts[e.a].mm)) == Wr
    ensures e.ClearSome? ==> Holds(t, Mmap(m.tgs[m.atts[e.a].tg].mm)) == Wr
  {
    PerformerFacts(m, t, e);
    PerformerHoldsMmap(m, t, e);
    if UnderMutex(e) {
      PerformerHoldsMutex(m, t, e);
    }
  }

  lemma AttStaysOk(at: Att, e: Effect)
    requires OnAtt(e) && AttOk(at) && Facts(at, e)
    ensures AttOk(AttAfter(at, e))
  {
  }

  // ----- Stability of the claims of another thread -----

  lemma FaultClaimsStable(at: Att, e: Effect, f: Ctx, st: FaultStage)
    requires OnAtt(e) && Facts(at, e) && Claims(Fault(f, st), e.a, at)
    requires UnderMutex(e) && f.att == e.a ==> !FaultMutex(st)
    requires UnderOwnMmap(e) && f.att == e.a ==> !FaultCur(st)
    requires e.ClearSome? && f.att == e.a ==> !FaultSrc(st)
    ensures Claims(Fault(f, st), e.a, AttAfter(at, e))
  {
  }

  lemma DetachClaimsStable(at: Att, e: Effect, u: Pc)
    requires OnAtt(e) && Facts(at, e) && u.Detach? && Claims(u, e.a, at)
    requires UnderMutex(e) && u.att == e.a ==> Holds(u, AttMutex(e.a)) == NotHeld
    requires UnderOwnMmap(e) && u.att == e.a ==> Holds(u, Mmap(u.mm)) == NotHeld
    ensures Claims(u, e.a, AttAfter(at, e))
  {
  }

  lemma OtherClaimsStable(at: Att, e: Effect, u: Pc)
    requires OnAtt(e) && Facts(at, e) && !u.Fault? && !u.Detach? && Claims(u, e.a, at)
    requires UnderMutex(e) ==> Holds(u, AttMutex(e.a)) == NotHeld
    ensures Claims(u, e.a, AttAfter(at, e))
  {
  }

  lemma FaultKeepsClaims(m: Mem, t: Pc, e: Effect, u: Pc)
    requires OnAtt(e) && EffectWf(m, e) && Facts(m.atts[e.a], e)
    requires UnderMutex(e) ==> Holds(t, AttMutex(e.a)) == Wr
    requires UnderOwnMmap(e) ==> Holds(t, Mmap(m.atts[e.a].mm)) == Wr
    requires e.ClearSome? ==> Holds(t, Mmap(m.tgs[m.atts[e.a].tg].mm)) == Wr
    requires Located(m, u) && CompatiblePcs(t, u) && Claims(u, e.a, m.atts[e.a]) && u.Fault?
    ensures Claims(u, e.a, AttAfter(m.atts[e.a], e))
  {
    var at := m.atts[e.a];
    assert Compatible(Holds(t, AttMutex(e.a)), Holds(u, AttMutex(e.a)));
    assert Compatible(Holds(t, Mmap(at.mm)), Holds(u, Mmap(at.mm)));
    assert Compatible(Holds(t, Mmap(m.tgs[at.tg].mm)), Holds(u, Mmap(m.tgs[at.tg].mm)));
    FaultClaimsStable(at, e, u.f, u.fs);
  }

  lemma OthersKeepClaims(m: Mem, t: Pc, e: Effect, u: Pc)
    requires OnAtt(e) && EffectWf(m, e) && Facts(m.atts[e.a], e)
    requires UnderMutex(e) ==> Holds(t, AttMutex(e.a)) == Wr
    requires UnderOwnMmap(e) ==> Holds(t, Mmap(m.atts[e.a].mm)) == Wr
    requires e.ClearSome? ==> Holds(t, Mmap(m.tgs[m.atts[e.a].tg].mm)) == Wr
    requires Located(m, u) && CompatiblePcs(t, u) && Claims(u, e.a, m.atts[e.a]) && !u.Fault?
    ensures Claims(u, e.a, AttAfter(m.atts[e.a], e))
  {
    var at := m.atts[e.a];
    assert Compatible(Holds(t, AttMutex(e.a)), Holds(u, AttMutex(e.a)));
    assert Compatible(Holds(t, Mmap(at.mm)), Holds(u, Mmap(at.mm)));
    if u.Detach? {
      DetachClaimsStable(at, e, u);
    } else {
      OtherClaimsStable(at, e, u);
    }
  }

  /** An effect on an attachment by a thread at t leaves standing what u claims of it. */
  lemma ClaimsStable(m: Mem, t: Pc, e: Effect, u: Pc)
    requires OnAtt(e) && EffectWf(m, e) && Facts(m.atts[e.a], e)
    requires UnderMutex(e) ==> Holds(t, AttMutex(e.a)) == Wr
    requires UnderOwnMmap(e) ==> Holds(t, Mmap(m.atts[e.a].mm)) == Wr
    requires e.ClearSome? ==> Holds(t, Mmap(m.tgs[m.atts[e.a].tg].mm)) == Wr
    requires Located(m, u) && CompatiblePcs(t, u) && Claims(u, e.a, m.atts[e.a])
    ensures Claims(u, e.a, AttAfter(m.atts[e.a], e))
  {
    if u.Fault? {
      FaultKeepsClaims(m, t, e, u);
    } else {
      OthersKeepClaims(m, t, e, u);
    }
  }

  // ----- What a step establishes for the thread that takes it -----

  /** The act is one its program counter performs, and the new program counter's claims hold. */
  ghost predicate Sound(m: Mem, pc: Pc, act: Act) {
    && EffectWf(m, act.e)
    && Performs(m, pc, act.e)
    && (!act.e.NewAtt? ==> Located(m, act.pc))
  }

  function After(m: Mem, a: nat, e: Effect): Att
    requires a < |m.atts|
  {
    if OnAtt(e) && e.a == a then AttAfter(m.atts[a], e) else m.atts[a]
  }

  lemma FaultSound(s: State, t: nat, f: Ctx, st: FaultStage, c: Choice)
    requires CtxOk(s.m, f)
    ensures Sound(s.m, Fault(f, st), FaultAct(s, t, f, st, c))
  {
  }

  lemma FaultSeesVma(s: State, t: nat, f: Ctx, st: FaultStage, c: Choice)
    requires CtxOk(s.m, f) && Claims(Fault(f, st), f.att, s.m.atts[f.att])
    ensures var act := FaultAct(s, t, f, st, c);
            act.pc.Fault? && VmaKnown(act.pc.fs) ==> After(s.m, f.att, act.e).vma.Mapped?
  {
  }

  lemma FaultClaims(s: State, t: nat, f: Ctx, st: FaultStage, c: Choice)
    requires CtxOk(s.m, f) && Claims(Fault(f, st), f.att, s.m.atts[f.att])
    ensures var act := FaultAct(s, t, f, st, c); Claims(act.pc, f.att, After(s.m, f.att, act.e))
  {
    FaultFocus(s, t, f, st, c);
    FaultSeesVma(s, t, f, st, c);
  }

  lemma RecallSound(s: State, t: nat, g: nat, done: set<nat>, st: RecallStage, c: Choice)
    requires Located(s.m, Recall(g, done, st))
    ensures Sound(s.m, Recall(g, done, st), RecallAct(s, t, g, done, st, c))
  {
  }

  lemma RemoveSound(s: State, t: nat, q: nat, st: RemoveStage, c: Choice)
    requires Located(s.m, Remove(q, st))
    ensures Sound(s.m, Remove(q, st), RemoveAct(s, t, q, st, c))
  {
  }

  lemma DetachSound(s: State, t: nat, a: nat, mm: nat, byList: bool, st: DetachStage, c: Choice)
    requires Located(s.m, Detach(a, mm, byList, st))
    ensures Sound(s.m, Detach(a, mm, byList, st), DetachAct(s, t, a, mm, byList, st, c))
  {
  }

  lemma DetachClaims(s: State, t: nat, a: nat, mm: nat, byList: bool, st: DetachStage, c: Choice)
    requires AttWf(s.m, a) && AttOk(s.m.atts[a]) && Claims(Detach(a, mm, byList, st), a, s.m.atts[a])
    ensures var act := DetachAct(s, t, a, mm, byList, st, c); Claims(act.pc, a, After(s.m, a, act.e))
  {
  }

  lemma CloseSound(s: State, t: nat, a: nat, mm: nat, st: CloseStage)
    requires Located(s.m, Close(a, mm, st))
    ensures Sound(s.m, Close(a, mm, st), CloseAct(s, t, a, mm, st))
  {
  }

  lemma CloseClaims(s: State, t: nat, a: nat, mm: nat, st: CloseStage)
    requires AttWf(s.m, a) && AttOk(s.m.atts[a]) && Claims(Close(a, mm, st), a, s.m.atts[a])
    ensures var act := CloseAct(s, t, a, mm, st); Claims(act.pc, a, After(s.m, a, act.e))
  {
  }

  lemma InvalSound(s: State, t: nat, g: nat, mm: nat, st: InvalStage, c: Choice)
    requires Located(s.m, Inval(g, mm, st))
    ensures Sound(s.m, Inval(g, mm, st), InvalAct(s, t, g, mm, st, c))
  {
  }

  lemma AttachSound(s: State, t: nat, q: nat, g: nat, mm: nat, st: AttachStage, c: Choice)
    requires Located(s.m, Attach(q, g, mm, st))
    ensures Sound(s.m, Attach(q, g, mm, st), AttachAct(s, t, q, g, mm, st, c))
  {
  }

  lemma AttachClaims(s: State, t: nat, q: nat, g: nat, mm: nat, st: AttachStage, c: Choice, a: nat)
    requires Located(s.m, Attach(q, g, mm, st)) && a < |s.m.atts| && Claims(Attach(q, g, mm, st), a, s.m.atts[a])
    ensures var act := AttachAct(s, t, q, g, mm, st, c); Claims(act.pc, a, After(s.m, a, act.e))
  {
  }

  lemma StartSound(s: State, op: Op)
    ensures Sound(s.m, Idle, StartAct(s.m, op))
  {
  }

  lemma ActSound(s: State, t: nat, pc: Pc, c: Choice)
    requires Located(s.m, pc)
    ensures Sound(s.m, pc, ActOf(s, t, pc, c))
  {
    match pc {
      case Idle => StartSound(s, c.op);
      case Fault(f, st) => FaultSound(s, t, f, st, c);
      case Recall(g, done, st) => RecallSound(s, t, g, done, st, c);
      case Remove(q, st) => RemoveSound(s, t, q, st, c);
      case Detach(a, mm, byList, st) => DetachSound(s, t, a, mm, byList, st, c);
      case Close(a, mm, st) => CloseSound(s, t, a, mm, st);
      case Inval(g, mm, st) => InvalSound(s, t, g, mm, st, c);
      case Attach(q, g, mm, st) => AttachSound(s, t, q, g, mm, st, c);
    }
  }

  lemma FaultFocus(s: State, t: nat, f: Ctx, st: FaultStage, c: Choice)
    requires CtxOk(s.m, f)
    ensures var act := FaultAct(s, t, f, st, c);
            act.pc.Idle? || (act.pc.Fault? && act.pc.f == f)
  {
  }

  lemma RecallFocus(s: State, t: nat, g: nat, done: set<nat>, st: RecallStage, c: Choice)
    ensures var act := RecallAct(s, t, g, done, st, c); act.pc.Idle? || act.pc.Recall?
  {
  }

  lemma RemoveFocus(s: State, t: nat, q: nat, st: RemoveStage, c: Choice)
    requires q < |s.m.segs|
    ensures var act := RemoveAct(s, t, q, st, c); act.pc.Idle? || act.pc.Remove?
  {
  }

  lemma DetachFocus(s: State, t: nat, a: nat, mm: nat, byList: bool, st: DetachStage, c: Choice)
    requires AttWf(s.m, a)
    ensures var act := DetachAct(s, t, a, mm, byList, st, c);
            act.pc.Idle? || (act.pc.Detach? && act.pc.att == a)
  {
  }

  lemma CloseFocus(s: State, t: nat, a: nat, mm: nat, st: CloseStage)
    requires AttWf(s.m, a)
    ensures var act := CloseAct(s, t, a, mm, st);
            act.pc.Idle? || (act.pc.Close? && act.pc.att == a)
  {
  }

  lemma StartClaims(s: State, op: Op, a: nat)
    requires a < |s.m.atts|
    ensures var act := StartAct(s.m, op); Claims(act.pc, a, s.m.atts[a]) && !OnAtt(act.e)
  {
  }

  lemma ActClaims(s: State, t: nat, pc: Pc, c: Choice, a: nat)
    requires Located(s.m, pc) && a < |s.m.atts| && AttOk(s.m.atts[a]) && Claims(pc, a, s.m.atts[a])
    ensures var act := ActOf(s, t, pc, c); Claims(act.pc, a, After(s.m, a, act.e))
  {
    match pc {
      case Idle => StartClaims(s, c.op, a);
      case Fault(f, st) => if f.att == a { FaultClaims(s, t, f, st, c); } else { FaultFocus(s, t, f, st, c); }
      case Recall(g, done, st) => RecallFocus(s, t, g, done, st, c);
      case Remove(q, st) => RemoveFocus(s, t, q, st, c);
      case Detach(b, mm, byList, st) =>
        if a == b {
          DetachClaims(s, t, b, mm, byList, st, c);
        } else {
          DetachFocus(s, t, b, mm, byList, st, c);
        }
      case Close(b, mm, st) => if a == b { CloseClaims(s, t, b, mm, st); } else { CloseFocus(s, t, b, mm, st); }
      case Inval(g, mm, st) =>
      case Attach(q, g, mm, st) => AttachClaims(s, t, q, g, mm, st, c, a);
    }
  }
}
