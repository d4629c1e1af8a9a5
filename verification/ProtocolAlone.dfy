/**
 What a page fault does when no other operation is in progress: the exact state it leaves, whatever
 its try-locks answer and in whichever order it takes the two mmap locks.
 */
module ProtocolAlone {
  import opened Locks
  import opened Protocol

  // ----- A thread alone -----

  /** Nobody but thread t, which is at pc, is in an operation. */
  function At(base: seq<Pc>, t: nat, m: Mem, pc: Pc): State
    requires t < |base|
  {
    State(m, base[t := pc])
  }

  ghost predicate Resting(base: seq<Pc>) {
    forall u :: 0 <= u < |base| ==> base[u].Idle?
  }

  lemma AllFree(base: seq<Pc>, t: nat, m: Mem, pc: Pc, l: Lock, x: Mode)
    requires t < |base| && Resting(base)
    ensures Free(At(base, t, m, pc), t, l, x)
  {
  }

  function After(m: Mem, e: Effect): Mem {
    if EffectWf(m, e) then Apply(m, e) else m
  }

  lemma Goes(base: seq<Pc>, t: nat, m: Mem, pc: Pc, c: Choice)
    requires t < |base|
    ensures var act := ActOf(At(base, t, m, pc), t, pc, c);
            Next(At(base, t, m, pc), Event(t, c)) == At(base, t, After(m, act.e), act.pc)
  {
    var act := ActOf(At(base, t, m, pc), t, pc, c);
    assert base[t := pc][t := act.pc] == base[t := act.pc];
  }

  /** Thread t goes on, with these choices, until it is idle again. */
  function Solo(s: State, t: nat, cs: seq<Choice>): State
    decreases |cs|
  {
    if cs == [] || t >= |s.threads| || s.threads[t].Idle? then s else Solo(Next(s, Event(t, cs[0])), t, cs[1..])
  }

  /** Thread t begins an operation and goes on until it is idle again. */
  function Call(s: State, t: nat, c: Choice, cs: seq<Choice>): State {
    Solo(Next(s, Event(t, c)), t, cs)
  }

  /** Every choice that is made on the way helps the thread. */
  ghost predicate Helped(s: State, t: nat, cs: seq<Choice>)
    decreases |cs|
  {
    cs == [] || t >= |s.threads| || s.threads[t].Idle?
    || (Helps(s, s.threads[t], cs[0]) && Helped(Next(s, Event(t, cs[0])), t, cs[1..]))
  }

  /** Foreign calls succeed, page tables fit, and a walk over a list is given an element if one is left.
      Try-locks may fail. */
  ghost predicate Helps(s: State, pc: Pc, c: Choice) {
    match pc
    case Fault(_, st) => st.FTryGate? || st.FTrySema? || st.FSource? || (c.ok && c.pick != 0)
    case Recall(g, done, st) =>
      && (st.RWalk? ==> Recallable(s.m, g, done, c.pick) || AllRecalled(s.m, g, done))
      && (st.RClear? ==> WalkHelped(s.m, st.q, st.w, c))
    case Remove(q, st) => st.MClear? ==> WalkHelped(s.m, q, st.w, c)
    case Detach(_, _, _, _) => c.ok && c.tables.Fit?
    case Attach(_, _, _, _) => c.ok
    case _ => true
  }

  ghost predicate WalkHelped(m: Mem, q: nat, w: Walk, c: Choice) {
    && (w.ws.CNext? ==> Examinable(m, q, w.seen, c.pick) || AllExamined(m, q, w.seen))
    && c.tables.Fit?
  }

  // ----- Fault -----

  ghost predicate Faultable(m: Mem, f: Ctx) {
    && CtxOk(m, f) && m.atts[f.att].vma.Mapped? && !m.atts[f.att].destroying && f.page < m.atts[f.att].size
    && !m.segs[f.seg].destroying && !m.tgs[f.tg].destroying
  }

  function Pinned(m: Mem, g: nat): Mem
    requires g < |m.tgs|
  {
    m.(tgs := m.tgs[g := m.tgs[g].(nPinned := m.tgs[g].nPinned + 1)], nPinned := m.nPinned + 1)
  }

  function Flagged(m: Mem, a: nat): Mem
    requires a < |m.atts|
  {
    m.(atts := m.atts[a := m.atts[a].(valid := true)])
  }

  /** Page p of attachment a is mapped and flagged; a page that was mapped already is pinned and
      unpinned again, any other stays pinned. */
  function Faulted(m: Mem, a: nat, p: nat): Mem
    requires a < |m.atts| && m.atts[a].tg < |m.tgs|
  {
    var at, tg := m.atts[a], m.tgs[m.atts[a].tg];
    var again := if p in at.pages then 1 else 0;
    m.(atts := m.atts[a := at.(valid := true, pages := at.pages + {p})],
       tgs := m.tgs[at.tg := tg.(nPinned := tg.nPinned + 1 - again)],
       nPinned := m.nPinned + 1, nUnpinned := m.nUnpinned + again)
  }

  predicate Early(st: FaultStage) {
    !st.FFlag? && !st.FUpRead? && !st.FUnblock? && !st.FInstall? && !st.FUnwind? && !st.FRelockOnly?
  }

  const Out := Left(false, false, true, true, true)

  /** What the memory m0 at the start has become. */
  ghost predicate FaultMem(m0: Mem, f: Ctx, st: FaultStage, m: Mem)
    requires Faultable(m0, f)
  {
    if Early(st) then m == m0
    else if st.FFlag? then m == Pinned(m0, f.tg)
    else if st.FUpRead? || st.FUnblock? || st.FInstall? then m == Flagged(Pinned(m0, f.tg), f.att)
    else
      && m == Faulted(m0, f.att, f.page) && st.FUnwind?
      && (st.left == Out || st.left == Out.(src := false) || st.left == Out.(src := false, mutex := false))
  }

  function FaultRank(st: FaultStage): nat {
    match st
    case FEnter => 23
    case FTryGate => 22
    case FTrySema => 21
    case FDropCur => 20
    case FWaitGate => 19
    case FWaitSema => 18
    case FTestedLate => 17
    case FRelock => 16
    case FTested => 16
    case FSource(_) => 15
    case FDropForSrc => 14
    case FWaitSrc => 13
    case FRelockAfterSrc => 12
    case FWaitSrcAbove(_) => 12
    case FVerify(_) => 11
    case FWaitMutex => 10
    case FValidate => 9
    case FPin => 8
    case FFlag => 7
    case FUpRead => 6
    case FUnblock => 5
    case FInstall => 4
    case FRelockOnly => 0
    case FUnwind(left) => if left.src then 3 else if left.mutex then 2 else 1
  }

  lemma FaultLocksOn(s: State, t: nat, f: Ctx, st: FaultStage, c: Choice)
    requires Faultable(s.m, f) && Early(st) && FaultRank(st) > 9 && Helps(s, Fault(f, st), c)
    requires Free(s, t, GateLock(f.tg), Blk) && Free(s, t, Sema(f.seg), Rd) && Free(s, t, AttMutex(f.att), Wr)
    requires Free(s, t, Mmap(f.cur), Rd) && Free(s, t, Mmap(f.src), Rd)
    ensures var act := FaultAct(s, t, f, st, c);
            && act.e.Nothing? && act.pc.Fault? && act.pc.f == f && Early(act.pc.fs)
            && FaultRank(act.pc.fs) < FaultRank(st)
  {
  }

  /** The steps between the pin and the install. */
  lemma FaultBooks(s: State, t: nat, f: Ctx, st: FaultStage, c: Choice, m0: Mem)
    requires Faultable(m0, f) && CtxOk(s.m, f) && FaultMem(m0, f, st, s.m) && 5 <= FaultRank(st) <= 7
    ensures var act := FaultAct(s, t, f, st, c);
            && act.pc.Fault? && act.pc.f == f && 4 <= FaultRank(act.pc.fs) == FaultRank(st) - 1
            && FaultMem(m0, f, act.pc.fs, After(s.m, act.e))
  {
    BooksAct(s, t, f, st, c);
    if st.FFlag? {
      FlagOnly(s.m, f.att);
    }
  }

  lemma BooksAct(s: State, t: nat, f: Ctx, st: FaultStage, c: Choice)
    requires CtxOk(s.m, f) && 5 <= FaultRank(st) <= 7
    ensures FaultAct(s, t, f, st, c) == if st.FFlag? then Act(Flag(f.att), Fault(f, FUpRead))
                                        else To(Fault(f, if st.FUpRead? then FUnblock else FInstall))
  {
  }

  lemma FaultMapsOn(s: State, t: nat, f: Ctx, st: FaultStage, c: Choice, m0: Mem)
    requires Faultable(m0, f) && CtxOk(s.m, f) && FaultMem(m0, f, st, s.m) && 4 <= FaultRank(st) <= 9
    requires Helps(s, Fault(f, st), c)
    ensures var act := FaultAct(s, t, f, st, c);
            && act.pc.Fault? && act.pc.f == f && FaultRank(act.pc.fs) < FaultRank(st)
            && FaultMem(m0, f, act.pc.fs, After(s.m, act.e))
  {
    if st.FInstall? {
      FaultInstalls(s, t, f, c, m0);
    } else if FaultRank(st) <= 7 {
      FaultBooks(s, t, f, st, c, m0);
    } else {
      FaultChecks(s, t, f, st, c, m0);
    }
  }

  lemma FaultChecks(s: State, t: nat, f: Ctx, st: FaultStage, c: Choice, m0: Mem)
    requires Faultable(m0, f) && s.m == m0 && (st.FValidate? || st.FPin?) && c.ok
    ensures FaultAct(s, t, f, st, c) == if st.FPin? then Act(Pin(f.tg), Fault(f, FFlag)) else To(Fault(f, FPin))
  {
  }

  lemma FlagOnly(m: Mem, a: nat)
    requires AttWf(m, a)
    ensures Apply(m, Flag(a)) == Flagged(m, a)
  {
    assert Apply(m, Flag(a)).tgs == m.tgs;
  }

  lemma FaultInstalls(s: State, t: nat, f: Ctx, c: Choice, m0: Mem)
    requires Faultable(m0, f) && CtxOk(s.m, f) && FaultMem(m0, f, FInstall, s.m) && c.ok && c.pick != 0
    ensures var act := FaultAct(s, t, f, FInstall, c);
            act.pc == Fault(f, FUnwind(Out)) && After(s.m, act.e) == Faulted(m0, f.att, f.page)
  {
    var at := m0.atts[f.att];
    var act := FaultAct(s, t, f, FInstall, c);
    if f.page in at.pages {
      assert at.pages + {f.page} == at.pages;
    } else {
      assert act.e == Install(f.att, f.page);
    }
    assert After(s.m, act.e).atts == Faulted(m0, f.att, f.page).atts;
    assert After(s.m, act.e).tgs == Faulted(m0, f.att, f.page).tgs;
  }

  lemma FaultLeavesOn(f: Ctx, st: FaultStage, m0: Mem, m: Mem)
    requires Faultable(m0, f) && FaultMem(m0, f, st, m) && st.FUnwind?
    ensures var pc := FaultUnwound(f, st.left);
            pc.Idle? || (pc.Fault? && pc.f == f && FaultRank(pc.fs) < FaultRank(st) && FaultMem(m0, f, pc.fs, m))
  {
  }

  lemma FaultCtxStays(m0: Mem, f: Ctx, st: FaultStage, m: Mem)
    requires Faultable(m0, f) && FaultMem(m0, f, st, m)
    ensures CtxOk(m, f) && (Early(st) ==> Faultable(m, f))
  {
  }

  lemma FaultFree(base: seq<Pc>, t: nat, m: Mem, f: Ctx, st: FaultStage)
    requires t < |base| && Resting(base)
    ensures var s := At(base, t, m, Fault(f, st));
            && Free(s, t, GateLock(f.tg), Blk) && Free(s, t, Sema(f.seg), Rd) && Free(s, t, AttMutex(f.att), Wr)
            && Free(s, t, Mmap(f.cur), Rd) && Free(s, t, Mmap(f.src), Rd)
  {
    AllFree(base, t, m, Fault(f, st), GateLock(f.tg), Blk);
    AllFree(base, t, m, Fault(f, st), Sema(f.seg), Rd);
    AllFree(base, t, m, Fault(f, st), AttMutex(f.att), Wr);
    AllFree(base, t, m, Fault(f, st), Mmap(f.cur), Rd);
    AllFree(base, t, m, Fault(f, st), Mmap(f.src), Rd);
  }

  lemma FaultGoesOn(base: seq<Pc>, t: nat, f: Ctx, st: FaultStage, m: Mem, c: Choice, m0: Mem)
    requires t < |base| && Resting(base) && Faultable(m0, f) && FaultMem(m0, f, st, m)
    requires Helps(At(base, t, m, Fault(f, st)), Fault(f, st), c)
    ensures var s := At(base, t, m, Fault(f, st));
            var act := ActOf(s, t, Fault(f, st), c);
            || (act.pc.Idle? && After(m, act.e) == Faulted(m0, f.att, f.page))
            || (act.pc.Fault? && act.pc.f == f && FaultRank(act.pc.fs) < FaultRank(st)
                && FaultMem(m0, f, act.pc.fs, After(m, act.e)))
  {
    var s := At(base, t, m, Fault(f, st));
    FaultCtxStays(m0, f, st, m);
    FaultFree(base, t, m, f, st);
    if FaultRank(st) > 9 {
      FaultLocksOn(s, t, f, st, c);
    } else if FaultRank(st) >= 4 {
      FaultMapsOn(s, t, f, st, c, m0);
    } else {
      FaultLeavesOn(f, st, m0, m);
    }
  }

  lemma {:induction false} FaultEnds(base: seq<Pc>, t: nat, f: Ctx, st: FaultStage, m: Mem, cs: seq<Choice>, m0: Mem)
    requires t < |base| && Resting(base) && Faultable(m0, f) && FaultMem(m0, f, st, m)
    requires FaultRank(st) <= |cs| && Helped(At(base, t, m, Fault(f, st)), t, cs)
    ensures Solo(At(base, t, m, Fault(f, st)), t, cs) == At(base, t, Faulted(m0, f.att, f.page), Idle)
    decreases |cs|
  {
    var s := At(base, t, m, Fault(f, st));
    FaultGoesOn(base, t, f, st, m, cs[0], m0);
    Goes(base, t, m, Fault(f, st), cs[0]);
    var act := ActOf(s, t, Fault(f, st), cs[0]);
    if act.pc.Idle? {
      assert Solo(At(base, t, After(m, act.e), Idle), t, cs[1..]) == At(base, t, After(m, act.e), Idle);
    } else {
      FaultEnds(base, t, f, act.pc.fs, After(m, act.e), cs[1..], m0);
    }
  }

  /** A fault on page p of a live, mapped attachment of a live segment, with nobody else at work, maps
      exactly that page. */
  lemma FaultAlone(s: State, t: nat, a: nat, p: nat, c: Choice, cs: seq<Choice>)
    requires t < |s.threads| && Resting(s.threads) && c.op == DoFault(a, p) && AttWf(s.m, a)
    requires var at := s.m.atts[a];
             && at.vma.Mapped? && !at.destroying && p < at.size
             && !s.m.segs[at.seg].destroying && !s.m.tgs[at.tg].destroying
    requires |cs| >= 23 && Helped(Next(s, Event(t, c)), t, cs)
    ensures Call(s, t, c, cs) == State(Faulted(s.m, a, p), s.threads)
  {
    var at := s.m.atts[a];
    var f := Ctx(a, p, at.seg, at.tg, at.mm, s.m.tgs[at.tg].mm);
    assert Next(s, Event(t, c)) == At(s.threads, t, s.m, Fault(f, FEnter));
    FaultEnds(s.threads, t, f, FEnter, s.m, cs, s.m);
    assert s.threads[t := Idle] == s.threads;
  }

  // ----- Fault, whatever comes -----

  /** The pin of a page that could not be mapped: the attachment is flagged and the pin is lost. */
  function PinGone(m: Mem, a: nat): Mem
    requires a < |m.atts| && m.atts[a].tg < |m.tgs|
  {
    var at, tg := m.atts[a], m.tgs[m.atts[a].tg];
    m.(atts := m.atts[a := at.(valid := true)],
       tgs := m.tgs[at.tg := tg.(nPinned := tg.nPinned + 1, leaked := tg.leaked + 1)],
       nPinned := m.nPinned + 1)
  }

  /** What a fault can make of memory m: nothing, or, on a page that can be mapped, the mapped page or a
      lost pin. */
  ghost predicate FaultResult(m: Mem, f: Ctx, m': Mem)
    requires CtxOk(m, f)
  {
    m' == m || (Faultable(m, f) && (m' == Faulted(m, f.att, f.page) || m' == PinGone(m, f.att)))
  }

  ghost predicate AnyMem(m0: Mem, f: Ctx, st: FaultStage, m: Mem)
    requires CtxOk(m0, f)
  {
    if Early(st) then m == m0 && (st.FEnter? || m0.atts[f.att].vma.Mapped?) && (st.FPin? ==> Validated(m0, f))
    else if st.FRelockOnly? then m == m0
    else if st.FUnwind? then m == m0 || (FaultResult(m0, f, m) && !st.left.sema && !st.left.gate)
    else Faultable(m0, f) && FaultMem(m0, f, st, m)
  }

  ghost predicate Validated(m: Mem, f: Ctx)
    requires CtxOk(m, f)
  {
    !m.atts[f.att].destroying && !m.tgs[f.tg].destroying && f.page < m.atts[f.att].size
  }

  /** The fault has returned, or goes on with fewer steps to go. */
  ghost predicate AnyOn(m0: Mem, f: Ctx, st: FaultStage, m: Mem, pc: Pc)
    requires CtxOk(m0, f)
  {
    || (pc.Idle? && FaultResult(m0, f, m))
    || (pc.Fault? && pc.f == f && AnyRank(pc.fs) < AnyRank(st) && AnyMem(m0, f, pc.fs, m))
  }

  function AnyRank(st: FaultStage): nat {
    match st
    case FUnwind(left) =>
      1 + (if left.sema then 1 else 0) + (if left.gate then 2 else 0) + (if left.src then 1 else 0)
        + (if left.mutex then 1 else 0)
    case FRelockOnly => 2
    case _ => FaultRank(st) + 3
  }

  lemma AnyEnters(s: State, t: nat, f: Ctx, st: FaultStage, c: Choice, m0: Mem)
    requires CtxOk(m0, f) && s.m == m0 && Early(st) && AnyMem(m0, f, st, s.m) && FaultRank(st) > 15
    requires Free(s, t, GateLock(f.tg), Blk) && Free(s, t, Sema(f.seg), Rd) && Free(s, t, AttMutex(f.att), Wr)
    requires Free(s, t, Mmap(f.cur), Rd) && Free(s, t, Mmap(f.src), Rd)
    ensures var act := FaultAct(s, t, f, st, c);
            && act.e == Nothing && act.pc.Fault? && act.pc.f == f && AnyRank(act.pc.fs) < AnyRank(st)
            && !act.pc.fs.FPin? && (Early(act.pc.fs) || act.pc.fs.FUnwind?)
            && (Early(act.pc.fs) ==> m0.atts[f.att].vma.Mapped?)
  {
  }

  lemma AnySources(s: State, t: nat, f: Ctx, st: FaultStage, c: Choice, m0: Mem)
    requires CtxOk(m0, f) && s.m == m0 && Early(st) && AnyMem(m0, f, st, s.m) && 11 < FaultRank(st) <= 15
    requires Free(s, t, GateLock(f.tg), Blk) && Free(s, t, Sema(f.seg), Rd) && Free(s, t, AttMutex(f.att), Wr)
    requires Free(s, t, Mmap(f.cur), Rd) && Free(s, t, Mmap(f.src), Rd)
    ensures var act := FaultAct(s, t, f, st, c);
            && act.e == Nothing && act.pc.Fault? && act.pc.f == f && AnyRank(act.pc.fs) < AnyRank(st)
            && !act.pc.fs.FPin? && (Early(act.pc.fs) || act.pc.fs.FUnwind?)
            && (Early(act.pc.fs) ==> m0.atts[f.att].vma.Mapped?)
  {
  }

  lemma AnyVerifies(s: State, t: nat, f: Ctx, st: FaultStage, c: Choice, m0: Mem)
    requires CtxOk(m0, f) && s.m == m0 && Early(st) && AnyMem(m0, f, st, s.m) && 9 < FaultRank(st) <= 11
    requires Free(s, t, GateLock(f.tg), Blk) && Free(s, t, Sema(f.seg), Rd) && Free(s, t, AttMutex(f.att), Wr)
    requires Free(s, t, Mmap(f.cur), Rd) && Free(s, t, Mmap(f.src), Rd)
    ensures var act := FaultAct(s, t, f, st, c);
            && act.e == Nothing && act.pc.Fault? && act.pc.f == f && AnyRank(act.pc.fs) < AnyRank(st)
            && !act.pc.fs.FPin? && (Early(act.pc.fs) || act.pc.fs.FUnwind?)
            && (Early(act.pc.fs) ==> m0.atts[f.att].vma.Mapped?)
  {
  }

  lemma AnyChecks(s: State, t: nat, f: Ctx, st: FaultStage, c: Choice, m0: Mem)
    requires CtxOk(m0, f) && s.m == m0 && (st.FValidate? || st.FPin?) && AnyMem(m0, f, st, s.m)
    ensures var act := FaultAct(s, t, f, st, c); AnyOn(m0, f, st, After(s.m, act.e), act.pc)
  {
  }

  lemma AnyLate(s: State, t: nat, f: Ctx, st: FaultStage, c: Choice, m0: Mem)
    requires Faultable(m0, f) && CtxOk(s.m, f) && FaultMem(m0, f, st, s.m) && 4 <= FaultRank(st) <= 7
    ensures var act := FaultAct(s, t, f, st, c); AnyOn(m0, f, st, After(s.m, act.e), act.pc)
  {
    if st.FInstall? {
      AnyInstall(s, t, f, c, m0);
    } else {
      FaultBooks(s, t, f, st, c, m0);
    }
  }

  lemma AnyInstall(s: State, t: nat, f: Ctx, c: Choice, m0: Mem)
    requires Faultable(m0, f) && CtxOk(s.m, f) && FaultMem(m0, f, FInstall, s.m)
    ensures var act := FaultAct(s, t, f, FInstall, c);
            act.pc == Fault(f, FUnwind(Out)) && FaultResult(m0, f, After(s.m, act.e))
  {
    var act := FaultAct(s, t, f, FInstall, c);
    if act.e.Lose? {
      assert After(s.m, act.e).tgs == PinGone(m0, f.att).tgs;
    } else {
      FaultInstalls(s, t, f, c.(ok := true), m0);
    }
  }

  lemma Unwinds(f: Ctx, left: Left)
    ensures var pc := FaultUnwound(f, left);
            || (pc.Idle? && !left.sema && !left.gate)
            || (pc == Fault(f, FRelockOnly) && left.gate)
            || (pc.Fault? && pc.f == f && pc.fs.FUnwind? && AnyRank(pc.fs) < AnyRank(FUnwind(left))
                && (left.sema || left.gate || (!pc.fs.left.sema && !pc.fs.left.gate)))
  {
  }

  lemma AnyLeaves(f: Ctx, st: FaultStage, m0: Mem, m: Mem)
    requires CtxOk(m0, f) && AnyMem(m0, f, st, m) && st.FUnwind?
    ensures AnyOn(m0, f, st, m, FaultUnwound(f, st.left))
  {
    Unwinds(f, st.left);
  }

  lemma AnyUnwindsOn(base: seq<Pc>, t: nat, f: Ctx, st: FaultStage, m: Mem, c: Choice, m0: Mem)
    requires t < |base| && CtxOk(m0, f) && CtxOk(m, f) && AnyMem(m0, f, st, m) && st.FUnwind?
    ensures var act := ActOf(At(base, t, m, Fault(f, st)), t, Fault(f, st), c);
            AnyOn(m0, f, st, After(m, act.e), act.pc)
  {
    assert ActOf(At(base, t, m, Fault(f, st)), t, Fault(f, st), c) == To(FaultUnwound(f, st.left));
    AnyLeaves(f, st, m0, m);
  }

  lemma AnyLateOn(base: seq<Pc>, t: nat, f: Ctx, st: FaultStage, m: Mem, c: Choice, m0: Mem)
    requires t < |base| && Faultable(m0, f) && CtxOk(m, f) && FaultMem(m0, f, st, m) && 4 <= FaultRank(st) <= 7
    ensures var act := ActOf(At(base, t, m, Fault(f, st)), t, Fault(f, st), c);
            AnyOn(m0, f, st, After(m, act.e), act.pc)
  {
    AnyLate(At(base, t, m, Fault(f, st)), t, f, st, c, m0);
  }

  lemma AnyCtx(m0: Mem, f: Ctx, st: FaultStage, m: Mem)
    requires CtxOk(m0, f) && AnyMem(m0, f, st, m)
    ensures CtxOk(m, f)
  {
  }

  lemma AnyEarlyOn(base: seq<Pc>, t: nat, f: Ctx, st: FaultStage, m: Mem, c: Choice)
    requires t < |base| && Resting(base) && CtxOk(m, f) && AnyMem(m, f, st, m) && Early(st)
    ensures var act := ActOf(At(base, t, m, Fault(f, st)), t, Fault(f, st), c);
            AnyOn(m, f, st, After(m, act.e), act.pc)
  {
    var s := At(base, t, m, Fault(f, st));
    FaultFree(base, t, m, f, st);
    if FaultRank(st) > 15 {
      AnyEnters(s, t, f, st, c, m);
    } else if FaultRank(st) > 11 {
      AnySources(s, t, f, st, c, m);
    } else if FaultRank(st) > 9 {
      AnyVerifies(s, t, f, st, c, m);
    } else {
      AnyChecks(s, t, f, st, c, m);
    }
  }

  lemma AnyRelocks(base: seq<Pc>, t: nat, f: Ctx, m: Mem, c: Choice)
    requires t < |base| && Resting(base) && CtxOk(m, f)
    ensures ActOf(At(base, t, m, Fault(f, FRelockOnly)), t, Fault(f, FRelockOnly), c)
            == To(Fault(f, FUnwind(Left(false, false, false, false, true))))
  {
    FaultFree(base, t, m, f, FRelockOnly);
  }

  lemma AnyGoesOn(base: seq<Pc>, t: nat, f: Ctx, st: FaultStage, m: Mem, c: Choice, m0: Mem)
    requires t < |base| && Resting(base) && CtxOk(m0, f) && AnyMem(m0, f, st, m)
    ensures var act := ActOf(At(base, t, m, Fault(f, st)), t, Fault(f, st), c);
            AnyOn(m0, f, st, After(m, act.e), act.pc)
  {
    AnyCtx(m0, f, st, m);
    if Early(st) {
      AnyEarlyOn(base, t, f, st, m, c);
    } else if st.FUnwind? {
      AnyUnwindsOn(base, t, f, st, m, c, m0);
    } else if st.FRelockOnly? {
      AnyRelocks(base, t, f, m, c);
    } else {
      AnyLateOn(base, t, f, st, m, c, m0);
    }
  }

  lemma {:induction false} AnyEnds(base: seq<Pc>, t: nat, f: Ctx, st: FaultStage, m: Mem, cs: seq<Choice>, m0: Mem)
    requires t < |base| && Resting(base) && CtxOk(m0, f) && AnyMem(m0, f, st, m) && AnyRank(st) <= |cs|
    ensures var s := Solo(At(base, t, m, Fault(f, st)), t, cs);
            s == At(base, t, s.m, Idle) && FaultResult(m0, f, s.m)
    decreases |cs|
  {
    AnyGoesOn(base, t, f, st, m, cs[0], m0);
    Goes(base, t, m, Fault(f, st), cs[0]);
    var act := ActOf(At(base, t, m, Fault(f, st)), t, Fault(f, st), cs[0]);
    if act.pc.Idle? {
      assert Solo(At(base, t, After(m, act.e), Idle), t, cs[1..]) == At(base, t, After(m, act.e), Idle);
    } else {
      AnyEnds(base, t, f, act.pc.fs, After(m, act.e), cs[1..], m0);
    }
  }

  /** Every fault with nobody else at work returns, whatever the foreign calls answer, and leaves nothing
      behind, or, if its page can be mapped, the mapped page or a lost pin. */
  lemma FaultReturns(s: State, t: nat, a: nat, p: nat, c: Choice, cs: seq<Choice>)
    requires t < |s.threads| && Resting(s.threads) && c.op == DoFault(a, p) && AttWf(s.m, a) && |cs| >= 26
    ensures var s', at := Call(s, t, c, cs), s.m.atts[a];
            s' == State(s'.m, s.threads)
            && FaultResult(s.m, Ctx(a, p, at.seg, at.tg, at.mm, s.m.tgs[at.tg].mm), s'.m)
  {
    var at := s.m.atts[a];
    var f := Ctx(a, p, at.seg, at.tg, at.mm, s.m.tgs[at.tg].mm);
    assert Next(s, Event(t, c)) == At(s.threads, t, s.m, Fault(f, FEnter));
    AnyEnds(s.threads, t, f, FEnter, s.m, cs, s.m);
    assert s.threads[t := Idle] == s.threads;
  }
}
