/**
 What attach, detach, release and an unmap outside the driver do when no other operation is in
 progress: the exact state each leaves.
 */
module ProtocolAloneDetach {
  import opened Words
  import opened Locks
  import opened Protocol
  import opened ProtocolAlone

  function With(m: Mem, a: nat, at: Att): Mem
    requires a < |m.atts|
  {
    m.(atts := m.atts[a := at])
  }

  /** Of the pins of attachment a, k have been given back and the rest are lost. */
  function Repaid(m: Mem, a: nat, k: nat): Mem
    requires AttWf(m, a)
  {
    var g := m.atts[a].tg;
    m.(tgs := m.tgs[g := m.tgs[g].(nPinned := m.tgs[g].nPinned - k, leaked := m.tgs[g].leaked + |m.atts[a].pages| - k)],
       nUnpinned := m.nUnpinned + k)
  }

  // ----- Detach and release -----

  /** The mapped pages within the int page count. */
  function Counted(at: Att): nat {
    |set p | p in at.pages && p < Window(at.size)|
  }

  /** Attachment a has no vma, no flag, no page and is on no list, and its pins are given back as far
      as the int page count goes. */
  function Detached(m: Mem, a: nat): Mem
    requires AttWf(m, a)
  {
    With(Repaid(m, a, Counted(m.atts[a])), a,
         m.atts[a].(destroying := true, valid := false, vma := Gone, linked := false, pages := {}))
  }

  predicate DetachFinds(st: DetachStage) {
    st.DWaitMm? || st.DFind? || st.DWaitMutex? || st.DWaitInv? || st.DTest?
  }

  predicate DetachDecides(byList: bool, st: DetachStage) {
    st.DRelInv? || (st.DOwner? && !byList) || (st.DLook? && byList) || st.DUnpin?
  }

  predicate DetachLeaves(st: DetachStage) {
    st.DRelMutex? || st.DRelMm? || st.DWaitMunmap? || st.DMunmap?
  }

  ghost predicate DetachMem(m0: Mem, a: nat, byList: bool, st: DetachStage, m: Mem)
    requires AttWf(m0, a)
  {
    var at := m0.atts[a];
    var gone := at.(destroying := true, valid := false, vma := Gone);
    || (DetachFinds(st) && m == m0)
    || (DetachDecides(byList, st) && m == With(m0, a, at.(destroying := true)))
    || (st.DUnlink? && m == With(Repaid(m0, a, Counted(at)), a, gone))
    || (DetachLeaves(st) && m == With(Repaid(m0, a, Counted(at)), a, gone.(linked := false)))
  }

  function DetachRank(st: DetachStage): nat {
    match st
    case DWaitMm => 13
    case DFind => 12
    case DWaitMutex => 11
    case DWaitInv => 10
    case DTest => 9
    case DRelInv => 8
    case DOwner => 7
    case DLook => 7
    case DUnpin => 6
    case DUnlink => 5
    case DRelMutex => 4
    case DRelMm => 3
    case DWaitMunmap => 2
    case DMunmap => 1
    case _ => 0
  }

  ghost predicate Detachable(m: Mem, a: nat) {
    AttWf(m, a) && m.atts[a].vma.Mapped? && !m.atts[a].destroying
  }

  lemma DetachFree(base: seq<Pc>, t: nat, m: Mem, pc: Pc, a: nat, mm: nat)
    requires t < |base| && Resting(base)
    ensures var s := At(base, t, m, pc);
            Free(s, t, Mmap(mm), Wr) && Free(s, t, AttMutex(a), Wr) && Free(s, t, InvMutex(a), Wr)
  {
    AllFree(base, t, m, pc, Mmap(mm), Wr);
    AllFree(base, t, m, pc, AttMutex(a), Wr);
    AllFree(base, t, m, pc, InvMutex(a), Wr);
  }

  lemma DetachUnpins(m: Mem, a: nat)
    requires AttWf(m, a)
    ensures Apply(m, UnpinAtt(a, Fit)) == With(Repaid(m, a, Counted(m.atts[a])), a, m.atts[a].(valid := false, vma := Gone))
  {
    var at := m.atts[a];
    assert Slice(at.pages, 0, Window(at.size)) == set p | p in at.pages && p < Window(at.size);
  }

  /** Effects that leave the books alone. */
  lemma PlainEffect(m: Mem, e: Effect)
    requires (e.MarkAtt? || e.UnlinkAtt? || e.UnmapAtt? || e.SetVma?) && AttWf(m, e.a)
    ensures Apply(m, e) == With(m, e.a, AttAfter(m.atts[e.a], e))
  {
    var g := m.atts[e.a].tg;
    assert m.tgs[g := m.tgs[g]] == m.tgs;
  }

  /** The detach has fewer steps to go. */
  ghost predicate DetachNearer(m0: Mem, a: nat, mm: nat, byList: bool, st: DetachStage, m: Mem, pc: Pc)
    requires AttWf(m0, a)
  {
    && pc.Detach? && pc == Detach(a, mm, byList, pc.ds) && 0 < DetachRank(pc.ds) < DetachRank(st)
    && DetachMem(m0, a, byList, pc.ds, m)
  }

  lemma DetachFindsOn(s: State, t: nat, a: nat, mm: nat, byList: bool, st: DetachStage, c: Choice)
    requires Detachable(s.m, a) && DetachFinds(st) && c.ok
    requires Free(s, t, Mmap(mm), Wr) && Free(s, t, AttMutex(a), Wr) && Free(s, t, InvMutex(a), Wr)
    ensures var act := DetachAct(s, t, a, mm, byList, st, c);
            && act.pc.Detach? && act.pc == Detach(a, mm, byList, act.pc.ds) && 0 < DetachRank(act.pc.ds) < DetachRank(st)
            && act.e == (if st.DTest? then MarkAtt(a, true) else Nothing)
            && (if st.DTest? then act.pc.ds.DRelInv? else DetachFinds(act.pc.ds))
  {
  }

  lemma DetachDecidesOn(s: State, t: nat, a: nat, mm: nat, byList: bool, st: DetachStage, c: Choice)
    requires AttWf(s.m, a) && s.m.atts[a].vma.Mapped? && DetachDecides(byList, st) && c.ok && c.tables.Fit?
    ensures var act := DetachAct(s, t, a, mm, byList, st, c);
            && act.pc.Detach? && act.pc == Detach(a, mm, byList, act.pc.ds) && 0 < DetachRank(act.pc.ds) < DetachRank(st)
            && act.e == (if st.DUnpin? then UnpinAtt(a, Fit) else Nothing)
            && (if st.DUnpin? then act.pc.ds.DUnlink? else DetachDecides(byList, act.pc.ds))
  {
  }

  lemma DetachLeavesOn(s: State, t: nat, a: nat, mm: nat, byList: bool, st: DetachStage, c: Choice)
    requires AttWf(s.m, a) && (st.DUnlink? || DetachLeaves(st)) && DetachRank(st) > 1 && c.ok && Free(s, t, Mmap(mm), Wr)
    ensures var act := DetachAct(s, t, a, mm, byList, st, c);
            && act.pc.Detach? && act.pc == Detach(a, mm, byList, act.pc.ds) && 0 < DetachRank(act.pc.ds) < DetachRank(st)
            && act.e == (if st.DUnlink? then UnlinkAtt(a) else Nothing) && DetachLeaves(act.pc.ds)
  {
  }

  lemma FindsNearer(s: State, t: nat, a: nat, mm: nat, byList: bool, st: DetachStage, c: Choice)
    requires Detachable(s.m, a) && DetachFinds(st) && c.ok
    requires Free(s, t, Mmap(mm), Wr) && Free(s, t, AttMutex(a), Wr) && Free(s, t, InvMutex(a), Wr)
    ensures var act := DetachAct(s, t, a, mm, byList, st, c);
            DetachNearer(s.m, a, mm, byList, st, After(s.m, act.e), act.pc)
  {
    DetachFindsOn(s, t, a, mm, byList, st, c);
    PlainEffect(s.m, MarkAtt(a, true));
  }

  lemma MarkedUnpins(m0: Mem, a: nat, m: Mem)
    requires AttWf(m0, a) && m == With(m0, a, m0.atts[a].(destroying := true))
    ensures AttWf(m, a) && Apply(m, UnpinAtt(a, Fit)) ==
              With(Repaid(m0, a, Counted(m0.atts[a])), a, m0.atts[a].(destroying := true, valid := false, vma := Gone))
  {
    DetachUnpins(m, a);
    assert Counted(m.atts[a]) == Counted(m0.atts[a]);
  }

  lemma DecidesNearer(s: State, t: nat, a: nat, mm: nat, byList: bool, st: DetachStage, c: Choice, m0: Mem)
    requires Detachable(m0, a) && s.m == With(m0, a, m0.atts[a].(destroying := true)) && DetachDecides(byList, st)
    requires c.ok && c.tables.Fit?
    ensures var act := DetachAct(s, t, a, mm, byList, st, c);
            DetachNearer(m0, a, mm, byList, st, After(s.m, act.e), act.pc)
  {
    DetachDecidesOn(s, t, a, mm, byList, st, c);
    MarkedUnpins(m0, a, s.m);
  }

  lemma LeavesNearer(s: State, t: nat, a: nat, mm: nat, byList: bool, st: DetachStage, c: Choice, m0: Mem)
    requires AttWf(m0, a) && AttWf(s.m, a) && DetachMem(m0, a, byList, st, s.m)
    requires (st.DUnlink? || DetachLeaves(st)) && DetachRank(st) > 1 && c.ok && Free(s, t, Mmap(mm), Wr)
    ensures var act := DetachAct(s, t, a, mm, byList, st, c);
            DetachNearer(m0, a, mm, byList, st, After(s.m, act.e), act.pc)
  {
    DetachLeavesOn(s, t, a, mm, byList, st, c);
    PlainEffect(s.m, UnlinkAtt(a));
  }

  lemma DetachOn(s: State, t: nat, a: nat, mm: nat, byList: bool, st: DetachStage, c: Choice, m0: Mem)
    requires Detachable(m0, a) && AttWf(s.m, a) && DetachMem(m0, a, byList, st, s.m) && DetachRank(st) > 1
    requires Free(s, t, Mmap(mm), Wr) && Free(s, t, AttMutex(a), Wr) && Free(s, t, InvMutex(a), Wr)
    requires c.ok && c.tables.Fit?
    ensures var act := DetachAct(s, t, a, mm, byList, st, c);
            DetachNearer(m0, a, mm, byList, st, After(s.m, act.e), act.pc)
  {
    if DetachFinds(st) {
      FindsNearer(s, t, a, mm, byList, st, c);
    } else if DetachDecides(byList, st) {
      DecidesNearer(s, t, a, mm, byList, st, c, m0);
    } else {
      LeavesNearer(s, t, a, mm, byList, st, c, m0);
    }
  }

  /** The last step. */
  lemma DetachUnmaps(m0: Mem, a: nat, byList: bool, m: Mem)
    requires AttWf(m0, a) && DetachMem(m0, a, byList, DMunmap, m)
    ensures AttWf(m, a) && Apply(m, UnmapAtt(a)) == Detached(m0, a)
  {
    PlainEffect(m, UnmapAtt(a));
  }

  lemma DetachMemWf(m0: Mem, a: nat, byList: bool, st: DetachStage, m: Mem)
    requires AttWf(m0, a) && DetachMem(m0, a, byList, st, m)
    ensures AttWf(m, a)
  {
  }

  lemma {:induction false} DetachEnds(base: seq<Pc>, t: nat, a: nat, mm: nat, byList: bool, st: DetachStage, m: Mem,
                                      cs: seq<Choice>, m0: Mem)
    requires t < |base| && Resting(base) && Detachable(m0, a) && DetachMem(m0, a, byList, st, m)
    requires 0 < DetachRank(st) <= |cs| && Helped(At(base, t, m, Detach(a, mm, byList, st)), t, cs)
    ensures Solo(At(base, t, m, Detach(a, mm, byList, st)), t, cs) == At(base, t, Detached(m0, a), Idle)
    decreases |cs|
  {
    var pc := Detach(a, mm, byList, st);
    var s := At(base, t, m, pc);
    DetachMemWf(m0, a, byList, st, m);
    DetachFree(base, t, m, pc, a, mm);
    Goes(base, t, m, pc, cs[0]);
    if DetachRank(st) > 1 {
      DetachOn(s, t, a, mm, byList, st, cs[0], m0);
      var act := DetachAct(s, t, a, mm, byList, st, cs[0]);
      DetachEnds(base, t, a, mm, byList, act.pc.ds, After(m, act.e), cs[1..], m0);
    } else {
      DetachUnmaps(m0, a, byList, m);
      assert DetachAct(s, t, a, mm, byList, st, cs[0]) == Act(UnmapAtt(a), Idle);
      assert Solo(At(base, t, Detached(m0, a), Idle), t, cs[1..]) == At(base, t, Detached(m0, a), Idle);
    }
  }

  /** A detach by its owner, or a release, of a live, mapped attachment, with nobody else at work, leaves
      no page, no vma and no link. */
  lemma DetachAlone(s: State, t: nat, a: nat, byList: bool, c: Choice, cs: seq<Choice>)
    requires t < |s.threads| && Resting(s.threads) && c.op == DoDetach(a, byList) && Detachable(s.m, a)
    requires |cs| >= 13 && Helped(Next(s, Event(t, c)), t, cs)
    ensures Call(s, t, c, cs) == State(Detached(s.m, a), s.threads)
  {
    assert Next(s, Event(t, c)) == At(s.threads, t, s.m, Detach(a, s.m.atts[a].mm, byList, DWaitMm));
    DetachEnds(s.threads, t, a, s.m.atts[a].mm, byList, DWaitMm, s.m, cs, s.m);
    assert s.threads[t := Idle] == s.threads;
  }

  // ----- A detach that is refused -----

  /** The stages of a detach by another group, which is turned away with the attachment as it was. */
  ghost predicate RefusedMem(m0: Mem, a: nat, st: DetachStage, m: Mem)
    requires AttWf(m0, a)
  {
    || ((DetachFinds(st) || st.DQuitMutex? || st.DQuitMm?) && m == m0)
    || ((st.DRelInv? || st.DOwner?) && m == With(m0, a, m0.atts[a].(destroying := true)))
  }

  function RefusedRank(st: DetachStage): nat {
    match st
    case DQuitMutex => 2
    case DQuitMm => 1
    case _ => DetachRank(st)
  }

  ghost predicate RefusedNearer(m0: Mem, a: nat, mm: nat, st: DetachStage, m: Mem, pc: Pc)
    requires AttWf(m0, a)
  {
    && pc.Detach? && pc == Detach(a, mm, false, pc.ds) && 0 < RefusedRank(pc.ds) < RefusedRank(st)
    && RefusedMem(m0, a, pc.ds, m)
  }

  lemma RefusedOn(s: State, t: nat, a: nat, mm: nat, st: DetachStage, c: Choice, m0: Mem)
    requires Detachable(m0, a) && AttWf(s.m, a) && RefusedMem(m0, a, st, s.m) && RefusedRank(st) > 1
    requires Free(s, t, Mmap(mm), Wr) && Free(s, t, AttMutex(a), Wr) && Free(s, t, InvMutex(a), Wr)
    requires c.ok == !st.DOwner?
    ensures var act := DetachAct(s, t, a, mm, false, st, c);
            RefusedNearer(m0, a, mm, st, After(s.m, act.e), act.pc)
  {
    if DetachFinds(st) {
      DetachFindsOn(s, t, a, mm, false, st, c);
      PlainEffect(s.m, MarkAtt(a, true));
    } else if st.DOwner? {
      PlainEffect(s.m, MarkAtt(a, false));
      assert m0.atts[a := m0.atts[a]] == m0.atts;
    }
  }

  /** Every answer is a success but for the question whether the caller owns the attachment. */
  ghost predicate NotOwner(s: State, t: nat, cs: seq<Choice>)
    decreases |cs|
  {
    cs == [] || t >= |s.threads| || s.threads[t].Idle?
    || (cs[0].ok == !(s.threads[t].Detach? && s.threads[t].ds.DOwner?) && NotOwner(Next(s, Event(t, cs[0])), t, cs[1..]))
  }

  lemma {:induction false} RefusedEnds(base: seq<Pc>, t: nat, a: nat, mm: nat, st: DetachStage, m: Mem, cs: seq<Choice>, m0: Mem)
    requires t < |base| && Resting(base) && Detachable(m0, a) && RefusedMem(m0, a, st, m)
    requires 0 < RefusedRank(st) <= |cs| && NotOwner(At(base, t, m, Detach(a, mm, false, st)), t, cs)
    ensures Solo(At(base, t, m, Detach(a, mm, false, st)), t, cs) == At(base, t, m0, Idle)
    decreases |cs|
  {
    var pc := Detach(a, mm, false, st);
    var s := At(base, t, m, pc);
    DetachFree(base, t, m, pc, a, mm);
    Goes(base, t, m, pc, cs[0]);
    if RefusedRank(st) > 1 {
      RefusedOn(s, t, a, mm, st, cs[0], m0);
      var act := DetachAct(s, t, a, mm, false, st, cs[0]);
      RefusedEnds(base, t, a, mm, act.pc.ds, After(m, act.e), cs[1..], m0);
    } else {
      assert Solo(At(base, t, m0, Idle), t, cs[1..]) == At(base, t, m0, Idle);
    }
  }

  /** A detach by another group leaves everything as it was. */
  lemma RefusedDetachAlone(s: State, t: nat, a: nat, c: Choice, cs: seq<Choice>)
    requires t < |s.threads| && Resting(s.threads) && c.op == DoDetach(a, false) && Detachable(s.m, a)
    requires |cs| >= 13 && NotOwner(Next(s, Event(t, c)), t, cs)
    ensures Call(s, t, c, cs) == s
  {
    assert Next(s, Event(t, c)) == At(s.threads, t, s.m, Detach(a, s.m.atts[a].mm, false, DWaitMm));
    RefusedEnds(s.threads, t, a, s.m.atts[a].mm, DWaitMm, s.m, cs, s.m);
    assert s.threads[t := Idle] == s.threads;
  }
}
