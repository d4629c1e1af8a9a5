/**
 What an attach, and an unmap outside the driver, do when no other operation is in progress: the
 exact state each leaves.
 */
module ProtocolAloneAttach {
  import opened Locks
  import opened Protocol
  import opened ProtocolAlone
  import opened ProtocolAloneDetach

  // ----- Attach -----

  /** A new attachment of n pages of segment q in address space mm, on the lists. */
  function Grown(m: Mem, q: nat, mm: nat, n: nat, vma: Vma): Mem
    requires SegWf(m, q)
  {
    m.(atts := m.atts + [Att(q, m.segs[q].tg, mm, n, false, false, vma, true, {})])
  }

  ghost predicate AttachMem(m0: Mem, q: nat, mm: nat, n: nat, st: AttachStage, m: Mem)
    requires SegWf(m0, q)
  {
    || ((st.AWaitSema? || st.ATest? || st.ACreate?) && m == m0)
    || ((st.ALinked? || st.AWaitMm? || st.AMapped? || st.ASetVma?) && st.a == |m0.atts| && m == Grown(m0, q, mm, n, NotYet))
    || ((st.ARelSema? || (st.ARelMutex? && st.a == |m0.atts|)) && m == Grown(m0, q, mm, n, Mapped))
  }

  function AttachRank(st: AttachStage): nat {
    match st
    case AWaitSema => 9
    case ATest => 8
    case ACreate => 7
    case ALinked(_) => 6
    case AWaitMm(_) => 5
    case AMapped(_) => 4
    case ASetVma(_) => 3
    case ARelMutex(_) => 2
    case ARelSema => 1
    case AFail(_) => 0
  }

  ghost predicate Attachable(m: Mem, q: nat) {
    SegWf(m, q) && !m.segs[q].destroying && !m.tgs[m.segs[q].tg].destroying
  }

  lemma AttachFree(base: seq<Pc>, t: nat, m: Mem, pc: Pc, q: nat, mm: nat)
    requires t < |base| && Resting(base)
    ensures var s := At(base, t, m, pc);
            Free(s, t, Sema(q), Rd) && Free(s, t, Mmap(mm), Wr) && Free(s, t, AttMutex(|m.atts|), Wr)
  {
    AllFree(base, t, m, pc, Sema(q), Rd);
    AllFree(base, t, m, pc, Mmap(mm), Wr);
    AllFree(base, t, m, pc, AttMutex(|m.atts|), Wr);
  }

  lemma AttachMaps(m0: Mem, q: nat, mm: nat, n: nat)
    requires SegWf(m0, q)
    ensures var m, a := Grown(m0, q, mm, n, NotYet), |m0.atts|;
            AttWf(m, a) && Apply(m, SetVma(a)) == Grown(m0, q, mm, n, Mapped)
  {
    PlainEffect(Grown(m0, q, mm, n, NotYet), SetVma(|m0.atts|));
  }

  ghost predicate AttachNearer(m0: Mem, q: nat, mm: nat, n: nat, st: AttachStage, m: Mem, pc: Pc)
    requires SegWf(m0, q)
  {
    && pc.Attach? && pc == Attach(q, m0.segs[q].tg, mm, pc.hs) && 0 < AttachRank(pc.hs) < AttachRank(st)
    && AttachMem(m0, q, mm, n, pc.hs, m)
  }

  lemma AttachOn(s: State, t: nat, q: nat, mm: nat, n: nat, st: AttachStage, c: Choice, m0: Mem)
    requires Attachable(m0, q) && SegWf(s.m, q) && s.m.segs[q].tg == m0.segs[q].tg
    requires AttachMem(m0, q, mm, n, st, s.m) && AttachRank(st) > 1 && c.ok && n == c.pick + 1
    requires Free(s, t, Sema(q), Rd) && Free(s, t, Mmap(mm), Wr) && Free(s, t, AttMutex(|s.m.atts|), Wr)
    ensures var act := AttachAct(s, t, q, m0.segs[q].tg, mm, st, c);
            AttachNearer(m0, q, mm, n, st, After(s.m, act.e), act.pc)
  {
    AttachMaps(m0, q, mm, n);
  }

  lemma {:induction false} AttachEnds(base: seq<Pc>, t: nat, q: nat, mm: nat, n: nat, st: AttachStage, m: Mem,
                                      cs: seq<Choice>, m0: Mem)
    requires t < |base| && Resting(base) && Attachable(m0, q) && AttachMem(m0, q, mm, n, st, m)
    requires 0 < AttachRank(st) <= |cs| && (forall i :: 0 <= i < |cs| ==> cs[i].ok && cs[i].pick + 1 == n)
    ensures Solo(At(base, t, m, Attach(q, m0.segs[q].tg, mm, st)), t, cs) == At(base, t, Grown(m0, q, mm, n, Mapped), Idle)
    decreases |cs|
  {
    var pc := Attach(q, m0.segs[q].tg, mm, st);
    var s := At(base, t, m, pc);
    AttachFree(base, t, m, pc, q, mm);
    Goes(base, t, m, pc, cs[0]);
    if AttachRank(st) > 1 {
      AttachOn(s, t, q, mm, n, st, cs[0], m0);
      var act := AttachAct(s, t, q, m0.segs[q].tg, mm, st, cs[0]);
      AttachEnds(base, t, q, mm, n, act.pc.hs, After(m, act.e), cs[1..], m0);
    } else {
      assert Solo(At(base, t, m, Idle), t, cs[1..]) == At(base, t, m, Idle);
    }
  }

  /** An attach of n pages of a live segment, with nobody else at work, makes one attachment of them,
      mapped and on the lists, and nothing else. */
  lemma AttachAlone(s: State, t: nat, q: nat, mm: nat, n: nat, c: Choice, cs: seq<Choice>)
    requires t < |s.threads| && Resting(s.threads) && c.op == DoAttach(q, mm) && Attachable(s.m, q)
    requires |cs| >= 9 && (forall i :: 0 <= i < |cs| ==> cs[i].ok && cs[i].pick + 1 == n)
    ensures Call(s, t, c, cs) == State(Grown(s.m, q, mm, n, Mapped), s.threads)
  {
    assert Next(s, Event(t, c)) == At(s.threads, t, s.m, Attach(q, s.m.segs[q].tg, mm, AWaitSema));
    AttachEnds(s.threads, t, q, mm, n, AWaitSema, s.m, cs, s.m);
    assert s.threads[t := Idle] == s.threads;
  }

  // ----- An attach that is refused -----

  /** An attach to a segment that is going away, or whose group is, changes nothing. */
  lemma RefusedAttachAlone(s: State, t: nat, q: nat, mm: nat, c: Choice, cs: seq<Choice>)
    requires t < |s.threads| && Resting(s.threads) && c.op == DoAttach(q, mm) && SegWf(s.m, q) && !Attachable(s.m, q)
    requires |cs| >= 3
    ensures Call(s, t, c, cs) == s
  {
    var g, base, m := s.m.segs[q].tg, s.threads, s.m;
    assert Next(s, Event(t, c)) == At(base, t, m, Attach(q, g, mm, AWaitSema));
    AttachFree(base, t, m, Attach(q, g, mm, AWaitSema), q, mm);
    Goes(base, t, m, Attach(q, g, mm, AWaitSema), cs[0]);
    Goes(base, t, m, Attach(q, g, mm, ATest), cs[1]);
    Goes(base, t, m, Attach(q, g, mm, ARelSema), cs[2]);
    assert cs[1..][0] == cs[1] && cs[1..][1..] == cs[2..] && cs[2..][0] == cs[2] && cs[2..][1..] == cs[3..];
    assert base[t := Idle] == base;
    assert Solo(At(base, t, m, Attach(q, g, mm, ATest)), t, cs[1..])
           == Solo(At(base, t, m, Attach(q, g, mm, ARelSema)), t, cs[2..]);
    assert Solo(At(base, t, m, Attach(q, g, mm, ARelSema)), t, cs[2..]) == Solo(s, t, cs[3..]);
  }

  // ----- An unmap outside the driver -----

  /** Attachment a has no vma, no page and is on no list, and its pins are lost. */
  function Closed(m: Mem, a: nat): Mem
    requires AttWf(m, a)
  {
    With(Repaid(m, a, 0), a, m.atts[a].(destroying := true, vma := Gone, linked := false, pages := {}))
  }

  ghost predicate CloseMem(m0: Mem, a: nat, st: CloseStage, m: Mem)
    requires AttWf(m0, a)
  {
    var gone := m0.atts[a].(vma := Gone, pages := {});
    || ((st.KWaitMm? || st.KZap?) && m == m0)
    || ((st.KWaitMutex? || st.KTest?) && m == With(Repaid(m0, a, 0), a, gone))
    || (st.KUnlink? && m == With(Repaid(m0, a, 0), a, gone.(destroying := true)))
    || ((st.KRelMutex? || st.KRelMm?) && m == Closed(m0, a))
  }

  function CloseRank(st: CloseStage): nat {
    match st
    case KWaitMm => 7
    case KZap => 6
    case KWaitMutex => 5
    case KTest => 4
    case KUnlink => 3
    case KRelMutex => 2
    case KRelMm => 1
  }

  lemma CloseZaps(m: Mem, a: nat)
    requires AttWf(m, a)
    ensures Apply(m, ZapAtt(a)) == With(Repaid(m, a, 0), a, m.atts[a].(vma := Gone, pages := {}))
  {
  }

  lemma CloseOn(s: State, t: nat, a: nat, mm: nat, st: CloseStage, m0: Mem)
    requires Detachable(m0, a) && AttWf(s.m, a) && CloseMem(m0, a, st, s.m) && CloseRank(st) > 1
    requires Free(s, t, Mmap(mm), Wr) && Free(s, t, AttMutex(a), Wr)
    ensures var act := CloseAct(s, t, a, mm, st);
            && act.pc.Close? && act.pc == Close(a, mm, act.pc.ks) && CloseRank(act.pc.ks) < CloseRank(st)
            && CloseMem(m0, a, act.pc.ks, After(s.m, act.e))
  {
    CloseZaps(s.m, a);
    PlainEffect(s.m, MarkAtt(a, true));
    PlainEffect(s.m, UnlinkAtt(a));
  }

  lemma {:induction false} CloseEnds(base: seq<Pc>, t: nat, a: nat, mm: nat, st: CloseStage, m: Mem, cs: seq<Choice>, m0: Mem)
    requires t < |base| && Resting(base) && Detachable(m0, a) && CloseMem(m0, a, st, m) && CloseRank(st) <= |cs|
    ensures Solo(At(base, t, m, Close(a, mm, st)), t, cs) == At(base, t, Closed(m0, a), Idle)
    decreases |cs|
  {
    var pc := Close(a, mm, st);
    var s := At(base, t, m, pc);
    DetachFree(base, t, m, pc, a, mm);
    Goes(base, t, m, pc, cs[0]);
    if CloseRank(st) > 1 {
      CloseOn(s, t, a, mm, st, m0);
      var act := CloseAct(s, t, a, mm, st);
      CloseEnds(base, t, a, mm, act.pc.ks, After(m, act.e), cs[1..], m0);
    } else {
      assert Solo(At(base, t, m, Idle), t, cs[1..]) == At(base, t, m, Idle);
    }
  }

  /** An unmap of the whole vma outside the driver, with nobody else at work, leaves no page, no vma and
      no link, and gives no pin back. */
  lemma CloseAlone(s: State, t: nat, a: nat, c: Choice, cs: seq<Choice>)
    requires t < |s.threads| && Resting(s.threads) && c.op == DoClose(a) && Detachable(s.m, a) && |cs| >= 7
    ensures Call(s, t, c, cs) == State(Closed(s.m, a), s.threads)
  {
    assert Next(s, Event(t, c)) == At(s.threads, t, s.m, Close(a, s.m.atts[a].mm, KWaitMm));
    CloseEnds(s.threads, t, a, s.m.atts[a].mm, KWaitMm, s.m, cs, s.m);
    assert s.threads[t := Idle] == s.threads;
  }
}
