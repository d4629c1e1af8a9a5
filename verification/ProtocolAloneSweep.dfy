/**
 What a removal, a recall and an MMU invalidation do when no other operation is in progress: which
 attachments lose their pages and their flag, and that nothing else changes.
 */
module ProtocolAloneSweep {
  import opened Locks
  import opened Protocol
  import opened ProtocolAlone

  // ----- The walk over the attachments of a segment -----

  ghost predicate AllWf(m: Mem) {
    && (forall a :: 0 <= a < |m.atts| ==> AttWf(m, a))
    && (forall q :: 0 <= q < |m.segs| ==> SegWf(m, q))
  }

  /** The attachments on the lists of segment q. */
  function Linked(m: Mem, q: nat): set<nat> {
    set a: nat | a < |m.atts| && m.atts[a].seg == q && m.atts[a].linked
  }

  /** What clearing makes of an attachment: nothing if its segment wraps around, else it has no page
      and no flag. */
  function Cleared(m: Mem, a: nat): Att
    requires AttWf(m, a)
  {
    var at := m.atts[a];
    if at.valid && !m.segs[at.seg].wrapped then at.(valid := false, pages := {}) else at
  }

  /** Memory m is m0 with these attachments cleared, but for segments and pins. */
  ghost predicate Swept(m0: Mem, cleared: set<nat>, m: Mem)
    requires AllWf(m0)
  {
    && |m.atts| == |m0.atts|
    && (forall a :: 0 <= a < |m0.atts| ==> m.atts[a] == if a in cleared then Cleared(m0, a) else m0.atts[a])
    && |m.tgs| == |m0.tgs| && m.nPinned == m0.nPinned
    && (forall g :: 0 <= g < |m0.tgs| ==> m.tgs[g].mm == m0.tgs[g].mm && m.tgs[g].destroying == m0.tgs[g].destroying)
  }

  /** The segments are those of m0 but for their flags. */
  ghost predicate SameSegs(m0: Mem, m: Mem) {
    && |m.segs| == |m0.segs|
    && (forall q :: 0 <= q < |m0.segs| ==> m.segs[q].tg == m0.segs[q].tg && m.segs[q].wrapped == m0.segs[q].wrapped)
  }

  lemma SweptWf(m0: Mem, cleared: set<nat>, m: Mem)
    requires AllWf(m0) && Swept(m0, cleared, m) && SameSegs(m0, m)
    ensures AllWf(m) && forall q: nat :: Linked(m, q) == Linked(m0, q)
  {
    forall a | 0 <= a < |m.atts| ensures AttWf(m, a) {
      assert AttWf(m0, a);
    }
    forall q | 0 <= q < |m.segs| ensures SegWf(m, q) {
      assert SegWf(m0, q);
    }
    forall q: nat ensures Linked(m, q) == Linked(m0, q) {
    }
  }

  /** The attachments that the walk has dealt with. */
  function Dealt(w: Walk): set<nat> {
    if w.ws.CRelMutex? || w.ws.CRelMm? then w.seen + {w.ws.att} else w.seen
  }

  ghost predicate WalkAt(m0: Mem, q: nat, before: set<nat>, w: Walk, m: Mem)
    requires AllWf(m0)
  {
    && Swept(m0, before + Dealt(w), m) && SameSegs(m0, m) && w.seen <= Linked(m0, q) && before !! Linked(m0, q)
    && (!w.ws.CNext? ==> w.ws.att in Linked(m0, q) - w.seen && w.ws.mm == m0.atts[w.ws.att].mm)
    && (w.ws.CWaitMm? || w.ws.CWaitMutex? || w.ws.CClear? ==> m0.atts[w.ws.att].valid)
  }

  function Unseen(m: Mem, q: nat, w: Walk): nat {
    |Linked(m, q) - w.seen|
  }

  function WalkRank(m: Mem, q: nat, w: Walk): int {
    var u := 6 * Unseen(m, q, w);
    match w.ws
    case CNext => u + 1
    case CWaitMm(_, _) => u
    case CWaitMutex(_, _) => u - 1
    case CClear(_, _) => u - 2
    case CRelMutex(_, _) => u - 3
    case CRelMm(_, _) => u - 4
  }

  lemma RankPositive(m: Mem, q: nat, w: Walk)
    requires !w.ws.CNext? ==> w.ws.att in Linked(m, q) - w.seen
    ensures WalkRank(m, q, w) > 0
  {
    if !w.ws.CNext? {
      assert Unseen(m, q, w) > 0;
    }
  }

  lemma SeenOne(m: Mem, q: nat, w: Walk, a: nat)
    requires a in Linked(m, q) - w.seen
    ensures Unseen(m, q, Walk(w.seen + {a}, CNext)) == Unseen(m, q, w) - 1
  {
    assert Linked(m, q) - (w.seen + {a}) == Linked(m, q) - w.seen - {a};
  }

  lemma ClearsOne(m0: Mem, before: set<nat>, seen: set<nat>, a: nat, m: Mem, tables: Tables)
    requires AllWf(m0) && Swept(m0, before + seen, m) && SameSegs(m0, m) && AttWf(m, a) && tables.Fit?
    requires a !in before + seen && m0.atts[a].valid
    ensures var wrapped := m.segs[m.atts[a].seg].wrapped;
            var m' := After(m, if wrapped then Nothing else ClearAll(a, tables));
            Swept(m0, before + (seen + {a}), m') && SameSegs(m0, m') && m'.segs == m.segs
  {
    var at := m.atts[a];
    assert at == m0.atts[a];
    assert forall b :: b in before + (seen + {a}) <==> b in before + seen || b == a;
  }

  lemma ClearStep(s: State, t: nat, q: nat, before: set<nat>, w: Walk, c: Choice, m0: Mem)
    requires AllWf(m0) && WalkAt(m0, q, before, w, s.m) && w.ws.CClear? && c.tables.Fit?
    ensures var n := WalkNext(s, t, q, w, c);
            && n.Walking? && WalkAt(m0, q, before, n.w, After(s.m, n.e)) && After(s.m, n.e).segs == s.m.segs
            && WalkRank(m0, q, n.w) < WalkRank(m0, q, w)
  {
    SweptWf(m0, before + w.seen, s.m);
    ClearsOne(m0, before, w.seen, w.ws.att, s.m, c.tables);
  }

  lemma NextStep(s: State, t: nat, q: nat, before: set<nat>, w: Walk, c: Choice, m0: Mem)
    requires AllWf(m0) && WalkAt(m0, q, before, w, s.m) && w.ws.CNext? && WalkHelped(s.m, q, w, c)
    ensures var n := WalkNext(s, t, q, w, c);
            if n.Ended? then w.seen == Linked(m0, q)
            else && n.e == Nothing && WalkAt(m0, q, before, n.w, s.m) && WalkRank(m0, q, n.w) < WalkRank(m0, q, w)
  {
    SweptWf(m0, before + w.seen, s.m);
    assert Linked(s.m, q) == Linked(m0, q);
    if Examinable(s.m, q, w.seen, c.pick) {
      var a := c.pick;
      assert a in Linked(m0, q) - w.seen && s.m.atts[a] == m0.atts[a];
      SeenOne(m0, q, w, a);
      if !m0.atts[a].valid {
        UnflaggedIsDealt(m0, before, w.seen, a, s.m);
      }
    } else {
      assert Linked(m0, q) <= w.seen;
    }
  }

  lemma UnflaggedIsDealt(m0: Mem, before: set<nat>, seen: set<nat>, a: nat, m: Mem)
    requires AllWf(m0) && Swept(m0, before + seen, m) && AttWf(m0, a) && !m0.atts[a].valid
    ensures Swept(m0, before + (seen + {a}), m)
  {
    assert Cleared(m0, a) == m0.atts[a];
    assert forall b :: b in before + (seen + {a}) <==> b in before + seen || b == a;
  }

  lemma ReleaseStep(s: State, t: nat, q: nat, before: set<nat>, w: Walk, c: Choice, m0: Mem)
    requires AllWf(m0) && WalkAt(m0, q, before, w, s.m) && w.ws.CRelMm?
    ensures var n := WalkNext(s, t, q, w, c);
            n.Walking? && n.e == Nothing && WalkAt(m0, q, before, n.w, s.m) && WalkRank(m0, q, n.w) < WalkRank(m0, q, w)
  {
    SeenOne(m0, q, w, w.ws.att);
    assert Dealt(Walk(w.seen + {w.ws.att}, CNext)) == Dealt(w);
  }

  lemma LockStep(s: State, t: nat, q: nat, before: set<nat>, w: Walk, c: Choice, m0: Mem)
    requires AllWf(m0) && WalkAt(m0, q, before, w, s.m) && (w.ws.CWaitMm? || w.ws.CWaitMutex? || w.ws.CRelMutex?)
    requires Free(s, t, Mmap(w.ws.mm), Rd) && Free(s, t, AttMutex(w.ws.att), Wr)
    ensures var n := WalkNext(s, t, q, w, c);
            n.Walking? && n.e == Nothing && WalkAt(m0, q, before, n.w, s.m) && WalkRank(m0, q, n.w) < WalkRank(m0, q, w)
  {
    var n := WalkNext(s, t, q, w, c);
    assert n.w.seen == w.seen && Dealt(n.w) == Dealt(w);
  }

  /** A step of the walk: it has seen all of the list, or has fewer steps to go. */
  lemma WalkOn(base: seq<Pc>, t: nat, m: Mem, pc: Pc, q: nat, before: set<nat>, w: Walk, c: Choice, m0: Mem)
    requires t < |base| && Resting(base) && AllWf(m0) && WalkAt(m0, q, before, w, m) && WalkHelped(m, q, w, c)
    ensures var n := WalkNext(At(base, t, m, pc), t, q, w, c);
            if n.Ended? then w.ws.CNext? && w.seen == Linked(m0, q)
            else
              && WalkAt(m0, q, before, n.w, After(m, n.e)) && After(m, n.e).segs == m.segs
              && 0 < WalkRank(m0, q, n.w) < WalkRank(m0, q, w)
  {
    var s := At(base, t, m, pc);
    if w.ws.CNext? {
      NextStep(s, t, q, before, w, c, m0);
    } else if w.ws.CClear? {
      ClearStep(s, t, q, before, w, c, m0);
    } else if w.ws.CRelMm? {
      ReleaseStep(s, t, q, before, w, c, m0);
    } else {
      AllFree(base, t, m, pc, Mmap(w.ws.mm), Rd);
      AllFree(base, t, m, pc, AttMutex(w.ws.att), Wr);
      LockStep(s, t, q, before, w, c, m0);
    }
    var n := WalkNext(s, t, q, w, c);
    if n.Walking? {
      RankPositive(m0, q, n.w);
    }
  }

  // ----- Removal -----

  /** Segment q is DESTROYED and every attachment on its lists is cleared; nothing else has changed. */
  ghost predicate RemovedFrom(m0: Mem, q: nat, m: Mem)
    requires AllWf(m0) && q < |m0.segs|
  {
    Swept(m0, Linked(m0, q), m) && m.segs == m0.segs[q := m0.segs[q].(destroying := true, destroyed := true)]
  }

  ghost predicate RemoveMem(m0: Mem, q: nat, st: RemoveStage, m: Mem)
    requires AllWf(m0) && q < |m0.segs|
  {
    var marked := m0.segs[q := m0.segs[q].(destroying := true)];
    || (st.MTest? && m == m0)
    || (st.MWaitSema? && m == m0.(segs := marked))
    || (st.MClear? && WalkAt(m0, q, {}, st.w, m) && m.segs == marked)
    || (st.MMark? && Swept(m0, Linked(m0, q), m) && m.segs == marked)
    || (st.MUp? && RemovedFrom(m0, q, m))
  }

  function RemoveRank(m: Mem, q: nat, st: RemoveStage): int {
    match st
    case MTest => 6 * |Linked(m, q)| + 5
    case MWaitSema => 6 * |Linked(m, q)| + 4
    case MClear(w) => WalkRank(m, q, w) + 2
    case MMark => 2
    case MUp => 1
  }

  ghost predicate RemoveNearer(m0: Mem, q: nat, st: RemoveStage, m: Mem, pc: Pc)
    requires AllWf(m0) && q < |m0.segs|
  {
    && pc.Remove? && pc.seg == q && RemoveMem(m0, q, pc.ms, m)
    && 0 < RemoveRank(m0, q, pc.ms) < RemoveRank(m0, q, st)
  }

  lemma NothingSwept(m0: Mem)
    requires AllWf(m0)
    ensures Swept(m0, {}, m0)
  {
  }

  lemma RemoveClears(base: seq<Pc>, t: nat, q: nat, w: Walk, m: Mem, c: Choice, m0: Mem)
    requires t < |base| && Resting(base) && AllWf(m0) && q < |m0.segs| && RemoveMem(m0, q, MClear(w), m)
    requires WalkHelped(m, q, w, c)
    ensures var act := RemoveAct(At(base, t, m, Remove(q, MClear(w))), t, q, MClear(w), c);
            RemoveNearer(m0, q, MClear(w), After(m, act.e), act.pc)
  {
    WalkOn(base, t, m, Remove(q, MClear(w)), q, {}, w, c, m0);
    assert {} + Linked(m0, q) == Linked(m0, q);
    RankPositive(m0, q, w);
  }

  lemma RemoveBegins(base: seq<Pc>, t: nat, q: nat, st: RemoveStage, m: Mem, c: Choice, m0: Mem)
    requires t < |base| && Resting(base) && AllWf(m0) && q < |m0.segs| && !m0.segs[q].destroying && RemoveMem(m0, q, st, m)
    requires st.MTest? || st.MWaitSema?
    ensures var act := RemoveAct(At(base, t, m, Remove(q, st)), t, q, st, c);
            RemoveNearer(m0, q, st, After(m, act.e), act.pc)
  {
    AllFree(base, t, m, Remove(q, st), Sema(q), Wr);
    NothingSwept(m0);
    assert Linked(m0, q) - {} == Linked(m0, q);
  }

  lemma RemoveOn(base: seq<Pc>, t: nat, q: nat, st: RemoveStage, m: Mem, c: Choice, m0: Mem)
    requires t < |base| && Resting(base) && AllWf(m0) && q < |m0.segs| && !m0.segs[q].destroying && RemoveMem(m0, q, st, m)
    requires !st.MUp? && Helps(At(base, t, m, Remove(q, st)), Remove(q, st), c)
    ensures var act := RemoveAct(At(base, t, m, Remove(q, st)), t, q, st, c);
            RemoveNearer(m0, q, st, After(m, act.e), act.pc)
  {
    match st {
      case MClear(w) => RemoveClears(base, t, q, w, m, c, m0);
      case MMark =>
      case _ => RemoveBegins(base, t, q, st, m, c, m0);
    }
  }

  lemma {:induction false} RemoveEnds(base: seq<Pc>, t: nat, q: nat, st: RemoveStage, m: Mem, cs: seq<Choice>, m0: Mem)
    requires t < |base| && Resting(base) && AllWf(m0) && q < |m0.segs| && !m0.segs[q].destroying && RemoveMem(m0, q, st, m)
    requires 0 < RemoveRank(m0, q, st) <= |cs| && Helped(At(base, t, m, Remove(q, st)), t, cs)
    ensures var s := Solo(At(base, t, m, Remove(q, st)), t, cs);
            s == At(base, t, s.m, Idle) && RemovedFrom(m0, q, s.m)
    decreases |cs|
  {
    var pc := Remove(q, st);
    Goes(base, t, m, pc, cs[0]);
    if st.MUp? {
      assert Solo(At(base, t, m, Idle), t, cs[1..]) == At(base, t, m, Idle);
    } else {
      RemoveOn(base, t, q, st, m, cs[0], m0);
      var act := RemoveAct(At(base, t, m, pc), t, q, st, cs[0]);
      RemoveEnds(base, t, q, act.pc.ms, After(m, act.e), cs[1..], m0);
    }
  }

  /** The removal of a live segment, with nobody else at work, clears every attachment on its lists. */
  lemma RemoveAlone(s: State, t: nat, q: nat, c: Choice, cs: seq<Choice>)
    requires t < |s.threads| && Resting(s.threads) && AllWf(s.m) && c.op == DoRemove(q)
    requires q < |s.m.segs| && !s.m.segs[q].destroying
    requires |cs| >= 6 * |Linked(s.m, q)| + 5 && Helped(Next(s, Event(t, c)), t, cs)
    ensures var s' := Call(s, t, c, cs); s' == State(s'.m, s.threads) && RemovedFrom(s.m, q, s'.m)
  {
    assert SegWf(s.m, q);
    assert Next(s, Event(t, c)) == At(s.threads, t, s.m, Remove(q, MTest));
    RemoveEnds(s.threads, t, q, MTest, s.m, cs, s.m);
    assert s.threads[t := Idle] == s.threads;
  }
}
