/**
 What a recall and an MMU invalidation do when no other operation is in progress.
 */
module ProtocolAloneRecall {
  import opened Locks
  import opened Protocol
  import opened ProtocolAlone
  import opened ProtocolAloneSweep

  /** The segments that a recall of group g deals with. */
  function Targets(m: Mem, g: nat): set<nat> {
    set q: nat | q < |m.segs| && m.segs[q].tg == g && !m.segs[q].destroying
  }

  /** The attachments on the lists of these segments. */
  function AttsOf(m: Mem, segs: set<nat>): set<nat> {
    set a: nat | a < |m.atts| && m.atts[a].linked && m.atts[a].seg in segs
  }

  /** Every attachment of a live segment of the group is cleared, and nothing else has changed. */
  ghost predicate Recalled(m0: Mem, g: nat, m: Mem)
    requires AllWf(m0)
  {
    Swept(m0, AttsOf(m0, Targets(m0, g)), m) && m.segs == m0.segs
  }

  /** A group no segment of which is being recalled. */
  ghost predicate Ready(m: Mem, g: nat) {
    AllWf(m) && g < |m.tgs| && forall q :: 0 <= q < |m.segs| ==> !m.segs[q].recalling
  }

  function Flagged(m: Mem, q: nat): seq<Seg>
    requires q < |m.segs|
  {
    m.segs[q := m.segs[q].(recalling := true)]
  }

  ghost predicate RecallMem(m0: Mem, g: nat, done: set<nat>, st: RecallStage, m: Mem)
    requires Ready(m0, g)
  {
    var targets := Targets(m0, g);
    && done <= targets
    && match st
       case RWaitGate => done == {} && m == m0
       case RWaitMutex => done == {} && m == m0
       case RWalk => Swept(m0, AttsOf(m0, done), m) && m.segs == m0.segs
       case RTest(q) => q in targets - done && Swept(m0, AttsOf(m0, done), m) && m.segs == m0.segs
       case RAwait(_) => false
       case RWaitSema(q) => q in targets - done && Swept(m0, AttsOf(m0, done), m) && m.segs == Flagged(m0, q)
       case RClear(q, w) => q in targets - done && WalkAt(m0, q, AttsOf(m0, done), w, m) && m.segs == Flagged(m0, q)
       case RUnflag(q) => q in targets - done && Swept(m0, AttsOf(m0, done + {q}), m) && m.segs == Flagged(m0, q)
       case RUp(q) => q in targets - done && Swept(m0, AttsOf(m0, done + {q}), m) && m.segs == m0.segs
       case RRelMutex => Recalled(m0, g, m)
       case RWindow => Recalled(m0, g, m)
  }

  function Times(k: nat, n: nat): nat {
    if n == 0 then 0 else k + Times(k, n - 1)
  }

  /** More steps than the walk over one segment takes. */
  function Bound(m: Mem): nat {
    6 * |m.atts| + 8
  }

  function ToGo(m: Mem, g: nat, done: set<nat>): nat {
    |Targets(m, g) - done|
  }

  function RecallRank(m: Mem, g: nat, done: set<nat>, st: RecallStage): int {
    var n := ToGo(m, g, done);
    var all, later := Times(Bound(m), n), if n == 0 then 0 else Times(Bound(m), n - 1);
    match st
    case RWaitGate => all + 5
    case RWaitMutex => all + 4
    case RWalk => all + 3
    case RTest(_) => all + 2
    case RAwait(_) => 0
    case RWaitSema(_) => all + 1
    case RClear(q, w) => later + 5 + WalkRank(m, q, w)
    case RUnflag(_) => later + 5
    case RUp(_) => later + 4
    case RRelMutex => 2
    case RWindow => 1
  }

  lemma {:induction false} BoundedSet(a: set<nat>, n: nat)
    requires forall i :: i in a ==> i < n
    ensures |a| <= n
  {
    if n > 0 {
      BoundedSet(a - {n - 1}, n - 1);
      assert a - {n - 1} == if n - 1 in a then a - {n - 1} else a;
    } else {
      assert a == {};
    }
  }

  lemma OneSegmentMore(m: Mem, done: set<nat>, q: nat)
    ensures AttsOf(m, done) + Linked(m, q) == AttsOf(m, done + {q})
    ensures q !in done ==> AttsOf(m, done) !! Linked(m, q)
  {
  }

  lemma OneSegmentLess(m: Mem, g: nat, done: set<nat>, q: nat)
    requires q in Targets(m, g) - done
    ensures ToGo(m, g, done) > 0 && ToGo(m, g, done + {q}) == ToGo(m, g, done) - 1
  {
    assert Targets(m, g) - (done + {q}) == Targets(m, g) - done - {q};
  }

  ghost predicate RecallNearer(m0: Mem, g: nat, done: set<nat>, st: RecallStage, m: Mem, pc: Pc)
    requires Ready(m0, g)
  {
    && pc.Recall? && pc.tg == g && RecallMem(m0, g, pc.done, pc.rs, m)
    && 0 < RecallRank(m0, g, pc.done, pc.rs) < RecallRank(m0, g, done, st)
  }

  lemma RecallFree(base: seq<Pc>, t: nat, m: Mem, pc: Pc, g: nat)
    requires t < |base| && Resting(base)
    ensures var s := At(base, t, m, pc);
            Free(s, t, GateLock(g), Rcl) && Free(s, t, RecallMutex(g), Wr) && forall q :: Free(s, t, Sema(q), Wr)
  {
    AllFree(base, t, m, pc, GateLock(g), Rcl);
    AllFree(base, t, m, pc, RecallMutex(g), Wr);
    forall q ensures Free(At(base, t, m, pc), t, Sema(q), Wr) {
      AllFree(base, t, m, pc, Sema(q), Wr);
    }
  }

  lemma RecallEnters(s: State, t: nat, g: nat, st: RecallStage, c: Choice, m0: Mem)
    requires Ready(m0, g) && (st.RWaitGate? || st.RWaitMutex?) && s.m == m0
    requires Free(s, t, GateLock(g), Rcl) && Free(s, t, RecallMutex(g), Wr)
    ensures var act := RecallAct(s, t, g, {}, st, c); RecallNearer(m0, g, {}, st, After(s.m, act.e), act.pc)
  {
    assert AttsOf(m0, {}) == {};
    NothingSwept(m0);
  }

  lemma RecallPicks(s: State, t: nat, g: nat, done: set<nat>, c: Choice, m0: Mem)
    requires Ready(m0, g) && RecallMem(m0, g, done, RWalk, s.m)
    requires Recallable(s.m, g, done, c.pick) || AllRecalled(s.m, g, done)
    ensures var act := RecallAct(s, t, g, done, RWalk, c); RecallNearer(m0, g, done, RWalk, After(s.m, act.e), act.pc)
  {
    if !Recallable(s.m, g, done, c.pick) {
      assert done == Targets(m0, g);
    }
  }

  lemma RecallFlags(s: State, t: nat, g: nat, done: set<nat>, st: RecallStage, c: Choice, m0: Mem)
    requires Ready(m0, g) && st.RTest? && RecallMem(m0, g, done, st, s.m)
    ensures var act := RecallAct(s, t, g, done, st, c); RecallNearer(m0, g, done, st, After(s.m, act.e), act.pc)
  {
    assert !m0.segs[st.q].recalling;
  }

  lemma DescendRank(m: Mem, g: nat, done: set<nat>, q: nat)
    requires q in Targets(m, g) - done
    ensures 0 < RecallRank(m, g, done, RClear(q, Walk({}, CNext))) < RecallRank(m, g, done, RWaitSema(q))
  {
    OneSegmentLess(m, g, done, q);
    BoundedSet(Linked(m, q), |m.atts|);
    assert Linked(m, q) - {} == Linked(m, q);
    assert WalkRank(m, q, Walk({}, CNext)) == 6 * |Linked(m, q)| + 1;
  }

  lemma RecallDescends(s: State, t: nat, g: nat, done: set<nat>, q: nat, c: Choice, m0: Mem)
    requires Ready(m0, g) && RecallMem(m0, g, done, RWaitSema(q), s.m) && Free(s, t, Sema(q), Wr)
    ensures var act := RecallAct(s, t, g, done, RWaitSema(q), c);
            RecallNearer(m0, g, done, RWaitSema(q), After(s.m, act.e), act.pc)
  {
    assert RecallAct(s, t, g, done, RWaitSema(q), c) == To(Recall(g, done, RClear(q, Walk({}, CNext))));
    DescendRank(m0, g, done, q);
    WalkStarts(m0, done, q, s.m);
  }

  lemma WalkStarts(m0: Mem, done: set<nat>, q: nat, m: Mem)
    requires AllWf(m0) && q < |m0.segs| && q !in done && Swept(m0, AttsOf(m0, done), m) && m.segs == Flagged(m0, q)
    ensures WalkAt(m0, q, AttsOf(m0, done), Walk({}, CNext), m)
  {
    OneSegmentMore(m0, done, q);
    assert AttsOf(m0, done) + {} == AttsOf(m0, done);
  }

  lemma ClearRank(m: Mem, g: nat, done: set<nat>, q: nat, w: Walk, w': Walk)
    requires 0 < WalkRank(m, q, w)
    ensures 0 < RecallRank(m, g, done, RUnflag(q)) < RecallRank(m, g, done, RClear(q, w))
    ensures 0 < WalkRank(m, q, w') < WalkRank(m, q, w) ==>
              0 < RecallRank(m, g, done, RClear(q, w')) < RecallRank(m, g, done, RClear(q, w))
  {
  }

  lemma RecallClears(base: seq<Pc>, t: nat, g: nat, done: set<nat>, q: nat, w: Walk, m: Mem, c: Choice, m0: Mem)
    requires t < |base| && Resting(base) && Ready(m0, g) && RecallMem(m0, g, done, RClear(q, w), m) && WalkHelped(m, q, w, c)
    ensures var act := RecallAct(At(base, t, m, Recall(g, done, RClear(q, w))), t, g, done, RClear(q, w), c);
            RecallNearer(m0, g, done, RClear(q, w), After(m, act.e), act.pc)
  {
    var s := At(base, t, m, Recall(g, done, RClear(q, w)));
    WalkOn(base, t, m, Recall(g, done, RClear(q, w)), q, AttsOf(m0, done), w, c, m0);
    RankPositive(m0, q, w);
    var n := WalkNext(s, t, q, w, c);
    if n.Ended? {
      ClearRank(m0, g, done, q, w, w);
      OneSegmentMore(m0, done, q);
      assert RecallAct(s, t, g, done, RClear(q, w), c) == To(Recall(g, done, RUnflag(q)));
    } else {
      ClearRank(m0, g, done, q, w, n.w);
      assert RecallAct(s, t, g, done, RClear(q, w), c) == Act(n.e, Recall(g, done, RClear(q, n.w)));
    }
  }

  lemma RecallUnflags(s: State, t: nat, g: nat, done: set<nat>, q: nat, c: Choice, m0: Mem)
    requires Ready(m0, g) && RecallMem(m0, g, done, RUnflag(q), s.m)
    ensures var act := RecallAct(s, t, g, done, RUnflag(q), c);
            RecallNearer(m0, g, done, RUnflag(q), After(s.m, act.e), act.pc)
  {
    assert RecallAct(s, t, g, done, RUnflag(q), c) == Act(SetRecalling(q, false), Recall(g, done, RUp(q)));
    assert m0.segs[q := m0.segs[q]] == m0.segs && !m0.segs[q].recalling;
  }

  lemma RecallNext(s: State, t: nat, g: nat, done: set<nat>, q: nat, c: Choice, m0: Mem)
    requires Ready(m0, g) && RecallMem(m0, g, done, RUp(q), s.m)
    ensures var act := RecallAct(s, t, g, done, RUp(q), c);
            RecallNearer(m0, g, done, RUp(q), After(s.m, act.e), act.pc)
  {
    assert RecallAct(s, t, g, done, RUp(q), c) == To(Recall(g, done + {q}, RWalk));
    OneSegmentLess(m0, g, done, q);
  }

  lemma RecallOn(base: seq<Pc>, t: nat, g: nat, done: set<nat>, st: RecallStage, m: Mem, c: Choice, m0: Mem)
    requires t < |base| && Resting(base) && Ready(m0, g) && RecallMem(m0, g, done, st, m) && !st.RWindow?
    requires Helps(At(base, t, m, Recall(g, done, st)), Recall(g, done, st), c)
    ensures var act := RecallAct(At(base, t, m, Recall(g, done, st)), t, g, done, st, c);
            RecallNearer(m0, g, done, st, After(m, act.e), act.pc)
  {
    var s := At(base, t, m, Recall(g, done, st));
    RecallFree(base, t, m, Recall(g, done, st), g);
    if st.RWaitGate? || st.RWaitMutex? {
      RecallEnters(s, t, g, st, c, m0);
    } else if st.RWalk? {
      RecallPicks(s, t, g, done, c, m0);
    } else if st.RTest? {
      RecallFlags(s, t, g, done, st, c, m0);
    } else if st.RWaitSema? {
      RecallDescends(s, t, g, done, st.q, c, m0);
    } else if st.RClear? {
      RecallClears(base, t, g, done, st.q, st.w, m, c, m0);
    } else if st.RUnflag? {
      RecallUnflags(s, t, g, done, st.q, c, m0);
    } else if st.RUp? {
      RecallNext(s, t, g, done, st.q, c, m0);
    }
  }

  lemma {:induction false} RecallEnds(base: seq<Pc>, t: nat, g: nat, done: set<nat>, st: RecallStage, m: Mem,
                                      cs: seq<Choice>, m0: Mem)
    requires t < |base| && Resting(base) && Ready(m0, g) && RecallMem(m0, g, done, st, m)
    requires 0 < RecallRank(m0, g, done, st) <= |cs| && Helped(At(base, t, m, Recall(g, done, st)), t, cs)
    ensures var s := Solo(At(base, t, m, Recall(g, done, st)), t, cs); s == At(base, t, s.m, Idle) && Recalled(m0, g, s.m)
    decreases |cs|
  {
    var pc := Recall(g, done, st);
    Goes(base, t, m, pc, cs[0]);
    if st.RWindow? {
      assert Solo(At(base, t, m, Idle), t, cs[1..]) == At(base, t, m, Idle);
    } else {
      RecallOn(base, t, g, done, st, m, cs[0], m0);
      var act := RecallAct(At(base, t, m, pc), t, g, done, st, cs[0]);
      RecallEnds(base, t, g, act.pc.done, act.pc.rs, After(m, act.e), cs[1..], m0);
    }
  }

  /** A recall, with nobody else at work, clears every attachment on the lists of the live segments of
      the group, and leaves everything else as it was. */
  lemma RecallAlone(s: State, t: nat, g: nat, c: Choice, cs: seq<Choice>)
    requires t < |s.threads| && Resting(s.threads) && Ready(s.m, g) && c.op == DoRecall(g)
    requires |cs| >= Times(Bound(s.m), |Targets(s.m, g)|) + 5 && Helped(Next(s, Event(t, c)), t, cs)
    ensures var s' := Call(s, t, c, cs); s' == State(s'.m, s.threads) && Recalled(s.m, g, s'.m)
  {
    assert Next(s, Event(t, c)) == At(s.threads, t, s.m, Recall(g, {}, RWaitGate));
    assert Targets(s.m, g) - {} == Targets(s.m, g);
    RecallEnds(s.threads, t, g, {}, RWaitGate, s.m, cs, s.m);
    assert s.threads[t := Idle] == s.threads;
  }

  // ----- Invalidation -----

  /** A live, flagged attachment loses the pages from lo to hi, and its flag if that is all of it. */
  function Invalidated(at: Att, lo: nat, hi: nat): Att {
    if at.destroying || !at.valid || lo >= hi || lo >= at.size then at
    else at.(pages := (set p | p in at.pages && !(lo <= p < hi && p < at.size)), valid := lo > 0 || hi < at.size)
  }

  function InvalidationChoices(a: nat, lo: nat, hi: nat): seq<Choice> {
    var c := Choice(DoInvalidate(0), true, a, lo, hi, Fit);
    [c, c, c, c, c, c.(ok := false), c]
  }

  lemma InvalidatesOne(m: Mem, a: nat, lo: nat, hi: nat)
    requires AttWf(m, a)
    ensures Apply(m, ClearSome(a, lo, hi, Fit)).atts == m.atts[a := Invalidated(m.atts[a], lo, hi)]
    ensures Apply(m, ClearSome(a, lo, hi, Fit)).segs == m.segs
  {
    var at := m.atts[a];
    var to := Least(hi, at.size);
    assert at.pages - Slice(at.pages, lo, to) == set p | p in at.pages && !(lo <= p < hi && p < at.size);
  }

  /** The callout for pages lo to hi of one attachment of the group, with nobody else at work. */
  lemma InvalidateAlone(s: State, t: nat, g: nat, a: nat, lo: nat, hi: nat, c: Choice)
    requires t < |s.threads| && Resting(s.threads) && c.op == DoInvalidate(g)
    requires g < |s.m.tgs| && AttWf(s.m, a) && s.m.atts[a].tg == g
    ensures var s' := Call(s, t, c, InvalidationChoices(a, lo, hi));
            && s' == State(s'.m, s.threads) && s'.m.segs == s.m.segs
            && s'.m.atts == s.m.atts[a := Invalidated(s.m.atts[a], lo, hi)]
  {
    var mm, base, m, cs := s.m.tgs[g].mm, s.threads, s.m, InvalidationChoices(a, lo, hi);
    var m' := Apply(m, ClearSome(a, lo, hi, Fit));
    InvalidatesOne(m, a, lo, hi);
    InvalidatePath(base, t, g, mm, a, m, m', cs);
    assert s.threads[t := Idle] == s.threads;
  }

  lemma InvalidatePath(base: seq<Pc>, t: nat, g: nat, mm: nat, a: nat, m: Mem, m': Mem, cs: seq<Choice>)
    requires t < |base| && Resting(base) && AttWf(m, a) && m.atts[a].tg == g && |cs| == 7
    requires cs[1].ok && cs[1].pick == a && cs[3].tables.Fit? && !cs[5].ok
    requires m' == Apply(m, ClearSome(a, cs[3].lo, cs[3].hi, Fit))
    ensures Solo(At(base, t, m, Inval(g, mm, IWaitMm)), t, cs) == At(base, t, m', Idle)
  {
    AllFree(base, t, m, Inval(g, mm, IWaitMm), Mmap(mm), Wr);
    AllFree(base, t, m, Inval(g, mm, IWaitInv(a)), InvMutex(a), Wr);
    Goes(base, t, m, Inval(g, mm, IWaitMm), cs[0]);
    Goes(base, t, m, Inval(g, mm, IWalk), cs[1]);
    Goes(base, t, m, Inval(g, mm, IWaitInv(a)), cs[2]);
    Goes(base, t, m, Inval(g, mm, IClear(a)), cs[3]);
    Goes(base, t, m', Inval(g, mm, IRelInv(a)), cs[4]);
    Goes(base, t, m', Inval(g, mm, IWalk), cs[5]);
    Goes(base, t, m', Inval(g, mm, IRelMm), cs[6]);
    assert cs[1..][1..] == cs[2..] && cs[2..][1..] == cs[3..] && cs[3..][1..] == cs[4..];
    assert cs[4..][1..] == cs[5..] && cs[5..][1..] == cs[6..] && cs[6..][1..] == [];
    assert Solo(At(base, t, m, Inval(g, mm, IWalk)), t, cs[1..]) == Solo(At(base, t, m, Inval(g, mm, IWaitInv(a))), t, cs[2..]);
    assert Solo(At(base, t, m, Inval(g, mm, IWaitInv(a))), t, cs[2..])
           == Solo(At(base, t, m, Inval(g, mm, IClear(a))), t, cs[3..]);
    assert Solo(At(base, t, m, Inval(g, mm, IClear(a))), t, cs[3..])
           == Solo(At(base, t, m', Inval(g, mm, IRelInv(a))), t, cs[4..]);
    assert Solo(At(base, t, m', Inval(g, mm, IRelInv(a))), t, cs[4..]) == Solo(At(base, t, m', Inval(g, mm, IWalk)), t, cs[5..]);
    assert Solo(At(base, t, m', Inval(g, mm, IWalk)), t, cs[5..]) == Solo(At(base, t, m', Inval(g, mm, IRelMm)), t, cs[6..]);
    assert Solo(At(base, t, m', Inval(g, mm, IRelMm)), t, cs[6..]) == Solo(At(base, t, m', Idle), t, []);
  }
}
