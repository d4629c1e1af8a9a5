/**
 Deadlock freedom by lock order.  Every blocking wait of a fault, recall, removal,
 detach, unmap or MMU invalidation is for a lock above all locks the thread holds.
 The one wait that is not is xpmem_attach() mapping its vma with att->mutex held, and
 that one does deadlock against a release of its permit, and against nothing else.
 */
module ProtocolDeadlock {
  import opened Locks
  import opened Protocol
  import opened ProtocolKnowledge
  import opened ProtocolEffects
  import opened ProtocolOwners
  import opened ProtocolSafety

  datatype Wait = NoWait | WaitFor(l: Lock, m: Mode)

  // ----- What a program counter sleeps for -----

  function WalkWait(ws: WalkStage): Wait {
    match ws
    case CWaitMm(_, mm) => WaitFor(Mmap(mm), Rd)
    case CWaitMutex(a, _) => WaitFor(AttMutex(a), Wr)
    case _ => NoWait
  }

  function WaitOf(pc: Pc): Wait {
    match pc
    case Idle => NoWait
    case Fault(f, st) =>
      (match st
       case FEnter | FRelock | FRelockOnly | FRelockAfterSrc => WaitFor(Mmap(f.cur), Rd)
       case FWaitGate => WaitFor(GateLock(f.tg), Blk)
       case FWaitSema => WaitFor(Sema(f.seg), Rd)
       case FWaitSrcAbove(_) => WaitFor(Mmap(f.src), Rd)
       case FWaitSrc => WaitFor(Mmap(f.src), Rd)
       case FWaitMutex => WaitFor(AttMutex(f.att), Wr)
       case _ => NoWait)
    case Recall(g, _, st) =>
      (match st
       case RWaitGate => WaitFor(GateLock(g), Rcl)
       case RWaitMutex => WaitFor(RecallMutex(g), Wr)
       case RAwait(q) => WaitFor(DestroyedWait(q), Wr)
       case RWaitSema(q) => WaitFor(Sema(q), Wr)
       case RClear(_, w) => WalkWait(w.ws)
       case _ => NoWait)
    case Remove(q, st) =>
      (match st
       case MWaitSema => WaitFor(Sema(q), Wr)
       case MClear(w) => WalkWait(w.ws)
       case _ => NoWait)
    case Detach(a, mm, _, st) =>
      (match st
       case DWaitMm | DWaitMunmap => WaitFor(Mmap(mm), Wr)
       case DWaitMutex => WaitFor(AttMutex(a), Wr)
       case DWaitInv => WaitFor(InvMutex(a), Wr)
       case _ => NoWait)
    case Close(a, mm, st) =>
      (match st
       case KWaitMm => WaitFor(Mmap(mm), Wr)
       case KWaitMutex => WaitFor(AttMutex(a), Wr)
       case _ => NoWait)
    case Inval(_, mm, st) =>
      (match st
       case IWaitMm => WaitFor(Mmap(mm), Wr)
       case IWaitInv(a) => WaitFor(InvMutex(a), Wr)
       case _ => NoWait)
    case Attach(q, _, mm, st) =>
      (match st
       case AWaitSema => WaitFor(Sema(q), Rd)
       case AWaitMm(_) => WaitFor(Mmap(mm), Wr)
       case _ => NoWait)
  }

  predicate Waits(pc: Pc, l: Lock, m: Mode) {
    WaitOf(pc) == WaitFor(l, m)
  }

  /** Thread u keeps thread t asleep: it holds what t wants, it queues for it in the mode
      that is preferred, or it is at the removal that t waits for. */
  predicate BlockedBy(s: State, t: nat, u: nat)
    requires t < |s.threads| && u < |s.threads|
  {
    var w := WaitOf(s.threads[t]);
    u != t && w.WaitFor? &&
    if w.l.DestroyedWait? then !(w.l.seg < |s.m.segs| && AwaitOver(s.m.segs[w.l.seg])) && RemovesSeg(s.threads[u], w.l.seg)
    else
      || !Compatible(Holds(s.threads[u], w.l), w.m)
      || (Stronger(w.m) != NotHeld && Waits(s.threads[u], w.l, Stronger(w.m)))
  }

  predicate Blocked(s: State, t: nat)
    requires t < |s.threads|
  {
    exists u :: 0 <= u < |s.threads| && BlockedBy(s, t, u)
  }

  /** A thread in the middle of an operation that nothing keeps from its next step. */
  predicate Ready(s: State, t: nat)
    requires t < |s.threads|
  {
    !s.threads[t].Idle? && !Blocked(s, t)
  }

  // ----- The lock order -----

  /** The attach that sleeps for the mmap lock with att->mutex held. */
  predicate Exposed(pc: Pc) {
    pc.Attach? && pc.hs.AWaitMm?
  }

  /** Every lock held lies below the lock waited for. */
  ghost predicate Ordered(pc: Pc) {
    var w := WaitOf(pc);
    w.WaitFor? ==> forall l :: Holds(pc, l) != NotHeld && !(Exposed(pc) && l.AttMutex?) ==> Below(l, w.l)
  }

  predicate FaultOrder(f: Ctx, st: FaultStage) {
    && (st.FWaitSrcAbove? ==> f.cur < f.src)
    && (st.FDropForSrc? || st.FWaitSrc? || st.FRelockAfterSrc? ==> f.src < f.cur)
  }

  /** A walk goes for the locks only of attachments that have had a vma. */
  predicate WalkOrder(m: Mem, w: Walk) {
    !w.ws.CNext? && w.ws.att < |m.atts| ==> !m.atts[w.ws.att].vma.NotYet?
  }

  /** The locks taken out of address order are only tried, and attachments still being attached
      are passed over. */
  predicate InOrder(m: Mem, pc: Pc) {
    && (pc.Fault? ==> FaultOrder(pc.f, pc.fs))
    && (pc.Recall? && pc.rs.RClear? ==> WalkOrder(m, pc.rs.w))
    && (pc.Remove? && pc.ms.MClear? ==> WalkOrder(m, pc.ms.w))
  }

  ghost predicate Disciplined(s: State) {
    forall t :: 0 <= t < |s.threads| ==> InOrder(s.m, s.threads[t])
  }

  lemma FaultOrderKept(s: State, t: nat, f: Ctx, st: FaultStage, c: Choice)
    requires CtxOk(s.m, f) && FaultOrder(f, st)
    ensures var pc := FaultAct(s, t, f, st, c).pc; pc.Fault? ==> FaultOrder(pc.f, pc.fs)
  {
  }

  /** Only flagged attachments are gone for, and they have a vma. */
  lemma WalkOrderKept(s: State, t: nat, q: nat, w: Walk, c: Choice)
    requires MemOk(s.m) && WalkOrder(s.m, w)
    ensures var n := WalkNext(s, t, q, w, c); n.Walking? ==> WalkOrder(s.m, n.w)
  {
    if w.ws.CNext? && Examinable(s.m, q, w.seen, c.pick) {
      assert AttOk(s.m.atts[c.pick]);
    }
  }

  lemma RecallOrderKept(s: State, t: nat, g: nat, done: set<nat>, st: RecallStage, c: Choice)
    requires MemOk(s.m) && InOrder(s.m, Recall(g, done, st))
    ensures InOrder(s.m, RecallAct(s, t, g, done, st, c).pc)
  {
    if st.RClear? {
      WalkOrderKept(s, t, st.q, st.w, c);
    }
  }

  lemma RemoveOrderKept(s: State, t: nat, q: nat, st: RemoveStage, c: Choice)
    requires MemOk(s.m) && q < |s.m.segs| && InOrder(s.m, Remove(q, st))
    ensures InOrder(s.m, RemoveAct(s, t, q, st, c).pc)
  {
    if st.MClear? {
      WalkOrderKept(s, t, q, st.w, c);
    }
  }

  lemma OwnOrderKept(s: State, t: nat, pc: Pc, c: Choice)
    requires MemOk(s.m) && Located(s.m, pc) && InOrder(s.m, pc)
    ensures InOrder(s.m, ActOf(s, t, pc, c).pc)
  {
    match pc {
      case Fault(f, st) =>
        FaultFocus(s, t, f, st, c);
        FaultOrderKept(s, t, f, st, c);
      case Recall(g, done, st) => RecallOrderKept(s, t, g, done, st, c);
      case Remove(q, st) => RemoveOrderKept(s, t, q, st, c);
      case Detach(a, mm, byList, st) => DetachFocus(s, t, a, mm, byList, st, c);
      case Close(a, mm, st) => CloseFocus(s, t, a, mm, st);
      case _ => RestFocus(s, t, pc, c);
    }
  }

  /** No effect takes an attachment back to before it was mapped. */
  lemma OrderStays(m: Mem, e: Effect, m': Mem, pc: Pc)
    requires Applied(m, e, m') && Located(m, pc) && InOrder(m, pc)
    ensures InOrder(m', pc)
  {
  }

  lemma NextDisciplined(s: State, e: Event)
    requires Inv(s) && Disciplined(s)
    ensures Disciplined(Next(s, e))
  {
    if e.t < |s.threads| {
      var pc := s.threads[e.t];
      var act := ActOf(s, e.t, pc, e.c);
      assert ThreadOk(s.m, pc);
      ActSound(s, e.t, pc, e.c);
      ApplyIsApplied(s.m, act.e);
      OwnOrderKept(s, e.t, pc, e.c);
      assert act.e.NewAtt? ==> act.pc.Attach?;
      forall u | 0 <= u < |s.threads| ensures InOrder(Next(s, e).m, Next(s, e).threads[u]) {
        assert ThreadOk(s.m, s.threads[u]);
        if u != e.t || !act.e.NewAtt? {
          OrderStays(s.m, act.e, Apply(s.m, act.e), Next(s, e).threads[u]);
        }
      }
    }
  }

  lemma {:induction false} RunDisciplined(s: State, events: seq<Event>)
    requires Inv(s) && Disciplined(s)
    ensures Disciplined(Run(s, events))
    decreases |events|
  {
    if events != [] {
      NextDisciplined(s, events[0]);
      if events[0].t < |s.threads| {
        StepKeepsInv(s, events[0].t, events[0].c);
      }
      RunDisciplined(Next(s, events[0]), events[1..]);
    }
  }

  lemma RunSound(threads: nat, events: seq<Event>)
    ensures Inv(Run(Init(threads), events)) && Disciplined(Run(Init(threads), events))
  {
    InitInv(threads);
    RunKeepsInv(Init(threads), events);
    RunDisciplined(Init(threads), events);
  }

  lemma WaitOrdered(m: Mem, pc: Pc)
    requires InOrder(m, pc)
    ensures Ordered(pc)
  {
  }

  /** In every state of every run, every thread that sleeps does so for a lock above all the locks
      it holds, but for the attach that maps its vma. */
  lemma WaitsInOrder(threads: nat, events: seq<Event>, t: nat)
    requires t < |Run(Init(threads), events).threads|
    ensures Ordered(Run(Init(threads), events).threads[t])
  {
    RunSound(threads, events);
    WaitOrdered(Run(Init(threads), events).m, Run(Init(threads), events).threads[t]);
  }

  // ----- Who disturbs an attach -----

  /** The release of its permit sleeps for the mutex of the attachment that thread t is still to
      map. */
  predicate Disturbs(s: State, t: nat, u: nat)
    requires t < |s.threads| && u < |s.threads|
  {
    && Exposed(s.threads[t]) && s.threads[u].Detach? && s.threads[u].byList
    && s.threads[u].ds.DWaitMutex? && s.threads[u].att == s.threads[t].hs.a
  }

  predicate Undisturbed(s: State) {
    forall t, u :: 0 <= t < |s.threads| && 0 <= u < |s.threads| ==> !Disturbs(s, t, u)
  }

  /** Nobody but a release sleeps for the mutex of an attachment that is being attached: faults,
      detaches and unmaps know its vma, and walks pass it over. */
  lemma OnlyReleaseWaits(s: State, t: nat, u: nat)
    requires Inv(s) && Disciplined(s) && t < |s.threads| && u < |s.threads|
    requires Exposed(s.threads[t]) && Waits(s.threads[u], AttMutex(s.threads[t].hs.a), Wr)
    ensures Disturbs(s, t, u)
  {
    var a := s.threads[t].hs.a;
    assert ThreadOk(s.m, s.threads[t]) && ThreadOk(s.m, s.threads[u]);
    assert Claims(s.threads[t], a, s.m.atts[a]) && Claims(s.threads[u], a, s.m.atts[a]);
    assert InOrder(s.m, s.threads[u]);
  }

  // ----- Nobody waits in a circle -----

  /** Threads that wait for a lock above l. */
  ghost function Above(s: State, l: Lock): set<nat> {
    set t: nat | t < |s.threads| && WaitOf(s.threads[t]).WaitFor? && Below(l, WaitOf(s.threads[t]).l)
  }

  lemma AboveShrinks(s: State, l: Lock, t: nat)
    requires t < |s.threads| && WaitOf(s.threads[t]).WaitFor? && Below(l, WaitOf(s.threads[t]).l)
    ensures Above(s, WaitOf(s.threads[t]).l) < Above(s, l)
  {
    assert t in Above(s, l) && t !in Above(s, WaitOf(s.threads[t]).l);
  }

  lemma RemoverAbove(pc: Pc, l: Lock)
    requires l.DestroyedWait? && RemovesSeg(pc, l.seg) && WaitOf(pc).WaitFor?
    ensures Below(l, WaitOf(pc).l)
  {
  }

  /** A thread that keeps t asleep and sleeps itself does so further up the lock order, or is a
      rival of the stronger mode for the same lock. */
  lemma BlockerAbove(s: State, t: nat, u: nat)
    requires Inv(s) && Disciplined(s) && Undisturbed(s)
    requires t < |s.threads| && u < |s.threads| && BlockedBy(s, t, u)
    ensures !s.threads[u].Idle?
    ensures var w, w' := WaitOf(s.threads[t]), WaitOf(s.threads[u]);
            w.WaitFor? && (w'.WaitFor? ==> Below(w.l, w'.l) || (Stronger(w.m) != NotHeld && w' == WaitFor(w.l, Stronger(w.m))))
  {
    var w, w' := WaitOf(s.threads[t]), WaitOf(s.threads[u]);
    WaitOrdered(s.m, s.threads[u]);
    if w'.WaitFor? {
      if w.l.DestroyedWait? {
        RemoverAbove(s.threads[u], w.l);
      } else if Exposed(s.threads[u]) && w.l == AttMutex(s.threads[u].hs.a) {
        OnlyReleaseWaits(s, u, t);
      }
    }
  }

  /** How far a thread that sleeps is from the end of the lock order. */
  ghost function Rank(s: State, t: nat): nat
    requires t < |s.threads|
  {
    var w := WaitOf(s.threads[t]);
    if w.WaitFor? then 1 + 2 * |Above(s, w.l)| + (if Stronger(w.m) != NotHeld then 1 else 0) else 0
  }

  lemma ProperSubsetSmaller(a: set<nat>, b: set<nat>)
    requires a < b
    ensures |a| < |b|
  {
    var x :| x in b && x !in a;
    SubsetSize(a, b - {x});
  }

  lemma {:induction false} SubsetSize(a: set<nat>, b: set<nat>)
    requires a <= b
    ensures |a| <= |b|
    decreases |a|
  {
    if a != {} {
      var x :| x in a;
      SubsetSize(a - {x}, b - {x});
    }
  }

  lemma RankFalls(s: State, t: nat, u: nat)
    requires Inv(s) && Disciplined(s) && Undisturbed(s)
    requires t < |s.threads| && u < |s.threads| && BlockedBy(s, t, u)
    ensures !s.threads[u].Idle? && Rank(s, u) < Rank(s, t)
  {
    BlockerAbove(s, t, u);
    var w, w' := WaitOf(s.threads[t]), WaitOf(s.threads[u]);
    if w'.WaitFor? && Below(w.l, w'.l) {
      AboveShrinks(s, w.l, u);
      ProperSubsetSmaller(Above(s, w'.l), Above(s, w.l));
    }
  }

  /** Every thread of d sleeps, and another thread of d keeps it asleep. */
  ghost predicate Circle(s: State, d: map<nat, nat>) {
    d != map[] && forall t :: t in d ==> t < |s.threads| && d[t] in d && d[t] < |s.threads| && BlockedBy(s, t, d[t])
  }

  lemma {:induction false} NoCircleFrom(s: State, d: map<nat, nat>, t: nat)
    requires Inv(s) && Disciplined(s) && Undisturbed(s) && t in d && t < |s.threads|
    ensures !Circle(s, d)
    decreases Rank(s, t)
  {
    if Circle(s, d) {
      RankFalls(s, t, d[t]);
      NoCircleFrom(s, d, d[t]);
    }
  }

  lemma NoCircle(s: State, d: map<nat, nat>)
    requires Inv(s) && Disciplined(s) && Undisturbed(s)
    ensures !Circle(s, d)
  {
    if Circle(s, d) {
      var t :| t in d;
      NoCircleFrom(s, d, t);
    }
  }

  lemma NoCircles(s: State)
    requires Inv(s) && Disciplined(s) && Undisturbed(s)
    ensures forall d :: !Circle(s, d)
  {
    forall d ensures !Circle(s, d) {
      NoCircle(s, d);
    }
  }

  /** Each thread of the path is kept asleep by the next. */
  ghost predicate Path(s: State, path: seq<nat>) {
    && path != []
    && (forall i :: 0 <= i < |path| ==> path[i] < |s.threads|)
    && (forall i :: 0 <= i < |path| - 1 ==> BlockedBy(s, path[i], path[i + 1]))
  }

  lemma PathGrows(s: State, t: nat, rest: seq<nat>)
    requires t < |s.threads| && Path(s, rest) && BlockedBy(s, t, rest[0])
    ensures Path(s, [t] + rest)
  {
    var path := [t] + rest;
    forall i | 0 <= i < |path| - 1 ensures BlockedBy(s, path[i], path[i + 1]) {
      if i > 0 {
        assert path[i] == rest[i - 1] && path[i + 1] == rest[i - 1 + 1];
      }
    }
  }

  /** From any operation in progress, a path of threads kept asleep leads up the lock order to one
      that is ready. */
  lemma {:induction false} WaiterProgress(s: State, t: nat) returns (path: seq<nat>)
    requires Inv(s) && Disciplined(s) && Undisturbed(s) && t < |s.threads| && !s.threads[t].Idle?
    ensures Path(s, path) && path[0] == t && Ready(s, path[|path| - 1])
    decreases Rank(s, t)
  {
    if !Blocked(s, t) {
      path := [t];
    } else {
      var u :| 0 <= u < |s.threads| && BlockedBy(s, t, u);
      RankFalls(s, t, u);
      var rest := WaiterProgress(s, u);
      PathGrows(s, t, rest);
      path := [t] + rest;
    }
  }

  // ----- Ready threads do move -----

  const Yes := Choice(DoOpen(0), true, 1, 0, 0, Fit)

  lemma UnblockedIsFree(s: State, t: nat)
    requires t < |s.threads| && !Blocked(s, t)
    ensures var w := WaitOf(s.threads[t]); w.WaitFor? && !w.l.DestroyedWait? ==> Free(s, t, w.l, w.m)
  {
    var w := WaitOf(s.threads[t]);
    if w.WaitFor? && !w.l.DestroyedWait? {
      forall u | 0 <= u < |s.threads| && u != t
        ensures Compatible(Holds(s.threads[u], w.l), w.m)
      {
        assert !BlockedBy(s, t, u);
      }
    }
  }

  ghost predicate CanMove(s: State, t: nat)
    requires t < |s.threads|
  {
    exists c :: ActOf(s, t, s.threads[t], c).pc != s.threads[t]
  }

  lemma FaultMoves(s: State, t: nat, f: Ctx, st: FaultStage)
    requires CtxOk(s.m, f)
    requires var w := WaitOf(Fault(f, st)); w.WaitFor? ==> Free(s, t, w.l, w.m)
    ensures FaultAct(s, t, f, st, Yes).pc != Fault(f, st)
  {
  }

  /** The list walk always has an element left to examine, or ends. */
  lemma WalkMoves(s: State, t: nat, q: nat, w: Walk) returns (c: Choice)
    requires Inv(s)
    requires WalkWait(w.ws).WaitFor? ==> Free(s, t, WalkWait(w.ws).l, WalkWait(w.ws).m)
    ensures var n := WalkNext(s, t, q, w, c); n.Ended? || n.w != w
  {
    c := Yes;
    if w.ws.CNext? && !AllExamined(s.m, q, w.seen) {
      var a :| 0 <= a < |s.m.atts| && s.m.atts[a].seg == q && s.m.atts[a].linked && a !in w.seen;
      assert AttWf(s.m, a);
      c := Yes.(pick := a);
    }
  }

  lemma RecallMoves(s: State, t: nat, g: nat, done: set<nat>, st: RecallStage) returns (c: Choice)
    requires Inv(s) && t < |s.threads| && s.threads[t] == Recall(g, done, st) && !Blocked(s, t)
    ensures RecallAct(s, t, g, done, st, c).pc != Recall(g, done, st)
  {
    assert ThreadOk(s.m, s.threads[t]);
    UnblockedIsFree(s, t);
    c := Yes;
    match st {
      case RWalk =>
        if !AllRecalled(s.m, g, done) {
          var q :| 0 <= q < |s.m.segs| && s.m.segs[q].tg == g && !s.m.segs[q].destroying && q !in done;
          assert SegWf(s.m, q);
          c := Yes.(pick := q);
        }
      case RAwait(q) => AwaitEnds(s, t, q);
      case RClear(q, w) => c := WalkMoves(s, t, q, w);
      case _ =>
    }
  }

  /** A removal that is waited for is in progress, or over. */
  lemma AwaitEnds(s: State, t: nat, q: nat)
    requires Inv(s) && t < |s.threads| && s.threads[t].Recall? && s.threads[t].rs == RAwait(q) && !Blocked(s, t)
    ensures q < |s.m.segs| && AwaitOver(s.m.segs[q])
  {
    assert ThreadOk(s.m, s.threads[t]);
    assert SegClaims(s.threads[t], q, s.m.segs[q]);
    if !s.m.segs[q].destroyed {
      assert Announced(s.m, RemoveJob(q));
      var u :| 0 <= u < |s.threads| && Works(s.threads[u], RemoveJob(q));
      assert !BlockedBy(s, t, u);
    }
  }

  lemma RemoveMoves(s: State, t: nat, q: nat, st: RemoveStage) returns (c: Choice)
    requires Inv(s) && t < |s.threads| && s.threads[t] == Remove(q, st) && !Blocked(s, t)
    ensures q < |s.m.segs| && RemoveAct(s, t, q, st, c).pc != Remove(q, st)
  {
    assert ThreadOk(s.m, s.threads[t]);
    UnblockedIsFree(s, t);
    c := Yes;
    if st.MClear? {
      c := WalkMoves(s, t, q, st.w);
    }
  }

  lemma DetachMoves(s: State, t: nat, pc: Pc)
    requires pc.Detach? && AttWf(s.m, pc.att)
    requires var w := WaitOf(pc); w.WaitFor? ==> Free(s, t, w.l, w.m)
    ensures DetachAct(s, t, pc.att, pc.mm, pc.byList, pc.ds, Yes).pc != pc
  {
  }

  lemma RestMoves(s: State, t: nat, pc: Pc)
    requires pc.Close? || pc.Inval? || pc.Attach?
    requires Located(s.m, pc) && Free(s, t, AttMutex(|s.m.atts|), Wr)
    requires var w := WaitOf(pc); w.WaitFor? ==> Free(s, t, w.l, w.m)
    ensures ActOf(s, t, pc, Yes).pc != pc
  {
  }

  /** The mutex of an attachment that does not exist yet is free. */
  lemma NewMutexFree(s: State, t: nat)
    requires Inv(s)
    ensures Free(s, t, AttMutex(|s.m.atts|), Wr)
  {
    assert forall u :: 0 <= u < |s.threads| ==> ThreadOk(s.m, s.threads[u]);
  }

  lemma ReadyMoves(s: State, t: nat)
    requires Inv(s) && t < |s.threads| && Ready(s, t)
    ensures CanMove(s, t)
  {
    var pc := s.threads[t];
    assert ThreadOk(s.m, pc);
    UnblockedIsFree(s, t);
    var c := Yes;
    match pc {
      case Fault(f, st) => FaultMoves(s, t, f, st);
      case Recall(g, done, st) => c := RecallMoves(s, t, g, done, st);
      case Remove(q, st) => c := RemoveMoves(s, t, q, st);
      case Detach(_, _, _, _) => DetachMoves(s, t, pc);
      case _ =>
        NewMutexFree(s, t);
        RestMoves(s, t, pc);
    }
    assert ActOf(s, t, pc, c).pc != pc;
  }

  // ----- Runs in which releases wait for attaches to return -----

  /** Thread pc is inside an attach that has created attachment a. */
  predicate Attaching(pc: Pc, a: nat) {
    pc.Attach? && OnAttachment(pc.hs) && pc.hs.a == a
  }

  /** A release does not begin with an attachment whose attach has not returned. */
  predicate Considerate(s: State, e: Event) {
    e.t < |s.threads| && s.threads[e.t].Idle? && e.c.op.DoDetach? && e.c.op.byList ==>
      forall u :: 0 <= u < |s.threads| ==> !Attaching(s.threads[u], e.c.op.att)
  }

  predicate ConsiderateRun(s: State, events: seq<Event>)
    decreases |events|
  {
    events == [] || (Considerate(s, events[0]) && ConsiderateRun(Next(s, events[0]), events[1..]))
  }

  predicate Releasing(pc: Pc, a: nat) {
    pc.Detach? && pc.byList && pc.att == a
  }

  /** No release works on an attachment whose attach has not returned. */
  ghost predicate ReleasesApart(s: State) {
    forall t, u, a: nat :: 0 <= t < |s.threads| && 0 <= u < |s.threads| && Attaching(s.threads[t], a) ==>
      !Releasing(s.threads[u], a)
  }

  lemma StepAttaching(s: State, t: nat, c: Choice, a: nat)
    requires Inv(s) && t < |s.threads| && Attaching(ActOf(s, t, s.threads[t], c).pc, a)
    ensures Attaching(s.threads[t], a) || a == |s.m.atts|
  {
    var pc := s.threads[t];
    assert ThreadOk(s.m, pc);
    match pc {
      case Fault(f, st) => FaultFocus(s, t, f, st, c);
      case Recall(g, done, st) => RecallFocus(s, t, g, done, st, c);
      case Remove(q, st) => RemoveFocus(s, t, q, st, c);
      case Detach(b, mm, byList, st) => DetachFocus(s, t, b, mm, byList, st, c);
      case Close(b, mm, st) => CloseFocus(s, t, b, mm, st);
      case _ =>
    }
  }

  lemma StepReleasing(s: State, t: nat, c: Choice, a: nat)
    requires Inv(s) && t < |s.threads| && Releasing(ActOf(s, t, s.threads[t], c).pc, a)
    ensures Releasing(s.threads[t], a) || (s.threads[t].Idle? && c.op == DoDetach(a, true))
    ensures a < |s.m.atts|
  {
    var pc := s.threads[t];
    assert ThreadOk(s.m, pc);
    match pc {
      case Fault(f, st) => FaultFocus(s, t, f, st, c);
      case Recall(g, done, st) => RecallFocus(s, t, g, done, st, c);
      case Remove(q, st) => RemoveFocus(s, t, q, st, c);
      case Close(b, mm, st) => CloseFocus(s, t, b, mm, st);
      case _ =>
    }
  }

  lemma NextApart(s: State, e: Event)
    requires Inv(s) && ReleasesApart(s) && Considerate(s, e)
    ensures ReleasesApart(Next(s, e))
  {
    if e.t < |s.threads| {
      var s' := Next(s, e);
      forall t, u, a: nat | 0 <= t < |s'.threads| && 0 <= u < |s'.threads| && Attaching(s'.threads[t], a)
        ensures !Releasing(s'.threads[u], a)
      {
        if Releasing(s'.threads[u], a) {
          assert ThreadOk(s.m, s.threads[u]);
          if u == e.t {
            StepReleasing(s, u, e.c, a);
          }
          if t == e.t {
            StepAttaching(s, t, e.c, a);
          }
        }
      }
    }
  }

  lemma {:induction false} RunApart(s: State, events: seq<Event>)
    requires Inv(s) && ReleasesApart(s) && ConsiderateRun(s, events)
    ensures ReleasesApart(Run(s, events))
    decreases |events|
  {
    if events != [] {
      NextApart(s, events[0]);
      if events[0].t < |s.threads| {
        StepKeepsInv(s, events[0].t, events[0].c);
      }
      RunApart(Next(s, events[0]), events[1..]);
    }
  }

  // ----- Theorems -----

  /** Deadlock freedom, in every state of every run in which no release begins with an attachment
      whose attach has not returned: no threads keep each other asleep in a circle, and every
      operation in progress waits, through a path of threads kept asleep by the next, for one that
      can take its next step. */
  lemma NoDeadlock(threads: nat, events: seq<Event>)
    requires ConsiderateRun(Init(threads), events)
    ensures var s := Run(Init(threads), events);
            && (forall d :: !Circle(s, d))
            && (forall t :: 0 <= t < |s.threads| && !s.threads[t].Idle? ==>
                 exists path :: Path(s, path) && path[0] == t
                             && Ready(s, path[|path| - 1]) && CanMove(s, path[|path| - 1]))
  {
    var s := Run(Init(threads), events);
    RunSound(threads, events);
    InitInv(threads);
    RunApart(Init(threads), events);
    forall t, u | 0 <= t < |s.threads| && 0 <= u < |s.threads| ensures !Disturbs(s, t, u) {
      assert Exposed(s.threads[t]) ==> Attaching(s.threads[t], s.threads[t].hs.a);
    }
    NoCircles(s);
    forall t | 0 <= t < |s.threads| && !s.threads[t].Idle?
      ensures exists path :: Path(s, path) && path[0] == t
                          && Ready(s, path[|path| - 1]) && CanMove(s, path[|path| - 1])
    {
      var path := WaiterProgress(s, t);
      ReadyMoves(s, path[|path| - 1]);
    }
  }

  /** Whoever sleeps for the mutex of an attachment holds the mmap lock it is attached under. */
  lemma MutexWaiterHoldsMmap(m: Mem, pc: Pc, a: nat)
    requires Located(m, pc) && a < |m.atts| && Waits(pc, AttMutex(a), Wr)
    ensures Holds(pc, Mmap(m.atts[a].mm)) != NotHeld
  {
  }

  lemma DisturbedBlocks(s: State, t: nat, u: nat)
    requires Inv(s) && t < |s.threads| && u < |s.threads| && Disturbs(s, t, u)
    ensures BlockedBy(s, t, u) && BlockedBy(s, u, t) && Circle(s, map[t := u, u := t])
  {
    assert ThreadOk(s.m, s.threads[t]) && ThreadOk(s.m, s.threads[u]);
    MutexWaiterHoldsMmap(s.m, s.threads[u], s.threads[t].hs.a);
    assert t in map[t := u, u := t];
  }

  /** In every state of every run, some threads keep each other asleep in a circle if and only if
      an attach is about to map its vma while the release of its permit sleeps for that
      attachment's mutex. */
  lemma CircleIffReleaseMeetsAttach(threads: nat, events: seq<Event>)
    ensures var s := Run(Init(threads), events);
            (exists d :: Circle(s, d)) <==>
            exists t, u :: 0 <= t < |s.threads| && 0 <= u < |s.threads| && Disturbs(s, t, u)
  {
    var s := Run(Init(threads), events);
    RunSound(threads, events);
    if t, u :| 0 <= t < |s.threads| && 0 <= u < |s.threads| && Disturbs(s, t, u) {
      DisturbedBlocks(s, t, u);
    } else {
      NoCircles(s);
    }
  }
}
