/**
 Flags that announce work in progress never outlive the work: whenever a segment is
 RECALLINGPFNS, a segment is DESTROYING but not DESTROYED, or a still mapped
 attachment is DESTROYING, some thread is at that work.
 */
module ProtocolOwners {
  import opened Protocol
  import opened ProtocolKnowledge
  import opened ProtocolEffects

  predicate RecallsSeg(pc: Pc, q: nat) {
    pc.Recall? && (pc.rs.RWaitSema? || pc.rs.RClear? || pc.rs.RUnflag?) && pc.rs.q == q
  }

  predicate RemovesSeg(pc: Pc, q: nat) {
    pc.Remove? && pc.seg == q && (pc.ms.MWaitSema? || pc.ms.MClear? || pc.ms.MMark?)
  }

  predicate DetachesAtt(pc: Pc, a: nat) {
    pc.Detach? && pc.att == a && (pc.ds.DRelInv? || pc.ds.DOwner? || pc.ds.DLook? || pc.ds.DUnpin?)
  }

  datatype Job = RecallJob(q: nat) | RemoveJob(q: nat) | DetachJob(a: nat)

  predicate Works(pc: Pc, j: Job) {
    match j
    case RecallJob(q) => RecallsSeg(pc, q)
    case RemoveJob(q) => RemovesSeg(pc, q)
    case DetachJob(a) => DetachesAtt(pc, a)
  }

  /** The shared flags say that job j is in progress. */
  predicate Announced(m: Mem, j: Job) {
    match j
    case RecallJob(q) => q < |m.segs| && m.segs[q].recalling
    case RemoveJob(q) => q < |m.segs| && m.segs[q].destroying && !m.segs[q].destroyed
    case DetachJob(a) => a < |m.atts| && m.atts[a].destroying && m.atts[a].vma.Mapped?
  }

  ghost predicate Owned(s: State) {
    forall j :: Announced(s.m, j) ==> exists u :: 0 <= u < |s.threads| && Works(s.threads[u], j)
  }

  predicate Begins(e: Effect, j: Job) {
    match j
    case RecallJob(q) => e == SetRecalling(q, true)
    case RemoveJob(q) => e == MarkSeg(q)
    case DetachJob(a) => e == MarkAtt(a, true)
  }

  predicate Finishes(e: Effect, j: Job) {
    match j
    case RecallJob(q) => e == SetRecalling(q, false)
    case RemoveJob(q) => e == FinishSeg(q)
    case DetachJob(a) => e == MarkAtt(a, false) || (e.UnpinAtt? && e.a == a)
  }

  lemma SegAnnouncements(m: Mem, e: Effect, m': Mem, j: Job)
    requires Applied(m, e, m') && Announced(m', j) && !j.DetachJob?
    ensures !Finishes(e, j) && (Announced(m, j) || Begins(e, j))
  {
  }

  lemma AttAnnouncements(m: Mem, e: Effect, m': Mem, j: Job)
    requires Applied(m, e, m') && Announced(m', j) && j.DetachJob?
    requires OnAtt(e) && e.a < |m.atts| ==> Facts(m.atts[e.a], e)
    ensures !Finishes(e, j) && (Announced(m, j) || Begins(e, j))
  {
  }

  /** A job is announced after an effect only if it was before or the effect begins it. */
  lemma Announcements(m: Mem, e: Effect, m': Mem, j: Job)
    requires Applied(m, e, m') && Announced(m', j)
    requires OnAtt(e) && e.a < |m.atts| ==> Facts(m.atts[e.a], e)
    ensures !Finishes(e, j) && (Announced(m, j) || Begins(e, j))
  {
    if j.DetachJob? {
      AttAnnouncements(m, e, m', j);
    } else {
      SegAnnouncements(m, e, m', j);
    }
  }

  lemma RecallKeepsWork(s: State, t: nat, g: nat, done: set<nat>, st: RecallStage, c: Choice, j: Job)
    requires Located(s.m, Recall(g, done, st))
    ensures var act := RecallAct(s, t, g, done, st, c);
            && (Works(Recall(g, done, st), j) ==> Works(act.pc, j) || Finishes(act.e, j))
            && (Begins(act.e, j) ==> Works(act.pc, j))
  {
  }

  lemma RemoveKeepsWork(s: State, t: nat, q: nat, st: RemoveStage, c: Choice, j: Job)
    requires q < |s.m.segs|
    ensures var act := RemoveAct(s, t, q, st, c);
            && (Works(Remove(q, st), j) ==> Works(act.pc, j) || Finishes(act.e, j))
            && (Begins(act.e, j) ==> Works(act.pc, j))
  {
  }

  lemma DetachKeepsWork(s: State, t: nat, a: nat, mm: nat, byList: bool, st: DetachStage, c: Choice, j: Job)
    requires AttWf(s.m, a)
    requires j == DetachJob(a) && st.DLook? ==> s.m.atts[a].vma.Mapped?
    ensures var act := DetachAct(s, t, a, mm, byList, st, c);
            && (Works(Detach(a, mm, byList, st), j) ==> Works(act.pc, j) || Finishes(act.e, j))
            && (Begins(act.e, j) ==> Works(act.pc, j))
  {
  }

  /** Threads outside recall, remove and detach begin no job that stays announced. */
  lemma NoWork(m: Mem, pc: Pc, e: Effect, m': Mem, j: Job)
    requires !pc.Recall? && !pc.Remove? && !pc.Detach?
    requires pc.Close? && pc.ks.KTest? && pc.att < |m.atts| ==> m.atts[pc.att].vma.Gone?
    requires EffectWf(m, e) && Performs(m, pc, e) && Applied(m, e, m') && Announced(m', j)
    ensures !Works(pc, j) && !Begins(e, j)
  {
  }

  /** A thread keeps at an announced job until the effect that finishes it. */
  lemma ActKeepsWork(s: State, t: nat, pc: Pc, c: Choice, m': Mem, j: Job)
    requires Located(s.m, pc)
    requires pc.Close? && pc.ks.KTest? ==> s.m.atts[pc.att].vma.Gone?
    requires var e := ActOf(s, t, pc, c).e;
             EffectWf(s.m, e) && Performs(s.m, pc, e) && Applied(s.m, e, m') && Announced(m', j)
    requires !Finishes(ActOf(s, t, pc, c).e, j)
    ensures var act := ActOf(s, t, pc, c);
            && (Works(pc, j) ==> Works(act.pc, j))
            && (Begins(act.e, j) ==> Works(act.pc, j))
  {
    match pc {
      case Recall(g, done, st) => RecallKeepsWork(s, t, g, done, st, c, j);
      case Remove(q, st) => RemoveKeepsWork(s, t, q, st, c, j);
      case Detach(a, mm, byList, st) => DetachKeepsWork(s, t, a, mm, byList, st, c, j);
      case _ => NoWork(s.m, pc, ActOf(s, t, pc, c).e, m', j);
    }
  }

  lemma OwnedStep(s: State, t: nat, c: Choice, m': Mem)
    requires t < |s.threads| && Owned(s) && Located(s.m, s.threads[t])
    requires var act := ActOf(s, t, s.threads[t], c);
             && EffectWf(s.m, act.e) && Performs(s.m, s.threads[t], act.e) && Applied(s.m, act.e, m')
             && (OnAtt(act.e) ==> Facts(s.m.atts[act.e.a], act.e))
    requires forall a :: 0 <= a < |s.m.atts| ==> Claims(s.threads[t], a, s.m.atts[a])
    ensures Owned(State(m', s.threads[t := ActOf(s, t, s.threads[t], c).pc]))
  {
    var pc := s.threads[t];
    var act := ActOf(s, t, pc, c);
    var s' := State(m', s.threads[t := act.pc]);
    forall j | Announced(m', j)
      ensures exists u :: 0 <= u < |s'.threads| && Works(s'.threads[u], j)
    {
      Announcements(s.m, act.e, m', j);
      ActKeepsWork(s, t, pc, c, m', j);
      if Announced(s.m, j) {
        var u :| 0 <= u < |s.threads| && Works(s.threads[u], j);
        assert Works(s'.threads[u], j);
      } else {
        assert Works(s'.threads[t], j);
      }
    }
  }
}
