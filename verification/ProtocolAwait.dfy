/**
 Removals: each segment has at most one, which ends with the segment DESTROYED; and a recall that
 waits for a removal waits until it is over.
 */
module ProtocolAwait {
  import opened Locks
  import opened Protocol
  import opened ProtocolLocks
  import opened ProtocolKnowledge
  import opened ProtocolEffects
  import opened ProtocolOwners
  import opened ProtocolSafety
  import opened ProtocolPins

  /** Segment q is DESTROYING and not yet DESTROYED, and no thread but u is removing it. */
  ghost predicate SoleAt(s: State, u: nat, q: nat) {
    && q < |s.m.segs| && s.m.segs[q].destroying && !s.m.segs[q].destroyed
    && (forall v :: 0 <= v < |s.threads| && RemovesSeg(s.threads[v], q) ==> u == v)
  }

  ghost predicate Sole(s: State) {
    forall u: nat, q: nat :: u < |s.threads| && RemovesSeg(s.threads[u], q) ==> SoleAt(s, u, q)
  }

  lemma OnlyRemovalsRemove(s: State, t: nat, pc: Pc, c: Choice, q: nat)
    requires Located(s.m, pc) && RemovesSeg(ActOf(s, t, pc, c).pc, q)
    ensures pc.Remove?
  {
  }

  /** A thread comes to remove a segment only by marking it. */
  lemma BeginsRemoval(s: State, t: nat, pc: Pc, c: Choice, q: nat)
    requires Located(s.m, pc) && RemovesSeg(ActOf(s, t, pc, c).pc, q)
    ensures q < |s.m.segs|
    ensures if RemovesSeg(pc, q) then !ActOf(s, t, pc, c).e.FinishSeg?
            else ActOf(s, t, pc, c).e == MarkSeg(q) && !s.m.segs[q].destroying
  {
    OnlyRemovalsRemove(s, t, pc, c, q);
  }

  lemma SegFlagsAfter(m: Mem, pc: Pc, e: Effect, m': Mem, q: nat)
    requires EffectWf(m, e) && Performs(m, pc, e) && Applied(m, e, m') && q < |m.segs|
    ensures m.segs[q].destroying || e == MarkSeg(q) ==> m'.segs[q].destroying
    ensures m'.segs[q].destroyed ==> m.segs[q].destroyed || RemovesSeg(pc, q)
    ensures m'.segs[q].destroyed && !m.segs[q].destroyed ==> e == FinishSeg(q)
  {
  }

  /** What the step of thread t to s' does to removals. */
  ghost predicate Proceeds(s: State, t: nat, e: Effect, pc: Pc, s': State) {
    && t < |s.threads| && s'.threads == s.threads[t := pc]
    && EffectWf(s.m, e) && Performs(s.m, s.threads[t], e) && Applied(s.m, e, s'.m)
    && (forall q: nat :: RemovesSeg(pc, q) ==>
          && q < |s.m.segs|
          && if RemovesSeg(s.threads[t], q) then !e.FinishSeg? else e == MarkSeg(q) && !s.m.segs[q].destroying)
  }

  lemma StepProceeds(s: State, t: nat, c: Choice)
    requires Inv(s) && t < |s.threads|
    ensures var act := ActOf(s, t, s.threads[t], c); Proceeds(s, t, act.e, act.pc, Next(s, Event(t, c)))
  {
    var pc := s.threads[t];
    var act := ActOf(s, t, pc, c);
    assert ThreadOk(s.m, pc);
    ActSound(s, t, pc, c);
    ApplyIsApplied(s.m, act.e);
    forall q: nat | RemovesSeg(act.pc, q)
      ensures q < |s.m.segs|
      ensures if RemovesSeg(pc, q) then !act.e.FinishSeg? else act.e == MarkSeg(q) && !s.m.segs[q].destroying
    {
      BeginsRemoval(s, t, pc, c, q);
    }
  }

  lemma StillSole(s: State, t: nat, e: Effect, pc: Pc, s': State, u: nat, q: nat)
    requires Sole(s) && SegsOk(s) && Proceeds(s, t, e, pc, s') && u < |s.threads| && RemovesSeg(s'.threads[u], q)
    ensures SoleAt(s', u, q)
  {
    if u != t {
      assert RemovesSeg(s.threads[u], q);
      assert SoleAt(s, u, q);
    } else if RemovesSeg(s.threads[t], q) {
      assert SoleAt(s, t, q);
    }
    SegFlagsAfter(s.m, s.threads[t], e, s'.m, q);
    forall v | 0 <= v < |s'.threads| && RemovesSeg(s'.threads[v], q) ensures u == v {
      if v != t {
        assert RemovesSeg(s.threads[v], q);
        assert SoleAt(s, v, q);
      }
    }
  }

  lemma StepSole(s: State, t: nat, c: Choice)
    requires Inv(s) && Sole(s) && t < |s.threads|
    ensures Sole(Next(s, Event(t, c)))
  {
    var s', act := Next(s, Event(t, c)), ActOf(s, t, s.threads[t], c);
    StepProceeds(s, t, c);
    InvSegsOk(s);
    forall u: nat, q: nat | u < |s'.threads| && RemovesSeg(s'.threads[u], q) ensures SoleAt(s', u, q) {
      StillSole(s, t, act.e, act.pc, s', u, q);
    }
  }

  ghost predicate SegsOk(s: State) {
    forall q :: 0 <= q < |s.m.segs| ==> (s.m.segs[q].destroyed ==> s.m.segs[q].destroying)
  }

  lemma InvSegsOk(s: State)
    requires Inv(s)
    ensures SegsOk(s)
  {
    forall q | 0 <= q < |s.m.segs| ensures s.m.segs[q].destroyed ==> s.m.segs[q].destroying {
      assert SegOk(s.m, q);
    }
  }

  lemma {:induction false} RunSole(s: State, events: seq<Event>)
    requires Inv(s) && Sole(s)
    ensures Sole(Run(s, events))
    decreases |events|
  {
    if events != [] {
      if events[0].t < |s.threads| {
        StepKeepsInv(s, events[0].t, events[0].c);
        StepSole(s, events[0].t, events[0].c);
      }
      RunSole(Next(s, events[0]), events[1..]);
    }
  }

  /** In every run, at most one thread removes a segment, and it is not DESTROYED before that ends. */
  lemma OneRemoval(threads: nat, events: seq<Event>, u: nat, q: nat)
    requires u < threads && u < |Run(Init(threads), events).threads| && RemovesSeg(Run(Init(threads), events).threads[u], q)
    ensures SoleAt(Run(Init(threads), events), u, q)
  {
    InitInv(threads);
    RunSole(Init(threads), events);
  }

  /** In every run, when a recall stops waiting for segment q, no thread removes or recalls q. */
  lemma AwaitsTheEnd(threads: nat, events: seq<Event>, e: Event, q: nat, u: nat)
    requires var s := Run(Init(threads), events);
             && e.t < |s.threads| && u < |s.threads| && s.threads[e.t].Recall? && s.threads[e.t].rs == RAwait(q)
             && Next(s, e).threads[e.t] != s.threads[e.t]
    ensures !RemovesSeg(Run(Init(threads), events).threads[u], q) && !RecallsSeg(Run(Init(threads), events).threads[u], q)
  {
    var s := Run(Init(threads), events);
    InitInv(threads);
    RunKeepsInv(Init(threads), events);
    RunSole(Init(threads), events);
    NoOtherRecall(s, e.t, u, q);
    assert RemovesSeg(s.threads[u], q) ==> SoleAt(s, u, q);
  }

  lemma NoOtherRecall(s: State, t: nat, u: nat, q: nat)
    requires Inv(s) && t < |s.threads| && u < |s.threads| && s.threads[t].Recall? && s.threads[t].rs == RAwait(q)
    ensures !RecallsSeg(s.threads[u], q)
  {
    var pc := s.threads[t];
    assert ThreadOk(s.m, pc) && ThreadOk(s.m, s.threads[u]);
    assert u != t ==> CompatiblePcs(pc, s.threads[u]);
    assert u != t ==> Compatible(Holds(pc, RecallMutex(pc.tg)), Holds(s.threads[u], RecallMutex(pc.tg)));
  }

  /** In every run, at rest no segment is being recalled, a DESTROYING one is DESTROYED, and a
      DESTROYING attachment has no vma. */
  lemma NothingInProgress(threads: nat, events: seq<Event>)
    requires Quiescent(Run(Init(threads), events))
    ensures var m := Run(Init(threads), events).m;
            && (forall q :: 0 <= q < |m.segs| ==> !m.segs[q].recalling && (m.segs[q].destroying ==> m.segs[q].destroyed))
            && (forall a :: 0 <= a < |m.atts| && m.atts[a].destroying ==> !m.atts[a].vma.Mapped?)
            && (forall a :: 0 <= a < |m.atts| ==> AttWf(m, a)) && (forall q :: 0 <= q < |m.segs| ==> SegWf(m, q))
  {
    var s := Run(Init(threads), events);
    InitInv(threads);
    RunKeepsInv(Init(threads), events);
    forall j ensures !Announced(s.m, j) {
    }
    forall q: nat | q < |s.m.segs| ensures !s.m.segs[q].recalling && (s.m.segs[q].destroying ==> s.m.segs[q].destroyed) {
      assert !Announced(s.m, RecallJob(q)) && !Announced(s.m, RemoveJob(q));
    }
    forall a: nat | a < |s.m.atts| ensures s.m.atts[a].destroying ==> !s.m.atts[a].vma.Mapped? {
      assert !Announced(s.m, DetachJob(a));
    }
  }
}
