/**
 Why the protocol's walks may end only when every attachment then linked has been examined: the
 code's nested walk examines all but attachments made meanwhile, and none are made while the
 segment's semaphore is held for writing.
 */
module ProtocolWalk {
  import opened Locks
  import opened Protocol
  import opened ProtocolKnowledge
  import opened ProtocolEffects
  import opened ProtocolSafety
  import ListWalk

  /** While a recall or a removal holds the semaphore of segment q, no step of any thread makes an
      attachment of q. */
  lemma SweepAddsNothing(s: State, t: nat, q: nat, e: Event)
    requires Inv(s) && t < |s.threads| && Holds(s.threads[t], Sema(q)) == Wr
    ensures forall a :: |s.m.atts| <= a < |Next(s, e).m.atts| ==> Next(s, e).m.atts[a].seg != q
  {
    if e.t < |s.threads| {
      var pc := s.threads[e.t];
      var act := ActOf(s, e.t, pc, e.c);
      assert ThreadOk(s.m, pc);
      ActSound(s, e.t, pc, e.c);
      ApplyIsApplied(s.m, act.e);
      if act.e.NewAtt? && e.t != t {
        assert Compatible(Holds(pc, Sema(act.e.q)), Holds(s.threads[t], Sema(act.e.q)));
      }
    }
  }

  /** Thread t holds the semaphore of segment q for writing before every step of the run and after it. */
  ghost predicate Holding(s: State, t: nat, q: nat, events: seq<Event>)
    decreases |events|
  {
    && t < |s.threads| && Holds(s.threads[t], Sema(q)) == Wr
    && (events != [] ==> Holding(Next(s, events[0]), t, q, events[1..]))
  }

  lemma StepKeeps(s: State, e: Event)
    requires Inv(s)
    ensures Inv(Next(s, e)) && Extends(s.m, Next(s, e).m)
  {
    if e.t < |s.threads| {
      var pc := s.threads[e.t];
      assert ThreadOk(s.m, pc);
      ActSound(s, e.t, pc, e.c);
      ApplyIsApplied(s.m, ActOf(s, e.t, pc, e.c).e);
      ApplyExtends(s.m, ActOf(s, e.t, pc, e.c).e);
      StepKeepsInv(s, e.t, e.c);
    }
  }

  /** The same over any run of any threads while the semaphore is held. */
  lemma {:induction false} SweepRunAddsNothing(s: State, t: nat, q: nat, events: seq<Event>)
    requires Inv(s) && Holding(s, t, q, events)
    ensures |s.m.atts| <= |Run(s, events).m.atts|
    ensures forall a :: |s.m.atts| <= a < |Run(s, events).m.atts| ==> Run(s, events).m.atts[a].seg != q
    decreases |events|
  {
    if events != [] {
      var next := Next(s, events[0]);
      SweepAddsNothing(s, t, q, events[0]);
      StepKeeps(s, events[0]);
      SweepRunAddsNothing(next, t, q, events[1..]);
      RunExtends(next, events[1..]);
    }
  }

  /** Every attachment linked to segment q is on the list of a permit on the segment's list. */
  ghost predicate Represents(m: Mem, q: nat, lists: ListWalk.Lists) {
    forall a :: 0 <= a < |m.atts| && m.atts[a].seg == q && m.atts[a].linked ==>
      exists p :: p in lists.permits.list && a in lists.Of(p).list
  }

  /** The lists hold only attachments of segment q. */
  ghost predicate OnlyOf(m: Mem, q: nat, lists: ListWalk.Lists) {
    forall p, x :: x in lists.Of(p).list ==> x < |m.atts| && m.atts[x].seg == q
  }

  /** What the nested walk guarantees at its end is what the protocol's walk waits for: a walk that
      holds the semaphore all along has examined every attachment then linked.  An attachment that
      existed at the start has been on its permit's list since it was made. */
  lemma NestedWalkExaminesAll(s: State, t: nat, q: nat, events: seq<Event>,
                              start: ListWalk.Lists, end: ListWalk.Lists, examined: set<(nat, nat)>)
    requires Inv(s) && Holding(s, t, q, events)
    requires Represents(Run(s, events).m, q, end) && OnlyOf(Run(s, events).m, q, end)
    requires forall p, x :: x in end.Of(p).list && x < |s.m.atts| ==> x in start.Of(p).used
    requires forall p, x ::
               p in end.permits.list && x in end.Of(p).list ==> (p, x) in examined || x !in start.Of(p).used
    ensures AllExamined(Run(s, events).m, q, set e | e in examined :: e.1)
  {
    var m := Run(s, events).m;
    SweepRunAddsNothing(s, t, q, events);
    forall a | 0 <= a < |m.atts| && m.atts[a].seg == q && m.atts[a].linked
      ensures a in (set e | e in examined :: e.1)
    {
      var p :| p in end.permits.list && a in end.Of(p).list;
      assert (p, a) in examined;
    }
  }
}
