/**
 Whoever gives back the pins of an attachment also takes its pages away: in every run, pages without
 a vma are those of a detach that has not come to its unmap yet, or of a release by a thread that
 has no address space any more.
 */
module ProtocolUnmap {
  import opened Protocol
  import opened ProtocolKnowledge
  import opened ProtocolEffects
  import opened ProtocolOwners
  import opened ProtocolSafety
  import opened ProtocolPins

  /** A detach or release that has given back the pins of attachment a and is still to unmap it. */
  predicate Unmaps(pc: Pc, a: nat) {
    && pc.Detach? && pc.att == a
    && (pc.ds.DUnlink? || pc.ds.DRelMutex? || pc.ds.DRelMm? || pc.ds.DWaitMunmap? || pc.ds.DMunmap?)
  }

  /** The attachments that a step releases without an address space to unmap from. */
  function Abandons(s: State, e: Event): set<nat> {
    if e.t < |s.threads| && s.threads[e.t].Detach? && s.threads[e.t].byList && s.threads[e.t].ds.DRelMm? && !e.c.ok
    then {s.threads[e.t].att} else {}
  }

  ghost function Abandoned(s: State, events: seq<Event>): set<nat>
    decreases |events|
  {
    if events == [] then {} else Abandons(s, events[0]) + Abandoned(Next(s, events[0]), events[1..])
  }

  predicate Stale(m: Mem, a: nat) {
    a < |m.atts| && m.atts[a].vma.Gone? && m.atts[a].pages != {}
  }

  ghost predicate Pending(s: State, a: nat, abandoned: set<nat>) {
    a in abandoned || exists u :: 0 <= u < |s.threads| && Unmaps(s.threads[u], a)
  }

  ghost predicate StalePending(s: State, abandoned: set<nat>) {
    forall a :: Stale(s.m, a) ==> Pending(s, a, abandoned)
  }

  /** Only a detach makes pages stale. */
  lemma StaleBy(m: Mem, pc: Pc, e: Effect, m': Mem, a: nat)
    requires MemOk(m) && EffectWf(m, e) && Performs(m, pc, e) && Applied(m, e, m') && Stale(m', a)
    requires OnAtt(e) ==> Facts(m.atts[e.a], e)
    ensures Stale(m, a) || (e.UnpinAtt? && e.a == a && pc.Detach? && pc.att == a && pc.ds.DUnpin?)
    ensures !(e.UnmapAtt? && e.a == a)
  {
  }

  lemma DetachGoesOn(s: State, t: nat, pc: Pc, c: Choice, a: nat)
    requires t < |s.threads| && pc == s.threads[t] && pc.Detach? && pc.att == a && AttWf(s.m, a)
    ensures var act := ActOf(s, t, pc, c);
            && (act.e.UnpinAtt? ==> Unmaps(act.pc, a))
            && (Unmaps(pc, a) ==> Unmaps(act.pc, a) || act.e == UnmapAtt(a) || a in Abandons(s, Event(t, c)))
  {
  }

  lemma StaleCause(s: State, t: nat, c: Choice, a: nat)
    requires Inv(s) && t < |s.threads| && Stale(Next(s, Event(t, c)).m, a)
    ensures var pc, e := s.threads[t], ActOf(s, t, s.threads[t], c).e;
            && (Stale(s.m, a) || (e.UnpinAtt? && pc.Detach? && pc.att == a))
            && e != UnmapAtt(a) && (pc.Detach? ==> AttWf(s.m, pc.att))
  {
    var pc := s.threads[t];
    var e := ActOf(s, t, pc, c).e;
    assert ThreadOk(s.m, pc);
    ActSound(s, t, pc, c);
    ApplyIsApplied(s.m, e);
    if OnAtt(e) {
      PerformerKnows(s.m, pc, e);
    }
    StaleBy(s.m, pc, e, Next(s, Event(t, c)).m, a);
  }

  lemma StepStale(s: State, t: nat, c: Choice, ab: set<nat>, a: nat)
    requires Inv(s) && t < |s.threads| && StalePending(s, ab) && Stale(Next(s, Event(t, c)).m, a)
    ensures Pending(Next(s, Event(t, c)), a, ab + Abandons(s, Event(t, c)))
  {
    StaleCause(s, t, c, a);
    var s', pc := Next(s, Event(t, c)), s.threads[t];
    assert s'.threads == s.threads[t := ActOf(s, t, pc, c).pc];
    if pc.Detach? && pc.att == a {
      DetachGoesOn(s, t, pc, c, a);
    }
    if Stale(s.m, a) {
      if u :| 0 <= u < |s.threads| && Unmaps(s.threads[u], a) {
        assert u != t ==> Unmaps(s'.threads[u], a);
        assert u == t ==> Unmaps(s'.threads[t], a) || a in Abandons(s, Event(t, c));
      }
    } else {
      assert Unmaps(s'.threads[t], a);
    }
  }

  lemma {:induction false} RunStale(s: State, events: seq<Event>, ab: set<nat>)
    requires Inv(s) && StalePending(s, ab)
    ensures StalePending(Run(s, events), ab + Abandoned(s, events))
    decreases |events|
  {
    if events == [] {
      assert ab + Abandoned(s, events) == ab;
    } else {
      var s', more := Next(s, events[0]), ab + Abandons(s, events[0]);
      if events[0].t < |s.threads| {
        StepKeepsInv(s, events[0].t, events[0].c);
        forall a | Stale(s'.m, a) ensures Pending(s', a, more) {
          StepStale(s, events[0].t, events[0].c, ab, a);
        }
      } else {
        assert more == ab;
      }
      RunStale(s', events[1..], more);
      assert more + Abandoned(s', events[1..]) == ab + Abandoned(s, events);
    }
  }

  /** In every run, an attachment without a vma that has a mapped page has a detach or release on its
      way to unmap it, or was released by a thread without an address space. */
  lemma StaleIsPending(threads: nat, events: seq<Event>, a: nat)
    requires Stale(Run(Init(threads), events).m, a)
    ensures Pending(Run(Init(threads), events), a, Abandoned(Init(threads), events))
  {
    InitInv(threads);
    RunStale(Init(threads), events, {});
    assert {} + Abandoned(Init(threads), events) == Abandoned(Init(threads), events);
  }

  /** At rest, only live attachments have mapped pages, but for those so released. */
  lemma OnlyLiveHavePages(threads: nat, events: seq<Event>, a: nat)
    requires var s := Run(Init(threads), events); Quiescent(s) && a < |s.m.atts| && s.m.atts[a].pages != {}
    ensures Live(Run(Init(threads), events).m, a) || a in Abandoned(Init(threads), events)
  {
    var s := Run(Init(threads), events);
    InitInv(threads);
    RunKeepsInv(Init(threads), events);
    assert AttOk(s.m.atts[a]);
    assert Announced(s.m, DetachJob(a)) ==> exists u :: 0 <= u < |s.threads| && Works(s.threads[u], DetachJob(a));
    if Stale(s.m, a) {
      StaleIsPending(threads, events, a);
    }
  }
}
