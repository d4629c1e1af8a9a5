/**
 Whole runs of the reference-counting machine: counts are exact, freed memory is touched exactly
 when an attach or a fault follows a field to an object nobody refers to any more, nothing is
 freed twice, and existence references are dropped once.
 */
module LifetimeRuns {
  import opened Sums
  import opened Lifetime
  import opened LifetimeInv
  import opened LifetimeSafety
  import opened LifetimeCounts

  predicate KeptRun(s: State, events: seq<Event>)
    decreases |events|
  {
    events == [] || (Kept(s, events[0]) && KeptRun(Next(s, events[0]), events[1..]))
  }

  ghost predicate Exact(s: State) {
    Inv(s) && Counted(s)
  }

  lemma NextKeeps(s: State, e: Event)
    requires Exact(s)
    ensures Inv(Next(s, e))
    ensures Kept(s, e) ==> Counted(Next(s, e))
    ensures Next(s, e).broken <==> s.broken || !Kept(s, e)
  {
    if e.t < |s.threads| {
      StepKeepsInv(s, e.t, e.c);
      KeptIffTouchesNothing(s, e.t, e.c);
      if Kept(s, e) {
        StepKeepsCounts(s, e.t, e.c);
      }
    }
  }

  lemma {:induction false} BrokenStays(s: State, events: seq<Event>)
    requires s.broken
    ensures Run(s, events).broken
    decreases |events|
  {
    if events != [] {
      BrokenStays(Next(s, events[0]), events[1..]);
    }
  }

  lemma {:induction false} RunKeeps(s: State, events: seq<Event>)
    requires Exact(s) && KeptRun(s, events)
    ensures Exact(Run(s, events))
    decreases |events|
  {
    if events != [] {
      NextKeeps(s, events[0]);
      RunKeeps(Next(s, events[0]), events[1..]);
    }
  }

  lemma {:induction false} RunBreaksIff(s: State, events: seq<Event>)
    requires Exact(s) && !s.broken
    ensures Run(s, events).broken <==> !KeptRun(s, events)
    decreases |events|
  {
    if events != [] {
      NextKeeps(s, events[0]);
      if Kept(s, events[0]) {
        RunBreaksIff(Next(s, events[0]), events[1..]);
      } else {
        BrokenStays(Next(s, events[0]), events[1..]);
      }
    }
  }

  lemma InitExact(threads: nat)
    ensures Exact(Init(threads))
  {
  }

  // ----- Theorems -----

  lemma {:induction false} RunTallies(s: State, events: seq<Event>)
    requires Inv(s) && Tallied(s)
    ensures Inv(Run(s, events)) && Tallied(Run(s, events))
    decreases |events|
  {
    if events != [] {
      if events[0].t < |s.threads| {
        StepKeepsInv(s, events[0].t, events[0].c);
        StepKeepsTally(s, events[0].t, events[0].c);
      }
      RunTallies(Next(s, events[0]), events[1..]);
    }
  }

  /** In every state of every run, the count of every object is the reference of its list, plus
      one for each permit on a list that names it, plus what the threads hold; no object on its
      list is freed; and what nobody refers to is freed. */
  lemma CountsAreExact(threads: nat, events: seq<Event>)
    ensures var s := Run(Init(threads), events);
            forall o :: 0 <= o < |s.objs| ==>
              && s.objs[o].refcnt == (if s.objs[o].linked then 1 else 0)
                                     + Sum(GrantWeights(s.objs, o)) + Sum(HeldWeights(s.threads, o))
              && (s.objs[o].linked ==> !s.objs[o].freed)
              && (!Referenced(s, o) ==> s.objs[o].freed)
  {
    InitExact(threads);
    RunTallies(Init(threads), events);
    var s := Run(Init(threads), events);
    forall o | 0 <= o < |s.objs| ensures Tally(s, o) && (!Referenced(s, o) ==> s.objs[o].freed) {
      assert Tally(s, o);
      ReferencedIffPositive(s, o);
    }
  }

  /** In every run that touches nothing freed, an object is freed exactly when nobody refers to
      it. */
  lemma FreedIffUnreferenced(threads: nat, events: seq<Event>, o: nat)
    requires var s := Run(Init(threads), events); !s.broken && o < |s.objs|
    ensures var s := Run(Init(threads), events); s.objs[o].freed <==> !Referenced(s, o)
  {
    InitExact(threads);
    RunBreaksIff(Init(threads), events);
    RunKeeps(Init(threads), events);
    ReferencedIffAlive(Run(Init(threads), events), o);
  }

  /** A run touches freed memory if and only if some attach takes its reference on a segment or
      group, or some fault on the permit's group, to which nobody refers any more. */
  lemma FreedIsTouchedIffLate(threads: nat, events: seq<Event>)
    ensures Run(Init(threads), events).broken <==> !KeptRun(Init(threads), events)
  {
    InitExact(threads);
    RunBreaksIff(Init(threads), events);
  }

  lemma FreedUnchanged(s: State, e: Event, o: nat)
    requires Exact(s) && Kept(s, e) && o < |s.objs| && s.objs[o].freed
    ensures o < |Next(s, e).objs| && Next(s, e).objs[o] == s.objs[o]
  {
    if e.t < |s.threads| {
      var act := ActOf(s, s.threads[e.t], e.c);
      KeptIffTouchesNothing(s, e.t, e.c);
      ApplyIsApplied(s.objs, act.e);
      FreedUntouched(s.objs, act.e, o);
    }
  }

  /** What has been freed is never changed again, so it is not freed twice. */
  lemma {:induction false} FreedStaysFreed(s: State, events: seq<Event>, o: nat)
    requires Exact(s) && KeptRun(s, events)
    requires o < |s.objs| && s.objs[o].freed
    ensures o < |Run(s, events).objs| && Run(s, events).objs[o] == s.objs[o]
    decreases |events|
  {
    if events != [] {
      NextKeeps(s, events[0]);
      FreedUnchanged(s, events[0], o);
      FreedStaysFreed(Next(s, events[0]), events[1..], o);
    }
  }

  // ----- Each object is unlinked once -----

  predicate Unlinks(s: State, e: Event, o: nat) {
    e.t < |s.threads| && ActOf(s, s.threads[e.t], e.c).e == Unlink(o)
  }

  /** How often a run unlinks object o, handing its existence reference to a thread. */
  function Unlinkings(s: State, events: seq<Event>, o: nat): nat
    decreases |events|
  {
    if events == [] then 0
    else (if Unlinks(s, events[0], o) then 1 else 0) + Unlinkings(Next(s, events[0]), events[1..], o)
  }

  /** Object o has not been unlinked: it does not exist yet, or is on its list. */
  function Unspent(s: State, o: nat): nat {
    if o < |s.objs| && !s.objs[o].linked then 0 else 1
  }

  lemma UnlinkStep(s: State, e: Event, o: nat)
    requires Inv(s)
    ensures Inv(Next(s, e))
    ensures Unspent(s, o) == Unspent(Next(s, e), o) + if Unlinks(s, e, o) then 1 else 0
  {
    if e.t < |s.threads| {
      StepKeepsInv(s, e.t, e.c);
      ActSound(s, s.threads[e.t], e.c);
      ApplyIsApplied(s.objs, ActOf(s, s.threads[e.t], e.c).e);
    }
  }

  lemma {:induction false} RunUnlinks(s: State, events: seq<Event>, o: nat)
    requires Inv(s)
    ensures Unspent(s, o) == Unspent(Run(s, events), o) + Unlinkings(s, events, o)
    decreases |events|
  {
    if events != [] {
      UnlinkStep(s, events[0], o);
      RunUnlinks(Next(s, events[0]), events[1..], o);
    }
  }

  /** However releases, removals, detaches, unmaps and failing attaches race, the existence
      reference of an object is handed over once if the object is off its list, else not at all. */
  lemma ExistenceDroppedOnce(threads: nat, events: seq<Event>, o: nat)
    ensures var s := Run(Init(threads), events);
            Unlinkings(Init(threads), events, o) == if o < |s.objs| && !s.objs[o].linked then 1 else 0
  {
    InitExact(threads);
    RunUnlinks(Init(threads), events, o);
  }
}
