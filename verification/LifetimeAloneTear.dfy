/**
 What the release of a permit and the teardown of a group do to the object graph when no other
 operation is in progress: every attachment, permit and segment concerned leaves its list.
 */
module LifetimeAloneTear {
  import opened Lifetime
  import opened LifetimeAlone

  // ----- On the way -----

  predicate Listed(x: Obj, p: nat) {
    x.kind == Attach && x.linked && x.parent == p
  }

  predicate Owned(x: Obj, g: nat) {
    x.kind == Permit && x.linked && x.owner == g
  }

  predicate Made(x: Obj, g: nat) {
    x.kind == Segment && x.linked && x.parent == g
  }

  /** The attachments on the list of permit p. */
  function AttachesOf(graph: seq<Obj>, p: nat): set<nat> {
    set a: nat | a < |graph| && Listed(graph[a], p)
  }

  /** The permits on the lists of group g. */
  function PermitsOf(graph: seq<Obj>, g: nat): set<nat> {
    set p: nat | p < |graph| && Owned(graph[p], g)
  }

  /** The segments on the list of group g. */
  function SegmentsOf(graph: seq<Obj>, g: nat): set<nat> {
    set q: nat | q < |graph| && Made(graph[q], g)
  }

  /** A loop is given an element while its list has one, and every attachment still has its vma.  The
      walk of a removal, which only takes and drops references, ends at once. */
  ghost predicate Helps(objs: seq<Obj>, pc: Pc, c: Choice) {
    && c.ok
    && (pc.ReleaseLoop? && |AttachesOf(objs, pc.p)| > 0 ==> c.pick in AttachesOf(objs, pc.p))
    && (pc.TearPermits? && |PermitsOf(objs, pc.g)| > 0 ==> c.pick in PermitsOf(objs, pc.g))
    && (pc.TearSegments? && |SegmentsOf(objs, pc.g)| > 0 ==> c.pick in SegmentsOf(objs, pc.g))
    && (pc.SweepAps? ==> c.pick >= |objs|)
  }

  // ----- A run -----

  function OneMore(s: State, t: nat, c: Choice): State {
    if t >= |s.threads| || s.threads[t].Idle? then s else Next(s, Event(t, c))
  }

  /** The state after the first i choices. */
  function StateAt(s: State, t: nat, cs: seq<Choice>, i: nat): State
    requires i <= |cs|
  {
    if i == 0 then s else OneMore(StateAt(s, t, cs, i - 1), t, cs[i - 1])
  }

  /** Choice number i helps thread t on, unless the thread is idle by then. */
  ghost predicate HelpedAt(s: State, t: nat, cs: seq<Choice>, i: nat)
    requires i < |cs|
  {
    var s' := StateAt(s, t, cs, i);
    t < |s'.threads| && !s'.threads[t].Idle? ==> Helps(s'.objs, s'.threads[t], cs[i])
  }

  ghost predicate Helped(s: State, t: nat, cs: seq<Choice>) {
    forall i :: 0 <= i < |cs| ==> HelpedAt(s, t, cs, i)
  }

  lemma {:induction false} OneEarlier(s: State, t: nat, cs: seq<Choice>, i: nat)
    requires i < |cs|
    ensures StateAt(s, t, cs, i + 1) == StateAt(OneMore(s, t, cs[0]), t, cs[1..], i)
  {
    if i == 0 {
      assert StateAt(s, t, cs, 1) == OneMore(StateAt(s, t, cs, 0), t, cs[0]);
    } else {
      OneEarlier(s, t, cs, i - 1);
      assert cs[1..][i - 1] == cs[i];
    }
  }

  lemma {:induction false} StaysIdle(s: State, t: nat, cs: seq<Choice>, i: nat)
    requires i <= |cs| && (t >= |s.threads| || s.threads[t].Idle?)
    ensures StateAt(s, t, cs, i) == s
  {
    if i > 0 {
      StaysIdle(s, t, cs, i - 1);
    }
  }

  lemma {:induction false} SoloIs(s: State, t: nat, cs: seq<Choice>)
    ensures Solo(s, t, cs) == StateAt(s, t, cs, |cs|)
    decreases |cs|
  {
    if t >= |s.threads| || s.threads[t].Idle? {
      StaysIdle(s, t, cs, |cs|);
    } else if |cs| > 0 {
      SoloIs(Next(s, Event(t, cs[0])), t, cs[1..]);
      OneEarlier(s, t, cs, |cs| - 1);
    }
  }

  /** A run of thread t with the choices cs, while the other threads rest. */
  datatype Alone = Alone(base: seq<Pc>, t: nat, tr: seq<State>, cs: seq<Choice>)

  /** State number i of the run is followed by what the thread does with choice number i. */
  ghost predicate StepAt(w: Alone, i: nat) {
    && i < |w.cs| && i + 1 < |w.tr| && w.tr[i + 1] == OneMore(w.tr[i], w.t, w.cs[i])
    && (w.t < |w.tr[i].threads| && !w.tr[i].threads[w.t].Idle? ==> Helps(w.tr[i].objs, w.tr[i].threads[w.t], w.cs[i]))
  }

  ghost predicate IsRun(w: Alone) {
    w.t < |w.base| && Resting(w.base) && |w.tr| == |w.cs| + 1 && forall i :: 0 <= i < |w.cs| ==> StepAt(w, i)
  }

  /** After i choices the objects are objs, and the thread is at pc. */
  ghost predicate Passes(w: Alone, i: nat, objs: seq<Obj>, pc: Pc) {
    IsRun(w) && i <= |w.cs| && w.tr[i].objs == objs && w.tr[i].threads == w.base[w.t := pc]
  }

  lemma RunOf(base: seq<Pc>, t: nat, s: State, pc: Pc, cs: seq<Choice>) returns (w: Alone)
    requires t < |base| && Resting(base) && s.threads == base[t := pc] && Helped(s, t, cs)
    ensures w.base == base && w.t == t && w.cs == cs && Passes(w, 0, s.objs, pc) && w.tr[|cs|] == Solo(s, t, cs)
  {
    w := Alone(base, t, seq(|cs| + 1, i requires 0 <= i <= |cs| => StateAt(s, t, cs, i)), cs);
    forall i | 0 <= i < |cs| ensures StepAt(w, i) {
      assert HelpedAt(s, t, cs, i);
    }
    SoloIs(s, t, cs);
  }

  /** A run whose thread is idle has ended. */
  lemma {:induction false} Ended(w: Alone, i: nat, objs: seq<Obj>)
    requires Passes(w, i, objs, Idle)
    ensures Leaves(w.tr[|w.cs|], w.base, Shapes(objs))
    decreases |w.cs| - i
  {
    if i < |w.cs| {
      assert StepAt(w, i);
      Ended(w, i + 1, objs);
    } else {
      assert w.base[w.t := Idle] == w.base;
    }
  }

  /** One step. */
  lemma OneStep(w: Alone, objs: seq<Obj>, pc: Pc, at: nat, e: Effect, pc': Pc)
    requires Passes(w, at, objs, pc) && at < |w.cs| && !pc.Idle? && ActOf(w.tr[at], pc, w.cs[at]) == Act(e, pc')
    ensures Passes(w, at + 1, Apply(objs, e), pc')
  {
    assert StepAt(w, at);
    assert w.base[w.t := pc][w.t := pc'] == w.base[w.t := pc'];
  }

  /** The choice that is given helps. */
  lemma HelpsAt(w: Alone, objs: seq<Obj>, pc: Pc, at: nat)
    requires Passes(w, at, objs, pc) && at < |w.cs| && !pc.Idle?
    ensures Helps(objs, pc, w.cs[at])
  {
    assert StepAt(w, at);
  }

  lemma NoneBusyAt(w: Alone, objs: seq<Obj>, pc: Pc, at: nat, a: nat)
    requires Passes(w, at, objs, pc) && !pc.AttachNew? && !pc.AttachFail? && !pc.FaultTest?
    ensures !AttachBusy(w.tr[at], a) && !FaultTesting(w.tr[at], a)
  {
    NoneBusy(w.base, w.t, objs, w.tr[at].broken, pc, a);
    assert w.tr[at] == At(w.base, w.t, objs, w.tr[at].broken, pc);
  }

  /** References are dropped, and the thread goes on. */
  lemma {:induction false} DropsTo(w: Alone, objs: seq<Obj>, hand: Hand, k: Then, at: nat)
    returns (objs': seq<Obj>, to: nat)
    requires |w.cs| > at + Size(hand) && Passes(w, at, objs, Drop(hand, k))
    ensures Passes(w, to, objs', Continue(k))
    ensures Shapes(objs') == Shapes(objs) && to <= at + Size(hand) + 1
    decreases Size(hand)
  {
    if hand.Empty? {
      OneStep(w, objs, Drop(hand, k), at, Nothing, Continue(k));
      objs', to := objs, at + 1;
    } else {
      OneStep(w, objs, Drop(hand, k), at, Dec(hand.o), Drop(hand.rest, k));
      CountingKeepsShapes(objs, Dec(hand.o));
      var objs1 := Apply(objs, Dec(hand.o));
      objs', to := DropsTo(w, objs1, hand.rest, k, at + 1);
    }
  }

  // ----- One attachment -----

  /** Object o is taken off its list. */
  ghost predicate OneGone(objs: seq<Obj>, o: nat, objs': seq<Obj>) {
    o < |objs| && Shapes(objs') == Shapes(objs)[o := Unlinked(objs[o])]
  }

  lemma UnlinksAttach(w: Alone, objs: seq<Obj>, h: nat, p: nat, tearing: bool, a: nat, at: nat)
    returns (objs': seq<Obj>, to: nat)
    requires |w.cs| >= at + 4 && a < |objs|
    requires Passes(w, at, Apply(objs, Mark(a, true)), ReleaseAttMarked(p, h, tearing, a))
    ensures to <= at + 4
    ensures Passes(w, to, objs', ReleaseLoop(p, h, tearing))
    ensures OneGone(objs, a, objs')
  {
    var objs1, pc, k := Apply(objs, Mark(a, true)), ReleaseAttMarked(p, h, tearing, a), NextAttach(p, h, tearing);
    NoneBusyAt(w, objs1, pc, at, a);
    HelpsAt(w, objs1, pc, at);
    OneStep(w, objs1, pc, at, Unlink(a), Drop(Hand2(a, a), k));
    TwoInHand(a, a);
    MarkedShapes(objs, a);
    objs', to := DropsTo(w, Apply(objs1, Unlink(a)), Hand2(a, a), k, at + 1);
  }

  lemma MarksAttach(w: Alone, objs: seq<Obj>, h: nat, p: nat, tearing: bool, at: nat)
    returns (objs': seq<Obj>, to: nat)
    requires |w.cs| >= at + 2 && |AttachesOf(objs, p)| > 0
    requires forall x :: x in AttachesOf(objs, p) ==> !objs[x].destroying
    requires Passes(w, at, objs, ReleaseLoop(p, h, tearing))
    ensures to <= at + 2
    ensures var a := w.cs[at].pick;
            && a in AttachesOf(objs, p) && Shapes(objs') == Shapes(objs)
            && Passes(w, to, Apply(objs', Mark(a, true)), ReleaseAttMarked(p, h, tearing, a))
  {
    var a := w.cs[at].pick;
    HelpsAt(w, objs, ReleaseLoop(p, h, tearing), at);
    OneStep(w, objs, ReleaseLoop(p, h, tearing), at, Inc(Ref(a), No, No), ReleaseAtt(p, h, tearing, a));
    CountingKeepsShapes(objs, Inc(Ref(a), No, No));
    objs' := Apply(objs, Inc(Ref(a), No, No));
    SameShape(objs, objs', a);
    NoneBusyAt(w, objs', ReleaseAtt(p, h, tearing, a), at + 1, a);
    OneStep(w, objs', ReleaseAtt(p, h, tearing, a), at + 1, Mark(a, true), ReleaseAttMarked(p, h, tearing, a));
    to := at + 1 + 1;
  }

  /** One round of the loop takes one attachment off the list. */
  lemma ReleasesOne(w: Alone, objs: seq<Obj>, h: nat, p: nat, tearing: bool, at: nat)
    returns (objs': seq<Obj>, to: nat)
    requires |w.cs| >= at + 6 && |AttachesOf(objs, p)| > 0
    requires forall x :: x in AttachesOf(objs, p) ==> !objs[x].destroying
    requires Passes(w, at, objs, ReleaseLoop(p, h, tearing))
    ensures to <= at + 6
    ensures w.cs[at].pick in AttachesOf(objs, p) && OneGone(objs, w.cs[at].pick, objs')
    ensures Passes(w, to, objs', ReleaseLoop(p, h, tearing))
  {
    var a := w.cs[at].pick;
    var objs1, mid := MarksAttach(w, objs, h, p, tearing, at);
    objs', to := UnlinksAttach(w, objs1, h, p, tearing, a, mid);
    SameShape(objs, objs1, a);
  }

  // ----- One permit -----

  /** Permit p and its attachments are off their lists. */
  function Released(graph: seq<Obj>, p: nat): (r: seq<Obj>)
    ensures |r| == |graph|
  {
    seq(|graph|, i requires 0 <= i < |graph| => if i == p || Listed(graph[i], p) then Unlinked(graph[i]) else graph[i])
  }

  lemma ShapeLists(objs: seq<Obj>, p: nat)
    ensures AttachesOf(Shapes(objs), p) == AttachesOf(objs, p)
    ensures PermitsOf(Shapes(objs), p) == PermitsOf(objs, p)
    ensures SegmentsOf(Shapes(objs), p) == SegmentsOf(objs, p)
  {
    forall a: nat | a < |objs|
      ensures Listed(Shapes(objs)[a], p) == Listed(objs[a], p)
      ensures Owned(Shapes(objs)[a], p) == Owned(objs[a], p)
      ensures Made(Shapes(objs)[a], p) == Made(objs[a], p)
    {
      assert Shapes(objs)[a] == Shape(objs[a]);
    }
  }

  lemma OneGoneAt(objs: seq<Obj>, o: nat, objs': seq<Obj>, i: nat)
    requires OneGone(objs, o, objs') && i < |objs|
    ensures |objs'| == |objs| && Shape(objs'[i]) == if i == o then Unlinked(objs[o]) else Shape(objs[i])
  {
    assert Shapes(objs')[i] == Shape(objs'[i]);
  }

  lemma ListShrinks(objs: seq<Obj>, objs': seq<Obj>, p: nat, a: nat)
    requires a in AttachesOf(objs, p) && a != p && OneGone(objs, a, objs')
    ensures |objs'| == |objs| && AttachesOf(objs', p) == AttachesOf(objs, p) - {a}
    ensures Released(Shapes(objs'), p) == Released(Shapes(objs), p)
    ensures forall x :: x in AttachesOf(objs', p) ==> objs'[x].destroying == objs[x].destroying
  {
    forall i: nat | i < |objs|
      ensures |objs'| == |objs| && Shape(objs'[i]) == if i == a then Unlinked(objs[a]) else Shape(objs[i])
    {
      OneGoneAt(objs, a, objs', i);
    }
    forall i | 0 <= i < |objs| ensures Released(Shapes(objs'), p)[i] == Released(Shapes(objs), p)[i] {
      assert Shapes(objs')[i] == Shape(objs'[i]) && Shapes(objs)[i] == Shape(objs[i]);
    }
  }

  ghost predicate NoneListed(objs: seq<Obj>, p: nat) {
    forall a :: 0 <= a < |objs| ==> !Listed(objs[a], p)
  }

  /** What is dropped when permit p is off its lists. */
  function LastHand(x: Obj, p: nat, h: nat, tearing: bool): Hand {
    if tearing then Hand4(x.parent, x.top, p, p) else Hand5(x.parent, x.top, p, p, h)
  }

  function Afterwards(h: nat, tearing: bool): Then {
    if tearing then NextPermit(h) else Return
  }

  lemma LastHandSize(x: Obj, p: nat, h: nat, tearing: bool)
    ensures Size(LastHand(x, p, h, tearing)) == if tearing then 4 else 5
  {
    FiveInHand(x.parent, x.top, p, p, h);
    ThreeInHand(x.top, p, p);
  }

  lemma PermitAct(objs: seq<Obj>, h: nat, p: nat, tearing: bool, c: Choice)
    requires p < |objs| && NoneListed(objs, p)
    ensures ReleaseAct(objs, ReleaseLoop(p, h, tearing), c)
            == Act(Unlink(p), Drop(LastHand(objs[p], p, h, tearing), Afterwards(h, tearing)))
  {
    assert forall a :: 0 <= a < |objs| && objs[a].kind == Attach && objs[a].linked && objs[a].parent == p ==> Listed(objs[a], p);
  }

  lemma PermitUnlinked(objs: seq<Obj>, p: nat)
    requires p < |objs| && objs[p].destroying && NoneListed(objs, p)
    ensures Shapes(Apply(objs, Unlink(p))) == Released(Shapes(objs), p)
  {
    var graph := Shapes(objs);
    forall i | 0 <= i < |objs| ensures Shapes(Apply(objs, Unlink(p)))[i] == Released(graph, p)[i] {
      assert !Listed(objs[i], p) && graph[i] == Shape(objs[i]);
    }
  }

  lemma ReleasesPermit(w: Alone, objs: seq<Obj>, h: nat, p: nat, tearing: bool, at: nat)
    returns (objs': seq<Obj>, to: nat)
    requires |w.cs| >= at + 7 && p < |objs| && objs[p].destroying && NoneListed(objs, p)
    requires Passes(w, at, objs, ReleaseLoop(p, h, tearing))
    ensures to <= at + 7
    ensures Passes(w, to, objs', Continue(Afterwards(h, tearing)))
    ensures Shapes(objs') == Released(Shapes(objs), p)
  {
    var hand, k := LastHand(objs[p], p, h, tearing), Afterwards(h, tearing);
    PermitAct(objs, h, p, tearing, w.cs[at]);
    OneStep(w, objs, ReleaseLoop(p, h, tearing), at, Unlink(p), Drop(hand, k));
    PermitUnlinked(objs, p);
    LastHandSize(objs[p], p, h, tearing);
    objs', to := DropsTo(w, Apply(objs, Unlink(p)), hand, k, at + 1);
  }

  /** The number of choices that suffice for the release of a permit, from its loop on. */
  function LoopCost(objs: seq<Obj>, p: nat): nat {
    6 * |AttachesOf(objs, p)| + 7
  }

  /** Permit p is being released, and its attachments are live. */
  ghost predicate Emptying(objs: seq<Obj>, p: nat) {
    Is(objs, p, Permit) && objs[p].destroying && forall x :: x in AttachesOf(objs, p) ==> !objs[x].destroying
  }

  /** One attachment fewer. */
  ghost predicate Nearer(objs: seq<Obj>, p: nat, objs': seq<Obj>) {
    && Emptying(objs', p) && |AttachesOf(objs', p)| == |AttachesOf(objs, p)| - 1
    && Released(Shapes(objs'), p) == Released(Shapes(objs), p)
  }

  lemma OneGoneNearer(objs: seq<Obj>, p: nat, a: nat, objs': seq<Obj>)
    requires Emptying(objs, p) && a in AttachesOf(objs, p) && OneGone(objs, a, objs')
    ensures Nearer(objs, p, objs')
  {
    ListShrinks(objs, objs', p, a);
    OneGoneAt(objs, a, objs', p);
  }

  lemma LoopsNearer(w: Alone, objs: seq<Obj>, h: nat, p: nat, tearing: bool, at: nat)
    returns (objs': seq<Obj>, to: nat)
    requires |w.cs| >= at + 6 && |AttachesOf(objs, p)| > 0 && Emptying(objs, p)
    requires Passes(w, at, objs, ReleaseLoop(p, h, tearing))
    ensures to <= at + 6
    ensures Passes(w, to, objs', ReleaseLoop(p, h, tearing))
    ensures Nearer(objs, p, objs')
  {
    objs', to := ReleasesOne(w, objs, h, p, tearing, at);
    OneGoneNearer(objs, p, w.cs[at].pick, objs');
  }

  lemma EmptyList(objs: seq<Obj>, p: nat)
    requires |AttachesOf(objs, p)| == 0
    ensures NoneListed(objs, p)
  {
    forall a: nat | a < |objs| ensures !Listed(objs[a], p) {
      assert a !in AttachesOf(objs, p);
    }
  }

  lemma ReleasesLast(w: Alone, objs: seq<Obj>, h: nat, p: nat, tearing: bool, at: nat)
    returns (objs': seq<Obj>, to: nat)
    requires Emptying(objs, p) && |AttachesOf(objs, p)| == 0 && |w.cs| >= at + 7
    requires Passes(w, at, objs, ReleaseLoop(p, h, tearing))
    ensures to <= at + 7
    ensures Passes(w, to, objs', Continue(Afterwards(h, tearing))) && Shapes(objs') == Released(Shapes(objs), p)
  {
    EmptyList(objs, p);
    objs', to := ReleasesPermit(w, objs, h, p, tearing, at);
  }

  lemma {:induction false} ReleaseLoops(w: Alone, objs: seq<Obj>, h: nat, p: nat, tearing: bool,
                                        at: nat, k: nat)
    returns (objs': seq<Obj>, to: nat)
    requires Emptying(objs, p) && |AttachesOf(objs, p)| == k && |w.cs| >= at + 6 * k + 8
    requires Passes(w, at, objs, ReleaseLoop(p, h, tearing))
    ensures to <= at + 6 * k + 7
    ensures Passes(w, to, objs', Continue(Afterwards(h, tearing))) && Shapes(objs') == Released(Shapes(objs), p)
    decreases k
  {
    if k == 0 {
      objs', to := ReleasesLast(w, objs, h, p, tearing, at);
    } else {
      var objs1, mid := LoopsNearer(w, objs, h, p, tearing, at);
      objs', to := ReleaseLoops(w, objs1, h, p, tearing, mid, k - 1);
    }
  }

  lemma MarkedPermit(objs0: seq<Obj>, objs: seq<Obj>, p: nat)
    requires Shapes(objs) == Shapes(objs0) && Is(objs0, p, Permit)
    ensures var objs' := Apply(objs, Mark(p, true));
            && |objs'| == |objs0| && Is(objs', p, Permit) && objs'[p].destroying && AttachesOf(objs', p) == AttachesOf(objs0, p)
            && (forall x :: x in AttachesOf(objs', p) ==> objs'[x].destroying == objs0[x].destroying)
            && Released(Shapes(objs'), p) == Released(Shapes(objs0), p)
  {
    var objs' := Apply(objs, Mark(p, true));
    MarkedShapes(objs, p);
    forall i: nat | i < |objs0|
      ensures |objs| == |objs0| && Shape(objs[i]) == Shape(objs0[i]) && (i != p ==> Shape(objs'[i]) == Shape(objs0[i]))
    {
      SameShape(objs0, objs, i);
    }
    forall i | 0 <= i < |objs0| ensures Released(Shapes(objs'), p)[i] == Released(Shapes(objs0), p)[i] {
      assert Shapes(objs')[i] == Shape(objs'[i]) && Shapes(objs0)[i] == Shape(objs0[i]);
    }
  }

  /** A permit that is live, with live attachments. */
  ghost predicate Releasable(objs: seq<Obj>, p: nat) {
    Found(objs, p, Permit) && forall x :: x in AttachesOf(objs, p) ==> !objs[x].destroying
  }

  lemma MarksPermit(w: Alone, objs0: seq<Obj>, objs: seq<Obj>, h: nat, p: nat, tearing: bool,
                    at: nat)
    returns (objs': seq<Obj>)
    requires Shapes(objs) == Shapes(objs0) && Releasable(objs0, p)
    requires at < |w.cs| && Passes(w, at, objs, Release(p, h, tearing))
    ensures Passes(w, at + 1, objs', ReleaseLoop(p, h, tearing))
    ensures Emptying(objs', p) && LoopCost(objs', p) == LoopCost(objs0, p)
    ensures Released(Shapes(objs'), p) == Released(Shapes(objs0), p)
  {
    SameShape(objs0, objs, p);
    objs' := Apply(objs, Mark(p, true));
    OneStep(w, objs, Release(p, h, tearing), at, Mark(p, true), ReleaseLoop(p, h, tearing));
    MarkedPermit(objs0, objs, p);
  }

  /** xpmem_release_ap() */
  lemma Releases(w: Alone, objs0: seq<Obj>, objs: seq<Obj>, h: nat, p: nat, tearing: bool, at: nat)
    returns (objs': seq<Obj>, to: nat)
    requires Shapes(objs) == Shapes(objs0) && Releasable(objs0, p)
    requires |w.cs| >= at + LoopCost(objs0, p) + 3 && Passes(w, at, objs, Release(p, h, tearing))
    ensures to <= at + LoopCost(objs0, p) + 1
    ensures Passes(w, to, objs', Continue(Afterwards(h, tearing)))
    ensures Shapes(objs') == Released(Shapes(objs0), p)
  {
    var objs1 := MarksPermit(w, objs0, objs, h, p, tearing, at);
    objs', to := ReleaseLoops(w, objs1, h, p, tearing, at + 1, |AttachesOf(objs1, p)|);
  }

  /** The release of a live permit by its live owner takes the permit and all its attachments off their
      lists. */
  lemma ReleaseAlone(s: State, t: nat, h: nat, p: nat, c: Choice, cs: seq<Choice>)
    requires t < |s.threads| && Resting(s.threads) && c.op == DoRelease(h) && Found(s.objs, h, Group)
    requires Releasable(s.objs, p) && s.objs[p].owner == h
    requires |cs| >= LoopCost(s.objs, p) + 4 && cs[0].pick == p && Helped(Next(s, Event(t, c)), t, cs)
    ensures Leaves(Call(s, t, c, cs), s.threads, Released(Shapes(s.objs), p))
  {
    var objs, b := Begins(s, t, c, Inc(Ref(h), No, No), ReleaseHas(h));
    var w := RunOf(s.threads, t, Next(s, Event(t, c)), ReleaseHas(h), cs);
    SameShape(s.objs, objs, p);
    OneStep(w, objs, ReleaseHas(h), 0, Inc(Ref(p), No, No), Release(p, h, false));
    CountingKeepsShapes(objs, Inc(Ref(p), No, No));
    var objs', to := Releases(w, s.objs, Apply(objs, Inc(Ref(p), No, No)), h, p, false, 1);
    Ended(w, to, objs');
  }

  // ----- All permits of a group -----

  /** A permit of group g, or an attachment of one. */
  predicate OfGroup(graph: seq<Obj>, i: nat, g: nat)
    requires i < |graph|
  {
    || Owned(graph[i], g)
    || (graph[i].kind == Attach && graph[i].linked && graph[i].parent < |graph| && Owned(graph[graph[i].parent], g))
  }

  function WithoutPermits(graph: seq<Obj>, g: nat): (r: seq<Obj>)
    ensures |r| == |graph|
  {
    seq(|graph|, i requires 0 <= i < |graph| => if OfGroup(graph, i, g) then Unlinked(graph[i]) else graph[i])
  }

  function WithoutSegments(graph: seq<Obj>, g: nat): (r: seq<Obj>)
    ensures |r| == |graph|
  {
    seq(|graph|, i requires 0 <= i < |graph| => if Made(graph[i], g) then Unlinked(graph[i]) else graph[i])
  }

  /** The permits of the group, their attachments and the segments of the group are live. */
  ghost predicate Tearable(graph: seq<Obj>, g: nat) {
    && (forall i :: 0 <= i < |graph| && OfGroup(graph, i, g) ==> !graph[i].destroying)
    && (forall i :: 0 <= i < |graph| && Made(graph[i], g) ==> !graph[i].destroying)
  }

  lemma ShapesOfGroup(objs: seq<Obj>, g: nat, i: nat)
    requires i < |objs|
    ensures OfGroup(Shapes(objs), i, g) == OfGroup(objs, i, g) && Shapes(objs)[i].destroying == objs[i].destroying
    ensures Made(Shapes(objs)[i], g) == Made(objs[i], g) && Owned(Shapes(objs)[i], g) == Owned(objs[i], g)
  {
    assert Shapes(objs)[i] == Shape(objs[i]);
    if objs[i].parent < |objs| {
      assert Shapes(objs)[objs[i].parent] == Shape(objs[objs[i].parent]);
    }
  }

  lemma TearableReleasable(objs: seq<Obj>, g: nat, p: nat)
    requires Tearable(Shapes(objs), g) && p in PermitsOf(objs, g)
    ensures Releasable(objs, p)
  {
    ShapesOfGroup(objs, g, p);
    forall x | x in AttachesOf(objs, p) ensures !objs[x].destroying {
      ShapesOfGroup(objs, g, x);
    }
  }

  lemma ReleasedAt(graph: seq<Obj>, g: nat, p: nat, i: nat)
    requires p < |graph| && Owned(graph[p], g) && i < |graph|
    ensures var graph' := Released(graph, p);
            && Made(graph'[i], g) == Made(graph[i], g)
            && (Made(graph[i], g) ==> graph'[i] == graph[i])
            && Owned(graph'[i], g) == (Owned(graph[i], g) && i != p)
            && (OfGroup(graph', i, g) ==> OfGroup(graph, i, g) && graph'[i] == graph[i])
            && WithoutPermits(graph', g)[i] == WithoutPermits(graph, g)[i]
  {
  }

  lemma ReleasedOnePermit(graph: seq<Obj>, g: nat, p: nat)
    requires Tearable(graph, g) && p in PermitsOf(graph, g)
    ensures var graph' := Released(graph, p);
            && Tearable(graph', g) && |PermitsOf(graph', g)| == |PermitsOf(graph, g)| - 1
            && |SegmentsOf(graph', g)| == |SegmentsOf(graph, g)|
            && WithoutPermits(graph', g) == WithoutPermits(graph, g)
  {
    var graph' := Released(graph, p);
    forall i: nat | i < |graph|
      ensures Made(graph'[i], g) == Made(graph[i], g) && (Made(graph[i], g) ==> graph'[i] == graph[i])
      ensures Owned(graph'[i], g) == (Owned(graph[i], g) && i != p)
      ensures OfGroup(graph', i, g) ==> OfGroup(graph, i, g) && graph'[i] == graph[i]
      ensures WithoutPermits(graph', g)[i] == WithoutPermits(graph, g)[i]
    {
      ReleasedAt(graph, g, p, i);
    }
    assert PermitsOf(graph', g) == PermitsOf(graph, g) - {p};
    assert SegmentsOf(graph', g) == SegmentsOf(graph, g);
  }

  lemma {:induction false} BoundedSet(a: set<nat>, n: nat)
    requires forall i :: i in a ==> i < n
    ensures |a| <= n
  {
    if n > 0 {
      BoundedSet(a - {n - 1}, n - 1);
      assert a - {n - 1} == if n - 1 in a then a - {n - 1} else a;
    } else {
      assert a == {};
    }
  }

  /** More choices than the release of one permit uses up. */
  function Bound(n: nat): nat {
    6 * n + 10
  }

  function Times(k: nat, n: nat): nat {
    if n == 0 then 0 else k + Times(k, n - 1)
  }

  /** One permit fewer. */
  ghost predicate TornNearer(graph: seq<Obj>, g: nat, graph': seq<Obj>) {
    && |graph'| == |graph| && Tearable(graph', g) && |PermitsOf(graph', g)| == |PermitsOf(graph, g)| - 1
    && |SegmentsOf(graph', g)| == |SegmentsOf(graph, g)| && WithoutPermits(graph', g) == WithoutPermits(graph, g)
  }

  lemma TearsOnePermit(w: Alone, objs: seq<Obj>, g: nat, at: nat)
    returns (objs': seq<Obj>, to: nat)
    requires Tearable(Shapes(objs), g) && |PermitsOf(Shapes(objs), g)| > 0
    requires |w.cs| > at + Bound(|objs|) + 1
    requires Passes(w, at, objs, TearPermits(g))
    ensures to <= at + Bound(|objs|) && |objs'| == |objs|
    ensures Passes(w, to, objs', TearPermits(g))
    ensures TornNearer(Shapes(objs), g, Shapes(objs'))
  {
    var p := w.cs[at].pick;
    HelpsAt(w, objs, TearPermits(g), at);
    ShapeLists(objs, g);
    TearableReleasable(objs, g, p);
    OneStep(w, objs, TearPermits(g), at, Inc(Ref(p), No, No), Release(p, g, true));
    CountingKeepsShapes(objs, Inc(Ref(p), No, No));
    BoundedSet(AttachesOf(objs, p), |objs|);
    var objs1 := Apply(objs, Inc(Ref(p), No, No));
    objs', to := Releases(w, objs, objs1, g, p, true, at + 1);
    ShapesOfGroup(objs, g, p);
    ReleasedCounts(objs, g, p, objs');
  }

  lemma ReleasedCounts(objs: seq<Obj>, g: nat, p: nat, objs': seq<Obj>)
    requires Tearable(Shapes(objs), g) && p in PermitsOf(objs, g) && Shapes(objs') == Released(Shapes(objs), p)
    ensures TornNearer(Shapes(objs), g, Shapes(objs'))
  {
    ShapeLists(objs, g);
    ReleasedOnePermit(Shapes(objs), g, p);
  }

  lemma NoPermitLeft(objs: seq<Obj>, g: nat, c: Choice)
    requires |PermitsOf(objs, g)| == 0
    ensures TearAct(objs, TearPermits(g), c) == To(TearSegments(g)) && WithoutPermits(Shapes(objs), g) == Shapes(objs)
  {
    forall i: nat | i < |objs|
      ensures !Owned(objs[i], g) && !(objs[i].kind == Permit && objs[i].linked && objs[i].owner == g)
    {
      assert i !in PermitsOf(objs, g);
    }
    forall i: nat | i < |objs| ensures WithoutPermits(Shapes(objs), g)[i] == Shapes(objs)[i] {
      ShapesOfGroup(objs, g, i);
    }
  }

  ghost predicate PermitsGone(graph: seq<Obj>, g: nat, graph': seq<Obj>) {
    && |graph'| == |graph| && Tearable(graph', g) && |SegmentsOf(graph', g)| == |SegmentsOf(graph, g)|
    && graph' == WithoutPermits(graph, g)
  }

  lemma TearsLast(w: Alone, objs: seq<Obj>, g: nat, at: nat)
    requires Tearable(Shapes(objs), g) && |PermitsOf(Shapes(objs), g)| == 0 && at < |w.cs|
    requires Passes(w, at, objs, TearPermits(g))
    ensures Passes(w, at + 1, objs, TearSegments(g)) && PermitsGone(Shapes(objs), g, Shapes(objs))
  {
    ShapeLists(objs, g);
    NoPermitLeft(objs, g, w.cs[at]);
    OneStep(w, objs, TearPermits(g), at, Nothing, TearSegments(g));
  }

  lemma {:induction false} TearsPermits(w: Alone, objs: seq<Obj>, g: nat, at: nat, k: nat, n: nat)
    returns (objs': seq<Obj>, to: nat)
    requires |objs| == n && Tearable(Shapes(objs), g) && |PermitsOf(Shapes(objs), g)| == k
    requires |w.cs| > at + Times(Bound(n), k) + 1 && Passes(w, at, objs, TearPermits(g))
    ensures to <= at + Times(Bound(n), k) + 1
    ensures Passes(w, to, objs', TearSegments(g)) && PermitsGone(Shapes(objs), g, Shapes(objs'))
    decreases k
  {
    if k == 0 {
      TearsLast(w, objs, g, at);
      objs', to := objs, at + 1;
    } else {
      var objs1, mid := TearsOnePermit(w, objs, g, at);
      objs', to := TearsPermits(w, objs1, g, mid, k - 1, n);
    }
  }

  // ----- All segments of a group -----

  lemma UnlinksSegment(w: Alone, objs: seq<Obj>, g: nat, q: nat, at: nat)
    returns (objs': seq<Obj>, to: nat)
    requires |w.cs| >= at + 5 && q < |objs|
    requires Passes(w, at, Apply(objs, Mark(q, true)), SweepAps(q, RemoveHome(g, true)))
    ensures to <= at + 5
    ensures Passes(w, to, objs', TearSegments(g))
    ensures OneGone(objs, q, objs')
  {
    var objs1, pc, k := Apply(objs, Mark(q, true)), SweepAps(q, RemoveHome(g, true)), NextSegment(g);
    HelpsAt(w, objs1, pc, at);
    OneStep(w, objs1, pc, at, Nothing, RemoveMarked(q, g, true));
    OneStep(w, objs1, RemoveMarked(q, g, true), at + 1, Unlink(q), Drop(Hand2(q, q), k));
    var objs2 := Apply(objs1, Unlink(q));
    TwoInHand(q, q);
    MarkedShapes(objs, q);
    objs', to := DropsTo(w, objs2, Hand2(q, q), k, at + 1 + 1);
  }

  lemma MarksSegment(w: Alone, objs: seq<Obj>, g: nat, at: nat)
    returns (objs': seq<Obj>, to: nat)
    requires |w.cs| >= at + 2 && |SegmentsOf(objs, g)| > 0 && w.cs[at].pick in SegmentsOf(objs, g)
    requires !objs[w.cs[at].pick].destroying && Passes(w, at, objs, TearSegments(g))
    ensures to <= at + 2
    ensures var q := w.cs[at].pick;
            && Shapes(objs') == Shapes(objs)
            && Passes(w, to, Apply(objs', Mark(q, true)), SweepAps(q, RemoveHome(g, true)))
  {
    var q := w.cs[at].pick;
    OneStep(w, objs, TearSegments(g), at, Inc(Ref(q), No, No), Remove(q, g, true));
    CountingKeepsShapes(objs, Inc(Ref(q), No, No));
    objs' := Apply(objs, Inc(Ref(q), No, No));
    SameShape(objs, objs', q);
    OneStep(w, objs', Remove(q, g, true), at + 1, Mark(q, true), SweepAps(q, RemoveHome(g, true)));
    to := at + 1 + 1;
  }

  /** One segment fewer. */
  ghost predicate SegmentNearer(graph: seq<Obj>, g: nat, graph': seq<Obj>) {
    && |graph'| == |graph| && (forall i :: 0 <= i < |graph'| && Made(graph'[i], g) ==> !graph'[i].destroying)
    && |SegmentsOf(graph', g)| == |SegmentsOf(graph, g)| - 1 && WithoutSegments(graph', g) == WithoutSegments(graph, g)
  }

  lemma OneSegmentGone(graph: seq<Obj>, g: nat, q: nat)
    requires q in SegmentsOf(graph, g) && forall i :: 0 <= i < |graph| && Made(graph[i], g) ==> !graph[i].destroying
    ensures SegmentNearer(graph, g, graph[q := Unlinked(graph[q])])
  {
    var graph' := graph[q := Unlinked(graph[q])];
    assert SegmentsOf(graph', g) == SegmentsOf(graph, g) - {q};
    forall i | 0 <= i < |graph| ensures WithoutSegments(graph', g)[i] == WithoutSegments(graph, g)[i] {
    }
  }

  lemma TearsOneSegment(w: Alone, objs: seq<Obj>, g: nat, at: nat)
    returns (objs': seq<Obj>, to: nat)
    requires |w.cs| >= at + 7 && |SegmentsOf(Shapes(objs), g)| > 0
    requires forall i :: 0 <= i < |objs| && Made(Shapes(objs)[i], g) ==> !Shapes(objs)[i].destroying
    requires Passes(w, at, objs, TearSegments(g))
    ensures to <= at + 7
    ensures Passes(w, to, objs', TearSegments(g))
    ensures SegmentNearer(Shapes(objs), g, Shapes(objs'))
  {
    var q := w.cs[at].pick;
    HelpsAt(w, objs, TearSegments(g), at);
    ShapeLists(objs, g);
    ShapesOfGroup(objs, g, q);
    var objs1, mid := MarksSegment(w, objs, g, at);
    SameShape(objs, objs1, q);
    objs', to := UnlinksSegment(w, objs1, g, q, mid);
    ShapeLists(objs, g);
    OneSegmentGone(Shapes(objs), g, q);
    assert Unlinked(objs1[q]) == Unlinked(Shapes(objs)[q]);
  }

  lemma NoSegmentLeft(objs: seq<Obj>, g: nat, c: Choice)
    requires |SegmentsOf(objs, g)| == 0
    ensures TearAct(objs, TearSegments(g), c) == Act(SetDone(g), Drop(Hand1(g), Return))
    ensures WithoutSegments(Shapes(objs), g) == Shapes(objs)
  {
    forall i: nat | i < |objs|
      ensures !Made(objs[i], g) && !(objs[i].kind == Segment && objs[i].linked && objs[i].parent == g)
    {
      assert i !in SegmentsOf(objs, g);
    }
    forall i: nat | i < |objs| ensures WithoutSegments(Shapes(objs), g)[i] == Shapes(objs)[i] {
      ShapesOfGroup(objs, g, i);
    }
  }

  function Finished(graph: seq<Obj>, g: nat): seq<Obj>
    requires g < |graph|
  {
    graph[g := graph[g].(done := true)]
  }

  lemma {:induction false} TearsSegments(w: Alone, objs: seq<Obj>, g: nat, at: nat, k: nat)
    requires g < |objs| && |SegmentsOf(Shapes(objs), g)| == k && |w.cs| >= at + 7 * k + 3
    requires forall i :: 0 <= i < |objs| && Made(Shapes(objs)[i], g) ==> !Shapes(objs)[i].destroying
    requires Passes(w, at, objs, TearSegments(g))
    ensures Leaves(w.tr[|w.cs|], w.base, Finished(WithoutSegments(Shapes(objs), g), g))
    decreases k
  {
    if k == 0 {
      TearsLastSegment(w, objs, g, at);
    } else {
      var objs', mid := TearsOneSegment(w, objs, g, at);
      TearsSegments(w, objs', g, mid, k - 1);
    }
  }

  lemma TearsLastSegment(w: Alone, objs: seq<Obj>, g: nat, at: nat)
    requires g < |objs| && |w.cs| >= at + 3 && |SegmentsOf(Shapes(objs), g)| == 0
    requires Passes(w, at, objs, TearSegments(g))
    ensures Leaves(w.tr[|w.cs|], w.base, Finished(WithoutSegments(Shapes(objs), g), g))
  {
    ShapeLists(objs, g);
    NoSegmentLeft(objs, g, w.cs[at]);
    OneStep(w, objs, TearSegments(g), at, SetDone(g), Drop(Hand1(g), Return));
    ShapesSet(objs, g, objs[g].(done := true));
    assert Size(Hand1(g)) == 1;
    var objs', to := DropsTo(w, Apply(objs, SetDone(g)), Hand1(g), Return, at + 1);
    Ended(w, to, objs');
  }

  // ----- Teardown -----

  /** Group g is marked and torn down, and its segments, its permits and their attachments are off
      their lists; every other object is as it was. */
  function TornDown(graph: seq<Obj>, g: nat): (r: seq<Obj>)
    ensures |r| == |graph|
  {
    seq(|graph|, i requires 0 <= i < |graph| =>
      if i == g then graph[g].(destroying := true, done := true)
      else if OfGroup(graph, i, g) || Made(graph[i], g) then Unlinked(graph[i]) else graph[i])
  }

  lemma TornAt(graph: seq<Obj>, g: nat, i: nat)
    requires g < |graph| && graph[g].kind == Group && i < |graph|
    ensures var marked := graph[g := graph[g].(destroying := true)];
            && Finished(WithoutSegments(WithoutPermits(marked, g), g), g)[i] == TornDown(graph, g)[i]
            && OfGroup(marked, i, g) == OfGroup(graph, i, g) && Made(marked[i], g) == Made(graph[i], g)
            && (OfGroup(graph, i, g) || Made(graph[i], g) ==> marked[i] == graph[i])
            && Owned(marked[i], g) == Owned(graph[i], g)
  {
  }

  lemma Torn(graph: seq<Obj>, g: nat)
    requires g < |graph| && graph[g].kind == Group && Tearable(graph, g)
    ensures var marked := graph[g := graph[g].(destroying := true)];
            && Finished(WithoutSegments(WithoutPermits(marked, g), g), g) == TornDown(graph, g) && Tearable(marked, g)
            && |PermitsOf(marked, g)| == |PermitsOf(graph, g)| && |SegmentsOf(marked, g)| == |SegmentsOf(graph, g)|
  {
    var marked := graph[g := graph[g].(destroying := true)];
    forall i: nat | i < |graph|
      ensures Finished(WithoutSegments(WithoutPermits(marked, g), g), g)[i] == TornDown(graph, g)[i]
      ensures OfGroup(marked, i, g) == OfGroup(graph, i, g) && Made(marked[i], g) == Made(graph[i], g)
      ensures OfGroup(graph, i, g) || Made(graph[i], g) ==> marked[i] == graph[i]
      ensures Owned(marked[i], g) == Owned(graph[i], g)
    {
      TornAt(graph, g, i);
    }
    assert PermitsOf(marked, g) == PermitsOf(graph, g) && SegmentsOf(marked, g) == SegmentsOf(graph, g);
  }

  /** The number of choices that suffice for a teardown. */
  function TearCost(graph: seq<Obj>, g: nat): nat {
    Times(Bound(|graph|), |PermitsOf(graph, g)|) + 7 * |SegmentsOf(graph, g)| + 5
  }

  lemma TearsAll(w: Alone, objs: seq<Obj>, g: nat, at: nat)
    requires g < |objs| && Tearable(Shapes(objs), g)
    requires |w.cs| >= at + Times(Bound(|objs|), |PermitsOf(Shapes(objs), g)|) + 7 * |SegmentsOf(Shapes(objs), g)| + 4
    requires Passes(w, at, objs, TearPermits(g))
    ensures Leaves(w.tr[|w.cs|], w.base,
                   Finished(WithoutSegments(WithoutPermits(Shapes(objs), g), g), g))
  {
    var objs', to := TearsPermits(w, objs, g, at, |PermitsOf(Shapes(objs), g)|, |objs|);
    TearsSegments(w, objs', g, to, |SegmentsOf(Shapes(objs'), g)|);
  }

  lemma MarkedGroup(objs: seq<Obj>, g: nat)
    requires g < |objs|
    ensures Shapes(Apply(objs, Mark(g, true))) == Shapes(objs)[g := Shapes(objs)[g].(destroying := true)]
  {
    MarkedShapes(objs, g);
    assert Shapes(objs)[g] == Shape(objs[g]);
  }

  lemma Tears(w: Alone, objs: seq<Obj>, g: nat)
    requires Passes(w, 0, objs, TearMark(g)) && Found(objs, g, Group) && Tearable(Shapes(objs), g)
    requires |w.cs| >= TearCost(Shapes(objs), g)
    ensures Leaves(w.tr[|w.cs|], w.base, TornDown(Shapes(objs), g))
  {
    OneStep(w, objs, TearMark(g), 0, Mark(g, true), TearPermits(g));
    MarkedGroup(objs, g);
    Torn(Shapes(objs), g);
    TearsAll(w, Apply(objs, Mark(g, true)), g, 1);
  }

  /** The teardown of a live group takes its segments, its permits and their attachments off their lists,
      and returns. */
  lemma TeardownAlone(s: State, t: nat, g: nat, c: Choice, cs: seq<Choice>)
    requires t < |s.threads| && Resting(s.threads) && c.op == DoTeardown(g) && Found(s.objs, g, Group)
    requires Tearable(Shapes(s.objs), g) && |cs| >= TearCost(Shapes(s.objs), g) && Helped(Next(s, Event(t, c)), t, cs)
    ensures Leaves(Call(s, t, c, cs), s.threads, TornDown(Shapes(s.objs), g))
  {
    var objs, b := Begins(s, t, c, Inc(Ref(g), No, No), TearMark(g));
    SameShape(s.objs, objs, g);
    var w := RunOf(s.threads, t, Next(s, Event(t, c)), TearMark(g), cs);
    Tears(w, objs, g);
  }
}
