/**
 Conservation of pins over whole runs: what has been pinned and not given back is exactly what is
 mapped, about to be mapped, or lost, and every step that loses pins is named.
 */
module ProtocolPins {
  import opened Words
  import opened Sums
  import opened Protocol
  import opened ProtocolKnowledge
  import opened ProtocolOwners
  import opened ProtocolSafety

  /** What is counted: the whole partition, or one thread group. */
  datatype Scope = All | Group(g: nat)
  {
    predicate Has(h: nat) {
      All? || g == h
    }
  }

  /** The pins that an attachment's page table entries stand for. */
  function AttPins(at: Att, c: Scope): nat {
    if at.valid && c.Has(at.tg) then |at.pages| else 0
  }

  function AttWeights(atts: seq<Att>, c: Scope): (r: seq<int>)
    ensures |r| == |atts|
  {
    seq(|atts|, i requires 0 <= i < |atts| => AttPins(atts[i], c))
  }

  /** A fault between its pin and the end of its installation holds one pin. */
  function FlightPins(pc: Pc, c: Scope): nat {
    if pc.Fault? && (pc.fs.FFlag? || pc.fs.FUpRead? || pc.fs.FUnblock? || pc.fs.FInstall?) && c.Has(pc.f.tg)
    then 1 else 0
  }

  function FlightWeights(threads: seq<Pc>, c: Scope): (r: seq<int>)
    ensures |r| == |threads|
  {
    seq(|threads|, i requires 0 <= i < |threads| => FlightPins(threads[i], c))
  }

  function PinnedWeights(tgs: seq<Tg>): (r: seq<int>)
    ensures |r| == |tgs|
  {
    seq(|tgs|, i requires 0 <= i < |tgs| => tgs[i].nPinned)
  }

  function LeakedWeights(tgs: seq<Tg>): (r: seq<int>)
    ensures |r| == |tgs|
  {
    seq(|tgs|, i requires 0 <= i < |tgs| => tgs[i].leaked)
  }

  predicate InScope(m: Mem, c: Scope) {
    c.Group? ==> c.g < |m.tgs|
  }

  /** Pins on the books: counted as pinned and not yet given back or lost. */
  function Booked(m: Mem, c: Scope): int
    requires InScope(m, c)
  {
    match c
    case All => m.nPinned - m.nUnpinned - Sum(LeakedWeights(m.tgs))
    case Group(g) => m.tgs[g].nPinned - m.tgs[g].leaked
  }

  /** Booked pins that no page table entry stands for. */
  function Slack(m: Mem, c: Scope): int
    requires InScope(m, c)
  {
    Booked(m, c) - Sum(AttWeights(m.atts, c))
  }

  ghost predicate Balanced(s: State) {
    && s.m.nPinned - s.m.nUnpinned == Sum(PinnedWeights(s.m.tgs))
    && (forall c :: InScope(s.m, c) ==> Slack(s.m, c) == Sum(FlightWeights(s.threads, c)))
  }

  // ----- One effect -----

  /** Change of the pins in flight that goes with an effect. */
  function FlightChange(m: Mem, e: Effect, c: Scope): int
    requires EffectWf(m, e)
  {
    match e
    case Pin(g) => if c.Has(g) then 1 else 0
    case Unpin(g) => if c.Has(g) then -1 else 0
    case Lose(g) => if c.Has(g) then -1 else 0
    case Install(a, _) => if c.Has(m.atts[a].tg) then -1 else 0
    case _ => 0
  }

  lemma SliceSize(pages: set<nat>, part: set<nat>)
    requires part <= pages
    ensures |pages - part| == |pages| - |part|
  {
    assert pages == (pages - part) + part;
  }

  /** One attachment: what leaves its weight is what is removed; what enters was in flight. */
  lemma AttBalance(at: Att, e: Effect, c: Scope)
    requires OnAtt(e) && AttOk(at) && Facts(at, e) && c.Has(at.tg)
    ensures AttPins(AttAfter(at, e), c) == AttPins(at, c) + (if e.Install? then 1 else 0) - |Removed(at, e)|
  {
    if e.ClearSome? {
      SliceSize(at.pages, Removed(at, e));
    }
  }

  lemma TgBalance(m: Mem, g: nat, t: Tg)
    requires g < |m.tgs|
    ensures Sum(PinnedWeights(m.tgs[g := t])) == Sum(PinnedWeights(m.tgs)) - m.tgs[g].nPinned + t.nPinned
    ensures Sum(LeakedWeights(m.tgs[g := t])) == Sum(LeakedWeights(m.tgs)) - m.tgs[g].leaked + t.leaked
  {
    SumUpdate(PinnedWeights(m.tgs), g, t.nPinned);
    assert PinnedWeights(m.tgs[g := t]) == PinnedWeights(m.tgs)[g := t.nPinned];
    SumUpdate(LeakedWeights(m.tgs), g, t.leaked);
    assert LeakedWeights(m.tgs[g := t]) == LeakedWeights(m.tgs)[g := t.leaked];
  }

  lemma AttsBalance(atts: seq<Att>, a: nat, at: Att, c: Scope)
    requires a < |atts|
    ensures Sum(AttWeights(atts[a := at], c)) == Sum(AttWeights(atts, c)) - AttPins(atts[a], c) + AttPins(at, c)
  {
    SumUpdate(AttWeights(atts, c), a, AttPins(at, c));
    assert AttWeights(atts[a := at], c) == AttWeights(atts, c)[a := AttPins(at, c)];
  }

  /** Pages given back and pins lost leave the books. */
  lemma CountBalance(m: Mem, g: nat, n: nat, k: int, c: Scope)
    requires g < |m.tgs| && InScope(m, c)
    ensures var m' := Count(m, g, n, k);
            && Booked(m', c) == Booked(m, c) - (if c.Has(g) then n + k else 0)
            && m'.nPinned - m'.nUnpinned - Sum(PinnedWeights(m'.tgs)) == m.nPinned - m.nUnpinned - Sum(PinnedWeights(m.tgs))
  {
    TgBalance(m, g, m.tgs[g].(nPinned := m.tgs[g].nPinned - n, leaked := m.tgs[g].leaked + k));
  }

  /** An effect on an attachment moves its pins between the weights and the books. */
  lemma AttEffectBalance(m: Mem, e: Effect, c: Scope)
    requires OnAtt(e) && EffectWf(m, e) && AttOk(m.atts[e.a]) && Facts(m.atts[e.a], e) && InScope(m, c)
    ensures var m' := Apply(m, e);
            && InScope(m', c)
            && Slack(m', c) == Slack(m, c) + FlightChange(m, e, c)
            && m'.nPinned - m'.nUnpinned - Sum(PinnedWeights(m'.tgs)) == m.nPinned - m.nUnpinned - Sum(PinnedWeights(m.tgs))
  {
    var at := m.atts[e.a];
    AttWeightsBalance(m, e, c);
    CountBalance(m, at.tg, GivenBack(at, e), Lost(at, e), c);
  }

  lemma AttWeightsBalance(m: Mem, e: Effect, c: Scope)
    requires OnAtt(e) && EffectWf(m, e) && AttOk(m.atts[e.a]) && Facts(m.atts[e.a], e)
    ensures var at := m.atts[e.a];
            Sum(AttWeights(m.atts[e.a := AttAfter(at, e)], c)) == Sum(AttWeights(m.atts, c))
              - (if c.Has(at.tg) then GivenBack(at, e) + Lost(at, e) else 0) - FlightChange(m, e, c)
  {
    var at := m.atts[e.a];
    if c.Has(at.tg) {
      AttBalance(at, e, c);
    }
    AttsBalance(m.atts, e.a, AttAfter(at, e), c);
  }

  lemma AppendBalance(m: Mem, mm: nat, at: Att, c: Scope)
    requires !at.valid
    ensures Sum(PinnedWeights(m.tgs + [Tg(mm, false, 0, 0)])) == Sum(PinnedWeights(m.tgs))
    ensures Sum(LeakedWeights(m.tgs + [Tg(mm, false, 0, 0)])) == Sum(LeakedWeights(m.tgs))
    ensures Sum(AttWeights(m.atts + [at], c)) == Sum(AttWeights(m.atts, c))
  {
    SumAppend(PinnedWeights(m.tgs), 0);
    assert PinnedWeights(m.tgs + [Tg(mm, false, 0, 0)]) == PinnedWeights(m.tgs) + [0];
    SumAppend(LeakedWeights(m.tgs), 0);
    assert LeakedWeights(m.tgs + [Tg(mm, false, 0, 0)]) == LeakedWeights(m.tgs) + [0];
    SumAppend(AttWeights(m.atts, c), 0);
    assert AttWeights(m.atts + [at], c) == AttWeights(m.atts, c) + [0];
  }

  lemma OtherEffectBalance(m: Mem, e: Effect, c: Scope)
    requires !OnAtt(e) && EffectWf(m, e) && InScope(m, c)
    ensures var m' := Apply(m, e);
            && InScope(m', c)
            && Slack(m', c) == Slack(m, c) + FlightChange(m, e, c)
            && m'.nPinned - m'.nUnpinned - Sum(PinnedWeights(m'.tgs)) == m.nPinned - m.nUnpinned - Sum(PinnedWeights(m.tgs))
  {
    match e {
      case OpenTg(mm) => AppendBalance(m, mm, Att(0, 0, 0, 0, false, false, NotYet, false, {}), c);
      case NewAtt(q, g, mm, size) => AppendBalance(m, 0, Att(q, g, mm, size, false, false, NotYet, true, {}), c);
      case MarkTg(g) => TgBalance(m, g, m.tgs[g].(destroying := true));
      case Pin(g) => TgBalance(m, g, m.tgs[g].(nPinned := m.tgs[g].nPinned + 1));
      case Unpin(g) => CountBalance(m, g, 1, 0, c);
      case Lose(g) => CountBalance(m, g, 0, 1, c);
      case _ =>
    }
  }

  // ----- One step -----

  lemma FaultFlight(s: State, t: nat, f: Ctx, st: FaultStage, c: Choice, k: Scope)
    requires CtxOk(s.m, f) && EffectWf(s.m, FaultAct(s, t, f, st, c).e)
    ensures var act := FaultAct(s, t, f, st, c);
            FlightPins(act.pc, k) == FlightPins(Fault(f, st), k) + FlightChange(s.m, act.e, k)
  {
  }

  /** Only faults have pins in flight. */
  lemma NoFlight(s: State, t: nat, pc: Pc, c: Choice, k: Scope)
    requires !pc.Fault? && Sound(s.m, pc, ActOf(s, t, pc, c)) && Located(s.m, pc)
    ensures var act := ActOf(s, t, pc, c); FlightPins(act.pc, k) == 0 && FlightChange(s.m, act.e, k) == 0
  {
    match pc {
      case Recall(g, done, st) => RecallFocus(s, t, g, done, st, c);
      case Remove(q, st) => RemoveFocus(s, t, q, st, c);
      case Detach(a, mm, byList, st) => DetachFocus(s, t, a, mm, byList, st, c);
      case Close(a, mm, st) => CloseFocus(s, t, a, mm, st);
      case _ =>
    }
  }

  lemma FlightUpdate(threads: seq<Pc>, t: nat, pc: Pc, k: Scope)
    requires t < |threads|
    ensures Sum(FlightWeights(threads[t := pc], k))
            == Sum(FlightWeights(threads, k)) - FlightPins(threads[t], k) + FlightPins(pc, k)
  {
    SumUpdate(FlightWeights(threads, k), t, FlightPins(pc, k));
    assert FlightWeights(threads[t := pc], k) == FlightWeights(threads, k)[t := FlightPins(pc, k)];
  }

  /** A group that has just opened the driver has nothing mapped and nothing in flight. */
  lemma NewGroupEmpty(s: State, k: Scope)
    requires Inv(s) && !InScope(s.m, k)
    ensures Sum(AttWeights(s.m.atts, k)) == 0 && Sum(FlightWeights(s.threads, k)) == 0
  {
    assert forall a :: 0 <= a < |s.m.atts| ==> AttWf(s.m, a);
    assert forall t :: 0 <= t < |s.threads| ==> ThreadOk(s.m, s.threads[t]);
    SumNonNegative(AttWeights(s.m.atts, k));
    SumNonNegative(FlightWeights(s.threads, k));
  }

  lemma ActFlight(s: State, t: nat, pc: Pc, c: Choice, k: Scope)
    requires Located(s.m, pc) && Sound(s.m, pc, ActOf(s, t, pc, c))
    ensures var act := ActOf(s, t, pc, c);
            FlightPins(act.pc, k) == FlightPins(pc, k) + FlightChange(s.m, act.e, k)
  {
    if pc.Fault? {
      FaultFlight(s, t, pc.f, pc.fs, c, k);
    } else {
      NoFlight(s, t, pc, c, k);
    }
  }

  lemma EffectBalance(s: State, t: nat, e: Effect, k: Scope)
    requires Inv(s) && t < |s.threads| && EffectWf(s.m, e) && Performs(s.m, s.threads[t], e) && InScope(s.m, k)
    ensures var m, m' := s.m, Apply(s.m, e);
            && InScope(m', k)
            && Slack(m', k) == Slack(m, k) + FlightChange(m, e, k)
            && m'.nPinned - m'.nUnpinned - Sum(PinnedWeights(m'.tgs)) == m.nPinned - m.nUnpinned - Sum(PinnedWeights(m.tgs))
  {
    if OnAtt(e) {
      assert ThreadOk(s.m, s.threads[t]);
      PerformerKnows(s.m, s.threads[t], e);
      assert AttOk(s.m.atts[e.a]);
      AttEffectBalance(s.m, e, k);
    } else {
      OtherEffectBalance(s.m, e, k);
    }
  }

  lemma OnlyOpenWidens(m: Mem, e: Effect, k: Scope)
    requires EffectWf(m, e) && !InScope(m, k) && InScope(Apply(m, e), k)
    ensures e.OpenTg? && Slack(Apply(m, e), k) == 0 - Sum(AttWeights(m.atts, k))
  {
  }

  lemma OpenerIdle(m: Mem, pc: Pc, e: Effect)
    requires EffectWf(m, e) && Performs(m, pc, e) && e.OpenTg?
    ensures pc.Idle?
  {
  }

  lemma NewGroupBalance(s: State, t: nat, c: Choice, k: Scope)
    requires Inv(s) && Balanced(s) && t < |s.threads|
    requires !InScope(s.m, k) && InScope(Next(s, Event(t, c)).m, k)
    ensures var s' := Next(s, Event(t, c)); Slack(s'.m, k) == Sum(FlightWeights(s'.threads, k))
  {
    var pc := s.threads[t];
    var act := ActOf(s, t, pc, c);
    assert ThreadOk(s.m, pc);
    ActSound(s, t, pc, c);
    NewGroupEmpty(s, k);
    OnlyOpenWidens(s.m, act.e, k);
    OpenerIdle(s.m, pc, act.e);
    FlightUpdate(s.threads, t, act.pc, k);
  }

  lemma StepBalance(s: State, t: nat, c: Choice)
    requires Inv(s) && Balanced(s) && t < |s.threads|
    ensures Balanced(Next(s, Event(t, c)))
  {
    var pc := s.threads[t];
    var act := ActOf(s, t, pc, c);
    var s' := Next(s, Event(t, c));
    assert ThreadOk(s.m, pc);
    ActSound(s, t, pc, c);
    EffectBalance(s, t, act.e, All);
    forall k | InScope(s'.m, k)
      ensures Slack(s'.m, k) == Sum(FlightWeights(s'.threads, k))
    {
      if InScope(s.m, k) {
        EffectBalance(s, t, act.e, k);
        ActFlight(s, t, pc, c, k);
        FlightUpdate(s.threads, t, act.pc, k);
      } else {
        NewGroupBalance(s, t, c, k);
      }
    }
  }

  lemma {:induction false} RunBalance(s: State, events: seq<Event>)
    requires Inv(s) && Balanced(s)
    ensures Inv(Run(s, events)) && Balanced(Run(s, events))
    decreases |events|
  {
    if events != [] {
      if events[0].t < |s.threads| {
        StepKeepsInv(s, events[0].t, events[0].c);
        StepBalance(s, events[0].t, events[0].c);
      }
      RunBalance(Next(s, events[0]), events[1..]);
    }
  }

  lemma IdleFlight(threads: seq<Pc>, k: Scope)
    requires forall t :: 0 <= t < |threads| ==> threads[t].Idle?
    ensures Sum(FlightWeights(threads, k)) == 0
  {
    SumNonNegative(FlightWeights(threads, k));
  }

  lemma InitBalance(threads: nat)
    ensures Balanced(Init(threads))
  {
    IdleFlight(Init(threads).threads, All);
  }

  /** Pin conservation, in every state of every run: globally and per group, what was pinned
      and not given back is what page table entries stand for, plus the faults in flight,
      plus the pins lost; and the global books are the sum of the groups' books. */
  lemma PinConservation(threads: nat, events: seq<Event>)
    ensures var s := Run(Init(threads), events);
            && s.m.nPinned - s.m.nUnpinned == Sum(PinnedWeights(s.m.tgs))
            && s.m.nPinned - s.m.nUnpinned
               == Sum(AttWeights(s.m.atts, All)) + Sum(FlightWeights(s.threads, All)) + Sum(LeakedWeights(s.m.tgs))
            && forall g :: 0 <= g < |s.m.tgs| ==>
                s.m.tgs[g].nPinned
                == Sum(AttWeights(s.m.atts, Group(g))) + Sum(FlightWeights(s.threads, Group(g))) + s.m.tgs[g].leaked
  {
    InitInv(threads);
    InitBalance(threads);
    RunBalance(Init(threads), events);
    var s := Run(Init(threads), events);
    assert Slack(s.m, All) == Sum(FlightWeights(s.threads, All));
    forall g | 0 <= g < |s.m.tgs|
      ensures s.m.tgs[g].nPinned
              == Sum(AttWeights(s.m.atts, Group(g))) + Sum(FlightWeights(s.threads, Group(g))) + s.m.tgs[g].leaked
    {
      assert Slack(s.m, Group(g)) == Sum(FlightWeights(s.threads, Group(g)));
    }
  }

  // ----- Between operations -----

  predicate Quiescent(s: State) {
    forall t :: 0 <= t < |s.threads| ==> s.threads[t].Idle?
  }

  /** The pages mapped by live attachments. */
  function LivePages(atts: seq<Att>, c: Scope): (r: seq<int>)
    ensures |r| == |atts|
  {
    seq(|atts|, i requires 0 <= i < |atts| => if !atts[i].destroying && c.Has(atts[i].tg) then |atts[i].pages| else 0)
  }

  lemma QuietWeights(s: State, k: Scope)
    requires Inv(s) && Quiescent(s)
    ensures AttWeights(s.m.atts, k) == LivePages(s.m.atts, k)
    ensures Sum(FlightWeights(s.threads, k)) == 0
  {
    SumNonNegative(FlightWeights(s.threads, k));
    forall a | 0 <= a < |s.m.atts|
      ensures AttWeights(s.m.atts, k)[a] == LivePages(s.m.atts, k)[a]
    {
      assert AttOk(s.m.atts[a]);
      assert !Announced(s.m, DetachJob(a));
    }
  }

  /** Whenever no operation is in progress, pinned less unpinned is the number of pages mapped
      by live attachments plus the pins lost; the same holds of every group. */
  lemma PinsAreLivePages(threads: nat, events: seq<Event>)
    requires Quiescent(Run(Init(threads), events))
    ensures var m := Run(Init(threads), events).m;
            && m.nPinned - m.nUnpinned == Sum(LivePages(m.atts, All)) + Sum(LeakedWeights(m.tgs))
            && forall g :: 0 <= g < |m.tgs| ==>
                m.tgs[g].nPinned == Sum(LivePages(m.atts, Group(g))) + m.tgs[g].leaked
  {
    PinConservation(threads, events);
    InitInv(threads);
    InitBalance(threads);
    RunBalance(Init(threads), events);
    var s := Run(Init(threads), events);
    QuietWeights(s, All);
    forall g | 0 <= g < |s.m.tgs|
      ensures s.m.tgs[g].nPinned == Sum(LivePages(s.m.atts, Group(g))) + s.m.tgs[g].leaked
    {
      QuietWeights(s, Group(g));
    }
  }

  // ----- Lost pins -----

  /** The pins a step loses, less those it gives back too many. */
  function StepLoss(s: State, e: Event): int {
    if e.t < |s.threads| then EffectLoss(s.m, ActOf(s, e.t, s.threads[e.t], e.c).e) else 0
  }

  function EffectLoss(m: Mem, e: Effect): int {
    if e.Lose? then 1 else if OnAtt(e) && e.a < |m.atts| then Lost(m.atts[e.a], e) else 0
  }

  function NetLoss(s: State, events: seq<Event>): int
    decreases |events|
  {
    if events == [] then 0 else StepLoss(s, events[0]) + NetLoss(Next(s, events[0]), events[1..])
  }

  lemma EffectLeaks(m: Mem, e: Effect)
    requires EffectWf(m, e)
    ensures Sum(LeakedWeights(Apply(m, e).tgs)) == Sum(LeakedWeights(m.tgs)) + EffectLoss(m, e)
  {
    var m' := Apply(m, e);
    if e.OpenTg? {
      AppendBalance(m, e.mm, Att(0, 0, 0, 0, false, false, NotYet, false, {}), All);
    } else if OnAtt(e) {
      var g := m.atts[e.a].tg;
      TgBalance(m, g, m'.tgs[g]);
      assert m'.tgs == m.tgs[g := m'.tgs[g]];
    } else if e.Pin? || e.Unpin? || e.Lose? || e.MarkTg? {
      TgBalance(m, e.g, m'.tgs[e.g]);
      assert m'.tgs == m.tgs[e.g := m'.tgs[e.g]];
    }
  }

  lemma {:induction false} RunLeaks(s: State, events: seq<Event>)
    requires Inv(s)
    ensures Sum(LeakedWeights(Run(s, events).m.tgs)) == Sum(LeakedWeights(s.m.tgs)) + NetLoss(s, events)
    decreases |events|
  {
    if events != [] {
      var e := events[0];
      if e.t < |s.threads| {
        var pc := s.threads[e.t];
        assert ThreadOk(s.m, pc);
        ActSound(s, e.t, pc, e.c);
        EffectLeaks(s.m, ActOf(s, e.t, pc, e.c).e);
        StepKeepsInv(s, e.t, e.c);
      }
      RunLeaks(Next(s, e), events[1..]);
    }
  }

  // ----- Which steps lose pins while page tables fit -----

  predicate Unpins(e: Effect) {
    e.ClearAll? || e.ClearSome? || e.UnpinAtt?
  }

  /** A clear or a detach whose range has a mapped page at or past the int page count. */
  predicate Overruns(at: Att, e: Effect) {
    Unpins(e) && exists p :: p in Removed(at, e) && p !in Visited(at, e)
  }

  /** A frame that is zero or not valid, a remap that failed, a mapped attachment that is unmapped
      outside the driver, or a range that overruns the int page count. */
  predicate Loses(s: State, e: Event) {
    e.t < |s.threads| &&
    var act := ActOf(s, e.t, s.threads[e.t], e.c).e;
    || act.Lose?
    || (OnAtt(act) && act.a < |s.m.atts| && (Overruns(s.m.atts[act.a], act) || (act.ZapAtt? && s.m.atts[act.a].pages != {})))
  }

  predicate SomeLoss(s: State, events: seq<Event>)
    decreases |events|
  {
    events != [] && (Loses(s, events[0]) || SomeLoss(Next(s, events[0]), events[1..]))
  }

  /** All page tables met fit the int page count, as those of four levels do. */
  predicate FitRun(events: seq<Event>) {
    forall i :: 0 <= i < |events| ==> events[i].c.tables.Fit?
  }

  lemma LossFits(at: Att, e: Effect)
    requires OnAtt(e) && (Unpins(e) ==> e.tables.Fit?)
    ensures Lost(at, e) >= 0
    ensures Lost(at, e) > 0 <==> Overruns(at, e) || (e.ZapAtt? && at.pages != {})
  {
    if Unpins(e) {
      assert Visited(at, e) <= Removed(at, e);
      SliceSize(Removed(at, e), Visited(at, e));
      if Lost(at, e) > 0 {
        assert Removed(at, e) - Visited(at, e) != {};
      }
    }
  }

  lemma WalkTables(s: State, t: nat, q: nat, w: Walk, c: Choice)
    ensures var n := WalkNext(s, t, q, w, c); n.Walking? && Unpins(n.e) ==> n.e.tables == c.tables
  {
  }

  lemma ActTables(s: State, t: nat, pc: Pc, c: Choice)
    ensures var e := ActOf(s, t, pc, c).e; Unpins(e) ==> e.tables == c.tables
  {
    if pc.Recall? && pc.rs.RClear? {
      WalkTables(s, t, pc.rs.q, pc.rs.w, c);
    } else if pc.Remove? && pc.ms.MClear? {
      WalkTables(s, t, pc.seg, pc.ms.w, c);
    }
  }

  lemma StepLossFits(s: State, e: Event)
    requires e.c.tables.Fit?
    ensures StepLoss(s, e) >= 0 && (StepLoss(s, e) > 0 <==> Loses(s, e))
  {
    if e.t < |s.threads| {
      var act := ActOf(s, e.t, s.threads[e.t], e.c).e;
      ActTables(s, e.t, s.threads[e.t], e.c);
      if OnAtt(act) && act.a < |s.m.atts| {
        LossFits(s.m.atts[act.a], act);
      }
    }
  }

  lemma {:induction false} NetLossFits(s: State, events: seq<Event>)
    requires FitRun(events)
    ensures NetLoss(s, events) >= 0 && (NetLoss(s, events) > 0 <==> SomeLoss(s, events))
    decreases |events|
  {
    if events != [] {
      StepLossFits(s, events[0]);
      NetLossFits(Next(s, events[0]), events[1..]);
    }
  }

  /** The end-of-run check, for all runs: when no operation is in progress and no live attachment has
      a page, pinned equals unpinned exactly if what the steps lost and what they gave back too many
      cancel; while page tables fit, exactly if no step lost a pin. */
  lemma PinnedEqualsUnpinned(threads: nat, events: seq<Event>)
    requires var s := Run(Init(threads), events);
             Quiescent(s) && forall a :: 0 <= a < |s.m.atts| && !s.m.atts[a].destroying ==> s.m.atts[a].pages == {}
    ensures var m := Run(Init(threads), events).m; m.nPinned == m.nUnpinned <==> NetLoss(Init(threads), events) == 0
    ensures var m := Run(Init(threads), events).m;
            FitRun(events) ==> (m.nPinned == m.nUnpinned <==> !SomeLoss(Init(threads), events))
  {
    PinsAreLivePages(threads, events);
    SumNonNegative(LivePages(Run(Init(threads), events).m.atts, All));
    InitInv(threads);
    RunLeaks(Init(threads), events);
    if FitRun(events) {
      NetLossFits(Init(threads), events);
    }
  }

  /** A range of fewer than 2^31 pages never overruns. */
  lemma SmallNeverOverruns(at: Att, e: Effect)
    requires AttOk(at) && at.size < TWO31
    ensures !Overruns(at, e)
  {
  }
}
