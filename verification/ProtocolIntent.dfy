/**
 Every step of every run works for the operation that its thread began, on the objects that
 operation named; in particular a page is mapped only by a fault on that page.
 */
module ProtocolIntent {
  import opened Protocol
  import opened ProtocolKnowledge
  import opened ProtocolEffects
  import opened ProtocolSafety

  datatype Purpose = NoPurpose | For(op: Op)

  function Told(s: State, e: Event, t: nat, y: Purpose): Purpose {
    if e.t == t && t < |s.threads| && s.threads[t].Idle? then For(e.c.op) else y
  }

  function PurposeAfter(s: State, events: seq<Event>, t: nat, y: Purpose): Purpose
    decreases |events|
  {
    if events == [] then y else PurposeAfter(Next(s, events[0]), events[1..], t, Told(s, events[0], t, y))
  }

  /** What the operation that thread t is in, or was in last, was begun for. */
  function PurposeOf(threads: nat, events: seq<Event>, t: nat): Purpose {
    PurposeAfter(Init(threads), events, t, NoPurpose)
  }

  predicate Serves(pc: Pc, y: Purpose) {
    match pc
    case Idle => true
    case Fault(f, _) => y == For(DoFault(f.att, f.page))
    case Recall(g, _, _) => y == For(DoRecall(g))
    case Remove(q, _) => y == For(DoRemove(q))
    case Detach(a, _, byList, _) => y == For(DoDetach(a, byList))
    case Close(a, _, _) => y == For(DoClose(a))
    case Inval(g, _, _) => y == For(DoInvalidate(g))
    case Attach(q, _, mm, _) => y == For(DoAttach(q, mm))
  }

  lemma ActServes(s: State, t: nat, pc: Pc, c: Choice, y: Purpose)
    requires Serves(pc, y)
    ensures Serves(ActOf(s, t, pc, c).pc, if pc.Idle? then For(c.op) else y)
  {
  }

  lemma NextServes(s: State, e: Event, t: nat, y: Purpose)
    requires t < |s.threads| && Serves(s.threads[t], y)
    ensures var s' := Next(s, e); t < |s'.threads| && Serves(s'.threads[t], Told(s, e, t, y))
  {
    if e.t == t {
      ActServes(s, t, s.threads[t], e.c, y);
    }
  }

  lemma {:induction false} RunServes(s: State, events: seq<Event>, t: nat, y: Purpose)
    requires t < |s.threads| && Serves(s.threads[t], y)
    ensures var s' := Run(s, events); t < |s'.threads| && Serves(s'.threads[t], PurposeAfter(s, events, t, y))
    decreases |events|
  {
    if events != [] {
      NextServes(s, events[0], t, y);
      RunServes(Next(s, events[0]), events[1..], t, Told(s, events[0], t, y));
    }
  }

  predicate IsFault(y: Purpose) {
    y.For? && y.op.DoFault?
  }

  predicate IsDetach(y: Purpose, a: nat) {
    y.For? && y.op.DoDetach? && y.op.att == a
  }

  /** Effect e is one that the operation is for. */
  predicate Purposeful(m: Mem, e: Effect, y: Purpose)
    requires EffectWf(m, e)
  {
    match e
    case Nothing => true
    case OpenTg(mm) => y == For(DoOpen(mm))
    case MarkTg(g) => y == For(DoTeardown(g))
    case MakeSeg(g, wrapped) => y == For(DoMake(g, wrapped))
    case MarkSeg(q) => y == For(DoRemove(q))
    case FinishSeg(q) => y == For(DoRemove(q))
    case SetRecalling(q, _) => y == For(DoRecall(m.segs[q].tg))
    case Pin(g) => IsFault(y) && AttWf(m, y.op.att) && m.atts[y.op.att].tg == g
    case Unpin(g) => IsFault(y) && AttWf(m, y.op.att) && m.atts[y.op.att].tg == g
    case Lose(g) => IsFault(y) && AttWf(m, y.op.att) && m.atts[y.op.att].tg == g
    case Flag(a) => IsFault(y) && y.op.att == a
    case Install(a, p) => y == For(DoFault(a, p))
    case ClearAll(a, _) => y == For(DoRemove(m.atts[a].seg)) || y == For(DoRecall(m.atts[a].tg))
    case ClearSome(a, _, _, _) => y == For(DoInvalidate(m.atts[a].tg))
    case NewAtt(q, _, mm, _) => y == For(DoAttach(q, mm))
    case SetVma(a) => y == For(DoAttach(m.atts[a].seg, m.atts[a].mm))
    case FailAtt(a) => y == For(DoAttach(m.atts[a].seg, m.atts[a].mm))
    case MarkAtt(a, on) => IsDetach(y, a) || (on && y == For(DoClose(a)))
    case UnpinAtt(a, _) => IsDetach(y, a)
    case UnlinkAtt(a) => IsDetach(y, a) || y == For(DoClose(a))
    case UnmapAtt(a) => IsDetach(y, a)
    case ZapAtt(a) => y == For(DoClose(a))
  }

  lemma StartIsPurposeful(m: Mem, op: Op)
    ensures var e := StartAct(m, op).e; EffectWf(m, e) && Purposeful(m, e, For(op))
  {
  }

  lemma PerformsPurposefully(m: Mem, pc: Pc, e: Effect, y: Purpose)
    requires EffectWf(m, e) && Performs(m, pc, e) && Located(m, pc) && !pc.Idle? && Serves(pc, y)
    ensures Purposeful(m, e, y)
  {
  }

  /** In every run, the effect of every step is one for which the operation of its thread was begun. */
  lemma StepsArePurposeful(threads: nat, events: seq<Event>, e: Event)
    requires e.t < threads
    ensures var s := Run(Init(threads), events);
            && e.t < |s.threads|
            && var act := ActOf(s, e.t, s.threads[e.t], e.c);
               EffectWf(s.m, act.e) && Purposeful(s.m, act.e, PurposeOf(threads, events + [e], e.t))
  {
    var s, t := Run(Init(threads), events), e.t;
    InitInv(threads);
    RunKeepsInv(Init(threads), events);
    RunServes(Init(threads), events, t, NoPurpose);
    PurposeAppend(Init(threads), events, e, t, NoPurpose);
    var pc := s.threads[t];
    if pc.Idle? {
      StartIsPurposeful(s.m, e.c.op);
    } else {
      assert ThreadOk(s.m, pc);
      ActSound(s, t, pc, e.c);
      PerformsPurposefully(s.m, pc, ActOf(s, t, pc, e.c).e, PurposeOf(threads, events, t));
    }
  }

  lemma {:induction false} PurposeAppend(s: State, events: seq<Event>, e: Event, t: nat, y: Purpose)
    ensures PurposeAfter(s, events + [e], t, y) == Told(Run(s, events), e, t, PurposeAfter(s, events, t, y))
    decreases |events|
  {
    if events == [] {
      assert PurposeAfter(s, [e], t, y) == PurposeAfter(Next(s, e), [], t, Told(s, e, t, y));
    } else {
      assert (events + [e])[1..] == events[1..] + [e];
      PurposeAppend(Next(s, events[0]), events[1..], e, t, Told(s, events[0], t, y));
    }
  }

  /** In every run, a page of an attachment comes to be mapped only in a fault on that page of that
      attachment. */
  lemma OnlyItsFaultMaps(threads: nat, events: seq<Event>, e: Event, a: nat, p: nat)
    requires var s := Run(Init(threads), events);
             a < |Next(s, e).m.atts| && p in Next(s, e).m.atts[a].pages && (a < |s.m.atts| ==> p !in s.m.atts[a].pages)
    ensures e.t < threads && PurposeOf(threads, events + [e], e.t) == For(DoFault(a, p))
  {
    var s := Run(Init(threads), events);
    RunThreads(Init(threads), events);
    StepsArePurposeful(threads, events, e);
    ApplyIsApplied(s.m, ActOf(s, e.t, s.threads[e.t], e.c).e);
  }

  lemma {:induction false} RunThreads(s: State, events: seq<Event>)
    ensures |Run(s, events).threads| == |s.threads|
    decreases |events|
  {
    if events != [] {
      RunThreads(Next(s, events[0]), events[1..]);
    }
  }
}
