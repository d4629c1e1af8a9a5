/**
 Which locks guard which change of the shared state: in every run the thread that makes it holds them,
 so no two threads make changes that exclude each other at one time.
 */
module ProtocolGuards {
  import opened Locks
  import opened Protocol
  import opened ProtocolKnowledge
  import opened ProtocolSafety

  /** The locks that the maker of an effect on an attachment holds. */
  predicate AttGuarded(m: Mem, pc: Pc, e: Effect)
    requires OnAtt(e) && EffectWf(m, e)
  {
    var at := m.atts[e.a];
    && (UnderMutex(e) ==> Holds(pc, AttMutex(e.a)) == Wr)
    // a callout's clear and the mark that keeps it away
    && (e.ClearSome? || (e.MarkAtt? && e.on && pc.Detach?) ==> Holds(pc, InvMutex(e.a)) == Wr)
    // whoever takes the vma away
    && (e.UnpinAtt? || e.UnmapAtt? || e.ZapAtt? ==> Holds(pc, Mmap(at.mm)) == Wr)
    // whoever works on its page table
    && (e.Flag? || e.Install? || e.ClearAll? ==> Holds(pc, Mmap(at.mm)) == Rd)
    && (e.Flag? || e.Install? ==> Holds(pc, Mmap(m.tgs[at.tg].mm)) == Rd)
    && (e.ClearSome? ==> Holds(pc, Mmap(m.tgs[at.tg].mm)) == Wr)
    // the segment: shared by faults and attaches, exclusive for clears
    && (e.Flag? ==> Holds(pc, Sema(at.seg)) == Rd && Holds(pc, GateLock(at.tg)) == Blk)
    && (e.SetVma? || e.FailAtt? ==> Holds(pc, Sema(at.seg)) == Rd)
    && (e.ClearAll? ==> Holds(pc, Sema(at.seg)) == Wr)
  }

  predicate SegGuarded(m: Mem, pc: Pc, e: Effect)
    requires EffectWf(m, e)
  {
    match e
    case FinishSeg(q) => Holds(pc, Sema(q)) == Wr
    case SetRecalling(q, on) =>
      && Holds(pc, GateLock(m.segs[q].tg)) == Rcl && Holds(pc, RecallMutex(m.segs[q].tg)) == Wr
      && (!on ==> Holds(pc, Sema(q)) == Wr)
    case NewAtt(q, _, _, _) => Holds(pc, Sema(q)) == Rd
    case Pin(g) => Holds(pc, GateLock(g)) == Blk && pc.Fault? && Holds(pc, Sema(pc.f.seg)) == Rd
    case _ => true
  }

  lemma FaultGuards(m: Mem, pc: Pc, e: Effect)
    requires OnAtt(e) && (e.Flag? || e.Install?) && EffectWf(m, e) && Performs(m, pc, e) && Located(m, pc)
    ensures AttGuarded(m, pc, e)
  {
  }

  lemma ClearGuards(m: Mem, pc: Pc, e: Effect)
    requires (e.ClearAll? || e.ClearSome?) && EffectWf(m, e) && Performs(m, pc, e) && Located(m, pc)
    ensures AttGuarded(m, pc, e)
  {
  }

  lemma RestGuards(m: Mem, pc: Pc, e: Effect)
    requires OnAtt(e) && !e.Flag? && !e.Install? && !e.ClearAll? && !e.ClearSome?
    requires EffectWf(m, e) && Performs(m, pc, e) && Located(m, pc)
    ensures AttGuarded(m, pc, e)
  {
  }

  lemma SegGuards(m: Mem, pc: Pc, e: Effect)
    requires !OnAtt(e) && EffectWf(m, e) && Performs(m, pc, e) && Located(m, pc)
    ensures SegGuarded(m, pc, e)
  {
  }

  /** In every run, whoever changes the shared state holds the locks that guard the change. */
  lemma StepsAreGuarded(threads: nat, events: seq<Event>, t: nat, c: Choice)
    requires t < |Run(Init(threads), events).threads|
    ensures var s := Run(Init(threads), events);
            var e := ActOf(s, t, s.threads[t], c).e;
            && EffectWf(s.m, e) && SegGuarded(s.m, s.threads[t], e) && (OnAtt(e) ==> AttGuarded(s.m, s.threads[t], e))
  {
    var s := Run(Init(threads), events);
    InitInv(threads);
    RunKeepsInv(Init(threads), events);
    var pc := s.threads[t];
    var e := ActOf(s, t, pc, c).e;
    assert ThreadOk(s.m, pc);
    ActSound(s, t, pc, c);
    if !OnAtt(e) {
      SegGuards(s.m, pc, e);
    } else if e.Flag? || e.Install? {
      FaultGuards(s.m, pc, e);
    } else if e.ClearAll? || e.ClearSome? {
      ClearGuards(s.m, pc, e);
    } else {
      RestGuards(s.m, pc, e);
    }
  }
}
