/**
 How each effect changes the shared state, object by object.
 */
module ProtocolEffects {
  import opened Protocol
  import opened ProtocolKnowledge

  /** Objects are only added, and what they refer to never changes. */
  ghost predicate Extends(m: Mem, m': Mem) {
    && |m.tgs| <= |m'.tgs|
    && |m.segs| <= |m'.segs|
    && |m.atts| <= |m'.atts|
    && (forall g :: 0 <= g < |m.tgs| ==> m'.tgs[g].mm == m.tgs[g].mm)
    && (forall q :: 0 <= q < |m.segs| ==> m'.segs[q].tg == m.segs[q].tg && m'.segs[q].wrapped == m.segs[q].wrapped)
    && (forall a :: 0 <= a < |m.atts| ==>
        m'.atts[a].seg == m.atts[a].seg && m'.atts[a].tg == m.atts[a].tg && m'.atts[a].mm == m.atts[a].mm)
  }

  lemma ApplyExtends(m: Mem, e: Effect)
    requires EffectWf(m, e)
    ensures Extends(m, Apply(m, e))
  {
  }

  lemma LocatedExtends(m: Mem, m': Mem, pc: Pc)
    requires Extends(m, m') && Located(m, pc)
    ensures Located(m', pc)
  {
  }

  function SegAfter(seg: Seg, q: nat, e: Effect): Seg {
    match e
    case MarkSeg(r) => if r == q then seg.(destroying := true) else seg
    case FinishSeg(r) => if r == q then seg.(destroyed := true) else seg
    case SetRecalling(r, on) => if r == q then seg.(recalling := on) else seg
    case _ => seg
  }

  /** Element by element, what effect e makes of attachments and segments. */
  ghost predicate Applied(m: Mem, e: Effect, m': Mem) {
    && Extends(m, m')
    && |m'.atts| == |m.atts| + (if e.NewAtt? then 1 else 0)
    && |m'.segs| == |m.segs| + (if e.MakeSeg? then 1 else 0)
    && (forall a :: 0 <= a < |m.atts| ==> m'.atts[a] == After(m, a, e))
    && (forall q :: 0 <= q < |m.segs| ==> m'.segs[q] == SegAfter(m.segs[q], q, e))
    && (e.NewAtt? ==> m'.atts[|m.atts|] == Att(e.q, e.g, e.mm, e.size, false, false, NotYet, true, {}))
    && (e.MakeSeg? ==> m'.segs[|m.segs|] == Seg(e.g, false, false, false, e.wrapped))
  }

  lemma ApplyIsApplied(m: Mem, e: Effect)
    requires EffectWf(m, e)
    ensures Applied(m, e, Apply(m, e))
  {
    ApplyExtends(m, e);
  }
}
