/**
 An MMU invalidation callout: rounding of the range, the walk over the vmas it meets, and
 the clearing of attached pages over the lists of segments and attachments.
 */
module Invalidate {
  import opened Words
  import opened Ranges
  import opened Sums
  import Unpin

  datatype AttRec = AttRec(range: Attachment, destroying: bool, valid: bool, pages: set<nat>)

  datatype SegRec = SegRec(seg: Segment, destroying: bool, atts: seq<AttRec>)

  datatype Vma = Vma(start: nat, end: nat, xpmem: bool)

  datatype Span = Span(lo: nat, hi: nat)
  {
    predicate Has(x: nat) {
      lo <= x < hi
    }
  }

  // ----- Well-formed lists -----

  /** Mapped pages are attached pages, and a live attachment with one is flagged VALIDPTEs. */
  predicate AttOk(a: AttRec) {
    && Laid(a.range)
    && (forall p :: p in a.pages ==> Attached(a.range, p))
    && (!a.destroying && a.pages != {} ==> a.valid)
  }

  predicate SegOk(s: SegRec) {
    forall j :: 0 <= j < |s.atts| ==> AttOk(s.atts[j])
  }

  predicate ListOk(segs: seq<SegRec>) {
    forall i :: 0 <= i < |segs| ==> SegOk(segs[i])
  }

  predicate PageSpan(s: Span) {
    Aligned(s.lo) && Aligned(s.hi) && s.lo <= s.hi < TWO64
  }

  /** Vmas are nonempty, page aligned, disjoint and in address order. */
  predicate VmasOk(vmas: seq<Vma>) {
    && (forall i :: 0 <= i < |vmas| ==>
         vmas[i].start < vmas[i].end < TWO64 && Aligned(vmas[i].start) && Aligned(vmas[i].end))
    && (forall i, j :: 0 <= i < j < |vmas| ==> vmas[i].end <= vmas[j].start)
  }

  // ----- What a callout should do -----

  predicate Hit(spans: seq<Span>, x: nat) {
    exists k :: 0 <= k < |spans| && spans[k].Has(x)
  }

  /** The overlap test of xpmem_invalidate_PTEs_range(), whose sum wraps around. */
  predicate Reaches(s: Span, seg: Segment) {
    s.lo <= Wrap(seg.vaddr + seg.size) && s.hi >= seg.vaddr
  }

  /** The spans for which the segment's attachments are cleared at all. */
  function Reaching(spans: seq<Span>, seg: Segment): seq<Span> {
    if spans == [] then []
    else Reaching(spans[..|spans| - 1], seg) + (if Reaches(spans[|spans| - 1], seg) then [spans[|spans| - 1]] else [])
  }

  /** A live attachment whose source range does not wrap around loses exactly the pages whose source
      lies in one of the spans. */
  ghost predicate AttSwept(a: AttRec, b: AttRec, spans: seq<Span>) {
    && b.range == a.range && b.destroying == a.destroying
    && (forall p :: p in b.pages ==> p in a.pages)
    && (forall p :: p in a.pages && Attached(a.range, p) ==>
         (p !in b.pages <==> !a.destroying && Unwrapped(a.range) && Hit(spans, Source(a.range, p))))
  }

  ghost predicate AttsSwept(x: seq<AttRec>, y: seq<AttRec>, spans: seq<Span>) {
    |x| == |y| && forall j :: 0 <= j < |x| ==> AttSwept(x[j], y[j], spans)
  }

  /** Segments being destroyed are left alone. */
  ghost predicate SegSwept(x: SegRec, y: SegRec, spans: seq<Span>) {
    if x.destroying then y == x
    else y.seg == x.seg && !y.destroying && AttsSwept(x.atts, y.atts, Reaching(spans, x.seg))
  }

  ghost predicate ListSwept(x: seq<SegRec>, y: seq<SegRec>, spans: seq<Span>) {
    |x| == |y| && forall i :: 0 <= i < |x| ==> SegSwept(x[i], y[i], spans)
  }

  lemma HitConcat(r: seq<Span>, s: seq<Span>, x: nat)
    ensures Hit(r + s, x) <==> Hit(r, x) || Hit(s, x)
  {
    if Hit(r, x) {
      var k :| 0 <= k < |r| && r[k].Has(x);
      assert (r + s)[k].Has(x);
    }
    if Hit(s, x) {
      var k :| 0 <= k < |s| && s[k].Has(x);
      assert (r + s)[|r| + k].Has(x);
    }
  }

  lemma AttSweptTwice(a: AttRec, b: AttRec, c: AttRec, r: seq<Span>, s: seq<Span>)
    requires AttSwept(a, b, r) && AttSwept(b, c, s)
    ensures AttSwept(a, c, r + s)
  {
    forall p | p in a.pages && Attached(a.range, p)
      ensures p !in c.pages <==> !a.destroying && Unwrapped(a.range) && Hit(r + s, Source(a.range, p))
    {
      HitConcat(r, s, Source(a.range, p));
    }
  }

  lemma {:induction false} ReachingConcat(r: seq<Span>, s: seq<Span>, seg: Segment)
    ensures Reaching(r + s, seg) == Reaching(r, seg) + Reaching(s, seg)
  {
    if s == [] {
      assert r + s == r;
    } else {
      ReachingConcat(r, s[..|s| - 1], seg);
      assert (r + s)[..|r + s| - 1] == r + s[..|s| - 1];
    }
  }

  lemma ListSweptTwice(x: seq<SegRec>, y: seq<SegRec>, z: seq<SegRec>, r: seq<Span>, s: seq<Span>)
    requires ListSwept(x, y, r) && ListSwept(y, z, s)
    ensures ListSwept(x, z, r + s)
  {
    forall i | 0 <= i < |x|
      ensures SegSwept(x[i], z[i], r + s)
    {
      assert SegSwept(x[i], y[i], r) && SegSwept(y[i], z[i], s);
      if !x[i].destroying {
        ReachingConcat(r, s, x[i].seg);
        forall j | 0 <= j < |x[i].atts|
          ensures AttSwept(x[i].atts[j], z[i].atts[j], Reaching(r, x[i].seg) + Reaching(s, x[i].seg))
        {
          AttSweptTwice(x[i].atts[j], y[i].atts[j], z[i].atts[j], Reaching(r, x[i].seg), Reaching(s, x[i].seg));
        }
      }
    }
  }

  // ----- Page counts -----

  function AttWeights(atts: seq<AttRec>): (r: seq<int>)
    ensures |r| == |atts|
  {
    seq(|atts|, j requires 0 <= j < |atts| => |atts[j].pages|)
  }

  function SegWeights(segs: seq<SegRec>): (r: seq<int>)
    ensures |r| == |segs|
  {
    seq(|segs|, i requires 0 <= i < |segs| => Sum(AttWeights(segs[i].atts)))
  }

  /** All pages mapped by the attachments of the list. */
  function Mapped(segs: seq<SegRec>): int {
    Sum(SegWeights(segs))
  }

  lemma AttWeightsUpdate(atts: seq<AttRec>, j: nat, a: AttRec)
    requires j < |atts|
    ensures Sum(AttWeights(atts[j := a])) == Sum(AttWeights(atts)) - |atts[j].pages| + |a.pages|
  {
    SumUpdate(AttWeights(atts), j, |a.pages|);
    assert AttWeights(atts[j := a]) == AttWeights(atts)[j := |a.pages|];
  }

  lemma SegWeightsUpdate(segs: seq<SegRec>, i: nat, s: SegRec)
    requires i < |segs|
    ensures Mapped(segs[i := s]) == Mapped(segs) - Sum(AttWeights(segs[i].atts)) + Sum(AttWeights(s.atts))
  {
    SumUpdate(SegWeights(segs), i, Sum(AttWeights(s.atts)));
    assert SegWeights(segs[i := s]) == SegWeights(segs)[i := Sum(AttWeights(s.atts))];
  }

  // ----- What the int page count misses -----

  /** An address past those that xpmem_unpin_pages() visits in the range cleared for span s. */
  predicate Overlooked(att: Attachment, s: Span, p: nat) {
    var c := ClearRange(att, s.lo, s.hi);
    c.Range? && c.at + Window(c.len / PAGE) * PAGE <= p
  }

  /** The pages that go without being counted. */
  function Missed(a: AttRec, s: Span): set<nat> {
    var c := ClearRange(a.range, s.lo, s.hi);
    if a.destroying || c.Nothing? then {} else set p | p in a.pages && Overlooked(a.range, s, p) && p < c.at + c.len
  }

  function MissedWeights(atts: seq<AttRec>, s: Span): (r: seq<int>)
    ensures |r| == |atts|
  {
    seq(|atts|, j requires 0 <= j < |atts| => |Missed(atts[j], s)|)
  }

  function SegMissed(x: SegRec, s: Span): int {
    if x.destroying || !Reaches(s, x.seg) then 0 else Sum(MissedWeights(x.atts, s))
  }

  function SegMissedWeights(segs: seq<SegRec>, s: Span): (r: seq<int>)
    ensures |r| == |segs|
  {
    seq(|segs|, i requires 0 <= i < |segs| => SegMissed(segs[i], s))
  }

  function ListMissed(segs: seq<SegRec>, s: Span): int {
    Sum(SegMissedWeights(segs, s))
  }

  /** Over all spans, each for the lists as they are before the callout. */
  function AllMissed(segs: seq<SegRec>, spans: seq<Span>): int {
    if spans == [] then 0 else AllMissed(segs, spans[..|spans| - 1]) + ListMissed(segs, spans[|spans| - 1])
  }

  /** A callout for span s comes to attachment j of segment i. */
  predicate Cleared(segs: seq<SegRec>, s: Span, i: int, j: int) {
    0 <= i < |segs| && !segs[i].destroying && Reaches(s, segs[i].seg) && 0 <= j < |segs[i].atts|
  }

  lemma ListMissedIff(segs: seq<SegRec>, s: Span)
    ensures ListMissed(segs, s) >= 0
    ensures ListMissed(segs, s) == 0 <==>
            forall i, j :: Cleared(segs, s, i, j) ==> Missed(segs[i].atts[j], s) == {}
  {
    forall i | 0 <= i < |segs|
      ensures SegMissedWeights(segs, s)[i] >= 0
      ensures SegMissedWeights(segs, s)[i] == 0 <==>
              (segs[i].destroying || !Reaches(s, segs[i].seg)
               || forall j :: 0 <= j < |segs[i].atts| ==> Missed(segs[i].atts[j], s) == {})
    {
      var w := MissedWeights(segs[i].atts, s);
      SumNonNegative(w);
      assert forall j :: 0 <= j < |w| ==> (w[j] == 0 <==> Missed(segs[i].atts[j], s) == {});
    }
    SumNonNegative(SegMissedWeights(segs, s));
  }

  /** The counters move by exactly the pages that go if and only if no attachment has a page at or
      past the int page count of the range cleared in it. */
  lemma {:induction false} AllMissedIff(segs: seq<SegRec>, spans: seq<Span>)
    ensures AllMissed(segs, spans) >= 0
    ensures AllMissed(segs, spans) == 0 <==>
            forall k, i, j :: 0 <= k < |spans| && Cleared(segs, spans[k], i, j) ==> Missed(segs[i].atts[j], spans[k]) == {}
  {
    if spans != [] {
      var n := |spans| - 1;
      AllMissedIff(segs, spans[..n]);
      ListMissedIff(segs, spans[n]);
    }
  }

  /** Attachments of fewer than 2^31 pages are always counted. */
  lemma SmallMissesNothing(a: AttRec, s: Span)
    requires AttOk(a) && PageSpan(s) && a.range.atSize / PAGE < TWO31
    ensures Missed(a, s) == {}
  {
    if Unwrapped(a.range) {
      ClearRangePlain(a.range, s.lo, s.hi);
      ClearAligned(a.range, s.lo, s.hi);
    } else {
      WrappedNeverCleared(a.range, s.lo, s.hi);
    }
  }

  // ----- One attachment -----

  /** xpmem_clear_PTEs_of_att(att, start, end, 1) */
  method ClearPtesOfAtt(a: AttRec, s: Span) returns (b: AttRec, unpinned: nat)
    requires AttOk(a) && PageSpan(s)
    ensures AttOk(b) && AttSwept(a, b, [s]) && (a.destroying ==> b == a)
    ensures unpinned == |set p | p in a.pages && p !in b.pages && !Overlooked(a.range, s, p)|
    ensures |b.pages| + unpinned + |Missed(a, s)| == |a.pages|
  {
    b, unpinned := a, 0;
    var c := ClearRange(a.range, s.lo, s.hi);
    if a.destroying || !a.valid || c.Nothing? {
      ClearNothing(a, s);
      return;
    }
    var gone := set p | p in a.pages && c.at <= p < c.at + c.len;
    var released := set p | p in gone && p < c.at + Window(c.len / PAGE) * PAGE;
    unpinned := |released|;
    b := a.(pages := a.pages - gone, valid := !c.all);
    ClearSweeps(a, s, b);
    ClearCounts(a, s, b, released);
  }

  lemma ClearNothing(a: AttRec, s: Span)
    requires AttOk(a) && PageSpan(s)
    requires a.destroying || !a.valid || ClearRange(a.range, s.lo, s.hi).Nothing?
    ensures AttSwept(a, a, [s]) && Missed(a, s) == {}
    ensures (set p | p in a.pages && p !in a.pages && !Overlooked(a.range, s, p)) == {}
  {
    SingleHit(s);
    if Unwrapped(a.range) {
      forall p | p in a.pages && Attached(a.range, p) && !a.destroying ensures !s.Has(Source(a.range, p)) {
        ClearTranslates(a.range, s.lo, s.hi, p);
      }
    }
  }

  /** The pages in the range cleared are those whose source lies in the span. */
  lemma ClearSweeps(a: AttRec, s: Span, b: AttRec)
    requires AttOk(a) && PageSpan(s) && !a.destroying && a.valid
    requires var c := ClearRange(a.range, s.lo, s.hi);
             c.Range? && b == a.(pages := a.pages - (set p | p in a.pages && c.at <= p < c.at + c.len), valid := !c.all)
    ensures AttOk(b) && AttSwept(a, b, [s])
  {
    SingleHit(s);
    if !Unwrapped(a.range) {
      WrappedNeverCleared(a.range, s.lo, s.hi);
      assert false;
    }
    forall p | p in a.pages
      ensures p in b.pages <==> !s.Has(Source(a.range, p))
    {
      ClearTranslates(a.range, s.lo, s.hi, p);
    }
    FlagGoesIffCovered(a.range, s.lo, s.hi);
    if !b.valid {
      AllGone(a, s, b.pages);
    }
  }

  lemma ClearCounts(a: AttRec, s: Span, b: AttRec, released: set<nat>)
    requires !a.destroying
    requires var c := ClearRange(a.range, s.lo, s.hi);
             && c.Range?
             && b.pages == a.pages - (set p | p in a.pages && c.at <= p < c.at + c.len)
             && released == set p | p in a.pages && c.at <= p < c.at + c.len && p < c.at + Window(c.len / PAGE) * PAGE
    ensures released == set p | p in a.pages && p !in b.pages && !Overlooked(a.range, s, p)
    ensures |b.pages| + |released| + |Missed(a, s)| == |a.pages|
  {
    var c := ClearRange(a.range, s.lo, s.hi);
    var gone := set p | p in a.pages && c.at <= p < c.at + c.len;
    GoneSplits(a.pages, gone, released, Missed(a, s));
  }

  lemma GoneSplits(pages: set<nat>, gone: set<nat>, released: set<nat>, missed: set<nat>)
    requires gone <= pages && gone == released + missed && released !! missed
    ensures |pages - gone| + |released| + |missed| == |pages|
  {
    assert pages == (pages - gone) + gone;
  }

  /** One page in an attachment of 2^31 pages: a callout over all of it removes the page, and the
      int page count, being negative, makes it unpin none. */
  method WideClear() returns (b: AttRec, unpinned: nat)
    ensures b.pages == {} && unpinned == 0
  {
    var size := TWO31 * PAGE;
    var a := AttRec(Attachment(0, PAGE, size), false, true, {PAGE});
    assert ClearRange(a.range, 0, size) == Range(PAGE, size, true);
    SingleHit(Span(0, size));
    b, unpinned := ClearPtesOfAtt(a, Span(0, size));
    assert Missed(a, Span(0, size)) == {PAGE};
    assert Attached(a.range, PAGE) && Source(a.range, PAGE) == 0;
    assert PAGE !in b.pages;
  }

  /** The addresses of the pages that xpmem_unpin_pages() releases. */
  function Addresses(released: seq<(nat, nat)>): set<nat> {
    set r | r in released :: r.0
  }

  lemma {:induction false} AddressCount(released: seq<(nat, nat)>)
    requires forall i, j :: 0 <= i < j < |released| ==> released[i].0 < released[j].0
    ensures |Addresses(released)| == |released|
  {
    if released != [] {
      var last := |released| - 1;
      AddressCount(released[..last]);
      assert released == released[..last] + [released[last]];
      assert Addresses(released) == Addresses(released[..last]) + {released[last].0};
      assert released[last].0 !in Addresses(released[..last]);
    }
  }

  /** The pages counted are those the hole-skipping loop releases for the range, and as many: `pages`
      are the pages present in the range that is cleared. */
  lemma UnpinReleasesCounted(mm: Unpin.Mm, pages: set<nat>, at: nat, len: nat)
    requires mm.Valid() && Aligned(at) && Aligned(len)
    requires forall v :: at <= v < at + len ==> (v in pages <==> Aligned(v) && Unpin.HasPage(mm, v))
    ensures var released := Unpin.Scan(mm, at / PAGE * PAGE, Unpin.PageCount(at, len));
            var counted := set p | p in pages && at <= p < at + Window(len / PAGE) * PAGE;
            Addresses(released) == counted && |released| == |counted|
  {
    var n := Window(len / PAGE);
    AlignedCount(at, len);
    var released := Unpin.Scan(mm, at, n);
    var counted := set p | p in pages && at <= p < at + n * PAGE;
    Unpin.ScanOnce(mm, at, n);
    AddressCount(released);
    assert n * PAGE <= len;
    forall v ensures v in Addresses(released) <==> v in counted {
      ScanHas(mm, at, n, v);
    }
  }

  lemma AlignedCount(at: nat, len: nat)
    requires Aligned(at) && Aligned(len)
    ensures at / PAGE * PAGE == at && Unpin.PageCount(at, len) == Window(len / PAGE)
  {
  }

  lemma ScanHas(mm: Unpin.Mm, at: nat, n: nat, v: nat)
    requires mm.Valid() && Aligned(at)
    ensures v in Addresses(Unpin.Scan(mm, at, n)) <==> at <= v < at + n * PAGE && Aligned(v) && Unpin.HasPage(mm, v)
  {
    var released := Unpin.Scan(mm, at, n);
    InRangePage(at, n, v);
    if pfn: nat :| Unpin.Present(mm, v, pfn) {
      Unpin.ScanExact(mm, at, n, v, pfn);
      assert (v, pfn) in released ==> v in Addresses(released);
    }
    if r :| r in released && r.0 == v {
      Unpin.ScanExact(mm, at, n, v, r.1);
    }
  }

  lemma InRangePage(at: nat, n: nat, v: nat)
    requires Aligned(at)
    ensures (exists i :: 0 <= i < n && v == at + i * PAGE) <==> at <= v < at + n * PAGE && Aligned(v)
  {
    if at <= v < at + n * PAGE && Aligned(v) {
      var i := (v - at) / PAGE;
      assert v == at + i * PAGE;
    }
  }

  lemma SingleHit(s: Span)
    ensures forall x :: Hit([s], x) <==> s.Has(x)
  {
    forall x ensures Hit([s], x) <==> s.Has(x) {
      if s.Has(x) {
        assert [s][0].Has(x);
      }
    }
  }

  /** A range that covers the whole attachment leaves no page, so the flag may go. */
  lemma AllGone(a: AttRec, s: Span, left: set<nat>)
    requires AttOk(a) && Unwrapped(a.range) && s.lo <= a.range.vaddr && a.range.vaddr + a.range.atSize <= s.hi
    requires forall p :: p in left ==> p in a.pages && !s.Has(Source(a.range, p))
    ensures left == {}
  {
    forall p | p in left
      ensures false
    {
      FaultTranslates(Segment(a.range.vaddr, a.range.atSize), a.range, p, p);
    }
  }

  /** xpmem_clear_PTEs_range(seg, start, end, 1), over the permits' attachments in list order;
      attachments that are not flagged are skipped. */
  method ClearPtesRange(s0: SegRec, s: Span) returns (s1: SegRec, unpinned: nat)
    requires SegOk(s0) && PageSpan(s) && !s0.destroying && Reaches(s, s0.seg)
    ensures SegOk(s1) && SegSwept(s0, s1, [s])
    ensures Sum(AttWeights(s1.atts)) + unpinned + SegMissed(s0, s) == Sum(AttWeights(s0.atts))
  {
    s1, unpinned := s0, 0;
    ghost var missed := MissedWeights(s0.atts, s);
    for j := 0 to |s0.atts|
      invariant s1.seg == s0.seg && !s1.destroying && |s1.atts| == |s0.atts| && SegOk(s1)
      invariant forall k :: 0 <= k < j ==> AttSwept(s0.atts[k], s1.atts[k], [s])
      invariant forall k :: j <= k < |s0.atts| ==> s1.atts[k] == s0.atts[k]
      invariant Sum(AttWeights(s1.atts)) + unpinned + Sum(missed[..j]) == Sum(AttWeights(s0.atts))
    {
      SumTake(missed, j);
      if s1.atts[j].valid {
        var b, n := ClearPtesOfAtt(s1.atts[j], s);
        AttWeightsUpdate(s1.atts, j, b);
        s1 := s1.(atts := s1.atts[j := b]);
        unpinned := unpinned + n;
      } else {
        UnflaggedMissesNothing(s1.atts[j], s);
      }
    }
    assert missed[..|s0.atts|] == missed;
    assert Reaching([s], s0.seg) == [s];
  }

  lemma UnflaggedMissesNothing(a: AttRec, s: Span)
    requires AttOk(a) && !a.valid
    ensures Missed(a, s) == {}
  {
  }

  /** A segment that does not wrap around and that the span does not reach has no page in it. */
  lemma Unreached(seg: Segment, att: Attachment, s: Span, p: nat)
    requires seg.vaddr + seg.size < TWO64 && Established(seg, att) && Attached(att, p) && s.Has(Source(att, p))
    ensures Reaches(s, seg)
  {
    FaultTranslates(seg, att, p, p);
  }

  lemma {:induction false} ReachingHits(spans: seq<Span>, seg: Segment, att: Attachment, p: nat)
    requires seg.vaddr + seg.size < TWO64 && Established(seg, att) && Attached(att, p)
    ensures Hit(Reaching(spans, seg), Source(att, p)) <==> Hit(spans, Source(att, p))
  {
    if spans != [] {
      var n, x := |spans| - 1, Source(att, p);
      var last := if Reaches(spans[n], seg) then [spans[n]] else [];
      ReachingHits(spans[..n], seg, att, p);
      assert spans == spans[..n] + [spans[n]];
      HitConcat(spans[..n], [spans[n]], x);
      HitConcat(Reaching(spans[..n], seg), last, x);
      SingleHit(spans[n]);
      if spans[n].Has(x) {
        Unreached(seg, att, spans[n], p);
      }
    }
  }

  /** Where the segment does not wrap around, a live attachment inside it loses exactly the pages whose
      source lies in one of the spans. */
  lemma SweptExactly(x: seq<SegRec>, y: seq<SegRec>, spans: seq<Span>, i: nat, j: nat, p: nat)
    requires ListSwept(x, y, spans) && i < |x| && !x[i].destroying && j < |x[i].atts| && p in x[i].atts[j].pages
    requires var seg, att := x[i].seg, x[i].atts[j].range;
             seg.vaddr + seg.size < TWO64 && Established(seg, att) && Attached(att, p)
    ensures |y| == |x| && |y[i].atts| == |x[i].atts|
    ensures p !in y[i].atts[j].pages <==> !x[i].atts[j].destroying && Hit(spans, Source(x[i].atts[j].range, p))
  {
    assert SegSwept(x[i], y[i], spans);
    ReachingHits(spans, x[i].seg, x[i].atts[j].range, p);
  }

  lemma NothingReaches(s0: SegRec, s: Span)
    requires !Reaches(s, s0.seg)
    ensures SegSwept(s0, s0, [s]) && SegMissed(s0, s) == 0
  {
    assert Reaching([s], s0.seg) == [];
  }

  // ----- The callout -----

  /** start rounded down and end rounded up to page boundaries. */
  function Rounded(start: nat, end: nat): Span {
    Span(start - start % PAGE, if end % PAGE != 0 then end + (PAGE - end % PAGE) else end)
  }

  /** The index of the vma that find_vma() returns: the first that ends above start. */
  method FindVma(vmas: seq<Vma>, start: nat) returns (i: nat)
    requires VmasOk(vmas)
    ensures i <= |vmas| && (i < |vmas| ==> vmas[i].end > start)
    ensures forall k :: 0 <= k < i ==> vmas[k].end <= start
  {
    i := 0;
    while i < |vmas| && vmas[i].end <= start
      invariant i <= |vmas|
      invariant forall k :: 0 <= k < i ==> vmas[k].end <= start
    {
      i := i + 1;
    }
  }

  predicate Meets(v: Vma, s: Span) {
    v.start < s.hi && s.lo < v.end
  }

  /** The addresses of s in a vma that XPMEM did not attach, or all of s if no vma meets it. */
  predicate Selected(vmas: seq<Vma>, s: Span, x: nat) {
    && s.Has(x)
    && ((forall i :: 0 <= i < |vmas| ==> !Meets(vmas[i], s))
        || exists i :: 0 <= i < |vmas| && !vmas[i].xpmem && vmas[i].start <= x < vmas[i].end)
  }

  // ----- The addresses to be invalidated -----

  /** Address x is on a page that the range from start to end touches; an empty range touches the
      page in whose middle it lies. */
  ghost predicate Touched(start: nat, end: nat, x: nat) {
    || (exists y :: start <= y < end && y / PAGE == x / PAGE)
    || (start == end && !Aligned(start) && start / PAGE == x / PAGE)
  }

  predicate InVma(v: Vma, x: nat) {
    v.start <= x < v.end
  }

  /** Address x is to be invalidated: it is on a page touched, and in a vma that XPMEM did not attach,
      or no vma has an address on a page touched. */
  ghost predicate Doomed(vmas: seq<Vma>, start: nat, end: nat, x: nat) {
    && Touched(start, end, x)
    && ((exists i :: 0 <= i < |vmas| && !vmas[i].xpmem && InVma(vmas[i], x))
        || (forall i, y :: 0 <= i < |vmas| && Touched(start, end, y) ==> !InVma(vmas[i], y)))
  }

  /** The rounded span is the pages touched. */
  lemma RoundedIsTouched(start: nat, end: nat, x: nat)
    requires start <= end
    ensures Rounded(start, end).Has(x) <==> Touched(start, end, x)
  {
    var s := Rounded(start, end);
    if s.Has(x) {
      if start == end {
        assert start / PAGE == x / PAGE;
      } else {
        var y := if x < start then start else if x < end then x else end - 1;
        assert y / PAGE == x / PAGE;
      }
    }
    if y :| start <= y < end && y / PAGE == x / PAGE {
      assert s.lo <= y / PAGE * PAGE && y / PAGE * PAGE + PAGE <= s.hi;
    }
  }

  /** A vma meets the rounded span exactly if it has an address on a page touched. */
  lemma MeetsIffTouched(v: Vma, start: nat, end: nat)
    requires start <= end && v.start < v.end
    ensures Meets(v, Rounded(start, end)) && Rounded(start, end).lo < Rounded(start, end).hi <==>
            exists y :: Touched(start, end, y) && InVma(v, y)
  {
    var s := Rounded(start, end);
    if Meets(v, s) && s.lo < s.hi {
      var y := Max(v.start, s.lo);
      RoundedIsTouched(start, end, y);
      assert InVma(v, y);
    }
    if y :| Touched(start, end, y) && InVma(v, y) {
      RoundedIsTouched(start, end, y);
    }
  }

  lemma DoomedIffSelected(vmas: seq<Vma>, start: nat, end: nat)
    requires VmasOk(vmas) && start <= end
    ensures forall x: nat :: Doomed(vmas, start, end, x) <==> Selected(vmas, Rounded(start, end), x)
  {
    var s := Rounded(start, end);
    forall x: nat ensures Doomed(vmas, start, end, x) <==> Selected(vmas, s, x) {
      RoundedIsTouched(start, end, x);
      if s.Has(x) {
        forall i | 0 <= i < |vmas|
          ensures Meets(vmas[i], s) <==> exists y :: Touched(start, end, y) && InVma(vmas[i], y)
        {
          MeetsIffTouched(vmas[i], start, end);
        }
      }
      if i :| 0 <= i < |vmas| && !vmas[i].xpmem && vmas[i].start <= x < vmas[i].end {
        assert InVma(vmas[i], x);
      }
    }
  }

  lemma AttMissedStays(a: AttRec, b: AttRec, done: seq<Span>, s: Span)
    requires AttOk(a) && AttOk(b) && AttSwept(a, b, done) && PageSpan(s)
    requires forall x: nat :: s.Has(x) ==> !Hit(done, x)
    ensures Missed(b, s) == Missed(a, s)
  {
    if !Unwrapped(a.range) {
      WrappedNeverCleared(a.range, s.lo, s.hi);
      return;
    }
    forall p | p in a.pages ensures p in Missed(a, s) <==> p in Missed(b, s) {
      ClearTranslates(a.range, s.lo, s.hi, p);
    }
  }

  lemma {:induction false} ReachingFewer(spans: seq<Span>, seg: Segment, x: nat)
    requires Hit(Reaching(spans, seg), x)
    ensures Hit(spans, x)
  {
    if spans != [] {
      var n := |spans| - 1;
      var last := if Reaches(spans[n], seg) then [spans[n]] else [];
      HitConcat(Reaching(spans[..n], seg), last, x);
      if Hit(Reaching(spans[..n], seg), x) {
        ReachingFewer(spans[..n], seg, x);
        var k :| 0 <= k < n && spans[..n][k].Has(x);
        assert spans[k].Has(x);
      } else {
        assert spans[n].Has(x);
      }
    }
  }

  lemma SegMissedStays(x: SegRec, y: SegRec, done: seq<Span>, s: Span)
    requires SegOk(x) && SegOk(y) && SegSwept(x, y, done) && PageSpan(s)
    requires forall v: nat :: s.Has(v) ==> !Hit(done, v)
    ensures SegMissed(y, s) == SegMissed(x, s)
  {
    if !x.destroying {
      forall v: nat | s.Has(v) ensures !Hit(Reaching(done, x.seg), v) {
        if Hit(Reaching(done, x.seg), v) {
          ReachingFewer(done, x.seg, v);
        }
      }
      forall j | 0 <= j < |x.atts| ensures MissedWeights(y.atts, s)[j] == MissedWeights(x.atts, s)[j] {
        AttMissedStays(x.atts[j], y.atts[j], Reaching(done, x.seg), s);
      }
      assert MissedWeights(y.atts, s) == MissedWeights(x.atts, s);
    }
  }

  /** Sweeping other spans does not change what a span misses. */
  lemma MissedStays(before: seq<SegRec>, segs: seq<SegRec>, done: seq<Span>, s: Span)
    requires ListOk(before) && ListOk(segs) && ListSwept(before, segs, done) && PageSpan(s)
    requires forall x: nat :: s.Has(x) ==> !Hit(done, x)
    ensures ListMissed(segs, s) == ListMissed(before, s)
  {
    forall i | 0 <= i < |segs| ensures SegMissedWeights(segs, s)[i] == SegMissedWeights(before, s)[i] {
      SegMissedStays(before[i], segs[i], done, s);
    }
    assert SegMissedWeights(segs, s) == SegMissedWeights(before, s);
  }

  lemma OneMoreHit(done: seq<Span>, s: Span)
    ensures forall x: nat :: Hit(done + [s], x) <==> Hit(done, x) || s.Has(x)
  {
    SingleHit(s);
    forall x: nat ensures Hit(done + [s], x) <==> Hit(done, x) || s.Has(x) {
      HitConcat(done, [s], x);
    }
  }

  class Notifier {
    var segs: seq<SegRec>  // the segments of the group, in list order
    var tgPinned: int
    var partUnpinned: int

    /** The counters moved by the pages that went, less those missed. */
    twostate predicate Counted(missed: int)
      reads this
    {
      && tgPinned - old(tgPinned) == Mapped(segs) - old(Mapped(segs)) + missed
      && partUnpinned - old(partUnpinned) == old(Mapped(segs)) - Mapped(segs) - missed
    }

    constructor (segs: seq<SegRec>)
      ensures this.segs == segs && tgPinned == 0 && partUnpinned == 0
    {
      this.segs, tgPinned, partUnpinned := segs, 0, 0;
    }

    /** xpmem_invalidate_PTEs_range() */
    method InvalidatePtesRange(s: Span)
      requires ListOk(segs) && PageSpan(s)
      modifies this
      ensures ListOk(segs) && ListSwept(old(segs), segs, [s])
      ensures Counted(ListMissed(old(segs), s))
    {
      var i := 0;
      ghost var missed := SegMissedWeights(segs, s);
      while i < |segs|
        invariant i <= |segs| == |old(segs)| && ListOk(segs)
        invariant forall k :: 0 <= k < i ==> SegSwept(old(segs)[k], segs[k], [s])
        invariant forall k :: i <= k < |segs| ==> segs[k] == old(segs)[k]
        invariant Counted(Sum(missed[..i]))
        decreases |segs| - i
      {
        var seg := segs[i];
        SumTake(missed, i);
        if !seg.destroying {
          if Reaches(s, seg.seg) {
            var seg', n := ClearPtesRange(seg, s);
            SegWeightsUpdate(segs, i, seg');
            segs := segs[i := seg'];
            tgPinned := tgPinned - n;
            partUnpinned := partUnpinned + n;
          } else {
            NothingReaches(seg, s);
          }
        }
        i := i + 1;
      }
      assert missed[..|segs|] == missed;
    }

    /** One vma of the loop in xpmem_invalidate_range(): nothing for a vma attached by XPMEM, else
        the part of the range inside the vma. */
    method InvalidateVma(v: Vma, s: Span, ghost before: seq<SegRec>, ghost done: seq<Span>) returns (ghost spans: seq<Span>)
      requires ListOk(segs) && PageSpan(s) && v.start < v.end < TWO64 && Aligned(v.start) && Aligned(v.end)
      requires ListOk(before) && ListSwept(before, segs, done)
      requires forall x: nat :: v.start <= x < v.end ==> !Hit(done, x)
      modifies this
      ensures ListOk(segs) && ListSwept(before, segs, spans)
      ensures Counted(AllMissed(before, spans) - AllMissed(before, done))
      ensures forall x: nat :: Hit(spans, x) <==> Hit(done, x) || (!v.xpmem && s.Has(x) && v.start <= x < v.end)
    {
      spans := done;
      if v.xpmem {
        return;
      }
      var lo := Max(v.start, s.lo);
      if lo >= v.end {
        return;
      }
      var hi := Min(v.end, s.hi);
      if hi <= v.start {
        return;
      }
      ghost var mid := segs;
      MissedStays(before, segs, done, Span(lo, hi));
      InvalidatePtesRange(Span(lo, hi));
      ListSweptTwice(before, mid, segs, done, [Span(lo, hi)]);
      OneMoreHit(done, Span(lo, hi));
      spans := done + [Span(lo, hi)];
      assert spans[..|spans| - 1] == done;
    }

    /** xpmem_invalidate_range(): `own` says that the callout comes from the source process. */
    method InvalidateRange(start: nat, end: nat, vmas: seq<Vma>, own: bool) returns (ghost spans: seq<Span>)
      requires ListOk(segs) && VmasOk(vmas) && start <= end && end + PAGE < TWO64
      modifies this
      ensures ListOk(segs) && Counted(AllMissed(old(segs), spans))
      ensures !own ==> segs == old(segs) && spans == []
      ensures own ==> ListSwept(old(segs), segs, spans)
      ensures own ==> forall x: nat :: Hit(spans, x) <==> Doomed(vmas, start, end, x)
    {
      spans := [];
      if !own {
        return;
      }
      var s := Rounded(start, end);
      RoundedPages(start, end);
      DoomedIffSelected(vmas, start, end);
      var i := FindVma(vmas, s.lo);
      if i == |vmas| || vmas[i].start >= s.hi {
        InvalidatePtesRange(s);
        spans := [s];
        assert AllMissed(old(segs), [s]) == AllMissed(old(segs), []) + ListMissed(old(segs), s);
        SingleHit(s);
        NoneMeets(vmas, s, i);
        return;
      }
      ghost var first := i;
      while i < |vmas| && vmas[i].start < s.hi
        invariant first <= i <= |vmas| && ListOk(segs) && Counted(AllMissed(old(segs), spans))
        invariant ListSwept(old(segs), segs, spans)
        invariant HitsCovered(vmas, s, first, i, spans)
        decreases |vmas| - i
      {
        ghost var done := spans;
        NotCoveredYet(vmas, s, first, i, done);
        spans := InvalidateVma(vmas[i], s, old(segs), done);
        HitsOneMore(vmas, s, first, i, done, spans);
        i := i + 1;
      }
      SomeMeets(vmas, s, first, i);
    }
  }

  /** Address x lies in a vma, among those from index lo to hi, that XPMEM did not attach. */
  predicate Covered(vmas: seq<Vma>, lo: nat, hi: nat, x: nat) {
    exists k :: lo <= k < hi && k < |vmas| && !vmas[k].xpmem && vmas[k].start <= x < vmas[k].end
  }

  /** The spans hit the addresses of s in those vmas. */
  ghost predicate HitsCovered(vmas: seq<Vma>, s: Span, lo: nat, hi: nat, spans: seq<Span>) {
    forall x: nat :: Hit(spans, x) <==> s.Has(x) && Covered(vmas, lo, hi, x)
  }

  lemma HitsOneMore(vmas: seq<Vma>, s: Span, lo: nat, i: nat, done: seq<Span>, spans: seq<Span>)
    requires lo <= i < |vmas| && HitsCovered(vmas, s, lo, i, done)
    requires forall x: nat ::
               Hit(spans, x) <==> Hit(done, x) || (!vmas[i].xpmem && s.Has(x) && vmas[i].start <= x < vmas[i].end)
    ensures HitsCovered(vmas, s, lo, i + 1, spans)
  {
    forall x: nat
      ensures Covered(vmas, lo, i + 1, x) <==>
              Covered(vmas, lo, i, x) || (!vmas[i].xpmem && vmas[i].start <= x < vmas[i].end)
    {
    }
  }

  lemma NotCoveredYet(vmas: seq<Vma>, s: Span, lo: nat, i: nat, done: seq<Span>)
    requires VmasOk(vmas) && lo <= i < |vmas| && HitsCovered(vmas, s, lo, i, done)
    ensures forall x: nat :: vmas[i].start <= x < vmas[i].end ==> !Hit(done, x)
  {
  }

  lemma RoundedPages(start: nat, end: nat)
    requires start <= end && end + PAGE < TWO64
    ensures PageSpan(Rounded(start, end))
  {
  }

  lemma NoneMeets(vmas: seq<Vma>, s: Span, i: nat)
    requires VmasOk(vmas) && i <= |vmas| && (i < |vmas| ==> vmas[i].start >= s.hi)
    requires forall k :: 0 <= k < i ==> vmas[k].end <= s.lo
    ensures forall x: nat :: Selected(vmas, s, x) <==> s.Has(x)
  {
    assert forall k :: i < k < |vmas| ==> vmas[i].end <= vmas[k].start;
  }

  lemma SomeMeets(vmas: seq<Vma>, s: Span, first: nat, i: nat)
    requires VmasOk(vmas) && first < |vmas| && Meets(vmas[first], s) && first <= i <= |vmas|
    requires forall k :: 0 <= k < first ==> vmas[k].end <= s.lo
    requires i < |vmas| ==> vmas[i].start >= s.hi
    ensures forall x: nat :: Selected(vmas, s, x) <==> s.Has(x) && Covered(vmas, first, i, x)
  {
    assert forall k :: i < k < |vmas| ==> vmas[i].end <= vmas[k].start;
  }

  /** Only a span with address zero reaches a segment that ends where the 64-bit space does. */
  lemma {:induction false} UnreachedByAll(spans: seq<Span>, seg: Segment)
    requires seg.vaddr > 0 && Wrap(seg.vaddr + seg.size) == 0 && !Hit(spans, 0)
    ensures Reaching(spans, seg) == []
  {
    if spans != [] {
      var n := |spans| - 1;
      assert !spans[n].Has(0);
      assert forall k :: 0 <= k < n ==> spans[..n][k] == spans[k];
      UnreachedByAll(spans[..n], seg);
    }
  }

  /** A segment that wraps around, its first page attached and mapped: a callout for that page does not
      reach the segment, and the page stays. */
  method WrappedCallout() returns (n: Notifier)
    ensures |n.segs| == 1 && |n.segs[0].atts| == 1
    ensures var a := n.segs[0].atts[0];
            && !a.destroying && 2 * PAGE in a.pages && Attached(a.range, 2 * PAGE)
            && Doomed([], PAGE, 2 * PAGE, Source(a.range, 2 * PAGE))
  {
    var a := AttRec(Attachment(PAGE, 2 * PAGE, PAGE), false, true, {2 * PAGE});
    var segs := [SegRec(Segment(PAGE, TWO64 - PAGE), false, [a])];
    n := new Notifier(segs);
    ghost var spans := n.InvalidateRange(PAGE, 2 * PAGE, [], true);
    assert SegSwept(segs[0], n.segs[0], spans);
    DoomedIffSelected([], PAGE, 2 * PAGE);
    assert !Selected([], Rounded(PAGE, 2 * PAGE), 0);
    assert Selected([], Rounded(PAGE, 2 * PAGE), PAGE);
    UnreachedByAll(spans, segs[0].seg);
  }
}
