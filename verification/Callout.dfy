/**
 The whole MMU invalidation callout while others change the lists and the attachments: what it
 removes, which pages in its range can be left, and that they are left only in attachments that
 were found marked as being destroyed.
 */
module Callout {
  import opened Words
  import opened Ranges
  import opened Invalidate
  import opened ListWalk
  import opened InvalidateWalk

  ghost predicate SpansHandled(start: World, w: World, log: Log, spans: seq<Span>) {
    forall i :: 0 <= i < |spans| ==> GroupHandled(start, w, spans[i], log)
  }

  lemma SpansStayHandled(start: World, v: World, w: World, l: Log, m: Log, done: seq<Span>, s: Span)
    requires LaterWorld(start, v) && LaterWorld(v, w) && Grows(l, m) && SpansHandled(start, v, l, done)
    requires GroupHandled(start, w, s, m)
    ensures SpansHandled(start, w, m, done + [s])
  {
    forall i | 0 <= i < |done| ensures GroupHandled(start, w, done[i], m) {
      GroupHandledStays(start, v, w, done[i], l, m);
    }
  }

  /** The callout has dealt with all of the spans, and with nothing else, and released `unpinned` pages. */
  ghost predicate Invalidated(start: World, env: seq<seq<Deed>>, k: nat, w: World, log: Log, spans: seq<Span>, unpinned: nat) {
    && Course(start, env, k, w, log) && |Released(start, log.gone)| == unpinned
    && SpansHandled(start, w, log, spans)
    && (forall c :: c in log.cleared ==> c.1 in spans)
  }

  lemma NothingDone(start: World, env: seq<seq<Deed>>)
    requires start.Valid()
    ensures Invalidated(start, env, 0, start, Log(map[], {}, {}), [], 0)
  {
    LaterSelf(start);
    forall a | a in start.recs ensures BesideRec(a, start.recs[a], start.recs[a], {}) {
      assert Left(a, start.recs[a], {}) == start.recs[a].pages;
    }
    assert Released(start, map[]) == {};
  }

  lemma OneMoreSpan(start: World, env: seq<seq<Deed>>, k0: nat, w0: World, l: Log, done: seq<Span>, n0: nat,
                    s: Span, k: nat, w: World, m: Log, n: nat)
    requires Invalidated(start, env, k0, w0, l, done, n0)
    requires Onward(s, start, env, k0, w0, l, k, w, m, n) && GroupHandled(start, w, s, m)
    ensures Invalidated(start, env, k, w, m, done + [s], n0 + n)
  {
    SpansStayHandled(start, w0, w, l, m, done, s);
  }

  /** Attachment x of permit p of segment q was there when the callout began and still is, and the
      segment is live. */
  ghost predicate Stayed(start: World, w: World, q: nat, p: nat, x: nat) {
    && q in w.segs.list && q in start.segs.used && q in w.infos && !w.infos[q].destroying
    && Remains(start.Of(q), w.Of(q), p, x) && x in w.recs
  }

  /** Page v of attachment x, which lies in segment q, and the segment does not wrap around. */
  ghost predicate PageOf(w: World, q: nat, x: nat, v: nat) {
    && q in w.infos && x in w.recs && v in w.recs[x].pages
    && w.infos[q].range.vaddr + w.infos[q].range.size < TWO64 && Established(w.infos[q].range, w.recs[x].range)
    && Attached(w.recs[x].range, v)
  }

  /** Pages to be invalidated are left only in attachments that were marked while the callout was at work. */
  ghost predicate MarkedAreLeft(start: World, env: seq<seq<Deed>>, k: nat, w: World, vmas: seq<Vma>, from: nat, to: nat) {
    k <= |env| && forall q, p, x, v ::
      Stayed(start, w, q, p, x) && PageOf(w, q, x, v) && Doomed(vmas, from, to, Source(w.recs[x].range, v)) ==>
        WasMarked(start, env, k, x)
  }

  /** No page is left that the others would have removed, and every other page is left. */
  ghost predicate OthersAreKept(start: World, env: seq<seq<Deed>>, k: nat, w: World, vmas: seq<Vma>, from: nat, to: nat) {
    && k <= |env| && w.recs.Keys == After(start, env, k).recs.Keys
    && (forall x, v :: x in w.recs && v in w.recs[x].pages ==> v in After(start, env, k).recs[x].pages)
    && (forall x, v :: x in w.recs && v in After(start, env, k).recs[x].pages && v !in w.recs[x].pages ==>
          Attached(w.recs[x].range, v) && Doomed(vmas, from, to, Source(w.recs[x].range, v)))
  }

  /** One vma of the loop in xpmem_invalidate_range(). */
  method InvalidateVma(v: Vma, s: Span, ghost start: World, env: seq<seq<Deed>>, k0: nat, w0: World, ghost log0: Log,
                       ghost done: seq<Span>, ghost n0: nat)
    returns (w: World, k: nat, unpinned: nat, ghost log: Log, ghost spans: seq<Span>)
    requires Invalidated(start, env, k0, w0, log0, done, n0)
    requires PageSpan(s) && v.start < v.end < TWO64 && Aligned(v.start) && Aligned(v.end)
    ensures Invalidated(start, env, k, w, log, spans, n0 + unpinned)
    ensures forall x: nat :: Hit(spans, x) <==> Hit(done, x) || (!v.xpmem && s.Has(x) && v.start <= x < v.end)
  {
    w, k, unpinned, log, spans := w0, k0, 0, log0, done;
    if v.xpmem {
      return;
    }
    var lo := Max(v.start, s.lo);
    if lo >= v.end {
      return;
    }
    var hi := Min(v.end, s.hi);
    if hi <= v.start {
      return;
    }
    w, k, unpinned, log := ClearGroup(Span(lo, hi), start, env, k, w, log);
    OneMoreSpan(start, env, k0, w0, log0, done, n0, Span(lo, hi), k, w, log, unpinned);
    OneMoreHit(done, Span(lo, hi));
    spans := done + [Span(lo, hi)];
  }

  /** xpmem_invalidate_range(), whatever others do meanwhile: it ends; the spans it deals with hold
      exactly the addresses that are to be invalidated; every page is as the others alone would
      have left it but for those that its clears took; and every page it took is counted, once, unless
      the int page count overlooks it. */
  method InvalidateRange(from: nat, to: nat, vmas: seq<Vma>, own: bool, start: World, env: seq<seq<Deed>>)
    returns (w: World, k: nat, unpinned: nat, ghost log: Log, ghost spans: seq<Span>)
    requires start.Valid() && VmasOk(vmas) && from <= to && to + PAGE < TWO64
    ensures Invalidated(start, env, k, w, log, spans, unpinned)
    ensures !own ==> w == start && unpinned == 0 && spans == []
    ensures own ==> forall x: nat :: Hit(spans, x) <==> Doomed(vmas, from, to, x)
    ensures own ==> MarkedAreLeft(start, env, k, w, vmas, from, to)
    ensures own ==> OthersAreKept(start, env, k, w, vmas, from, to)
  {
    w, k, unpinned, log, spans := start, 0, 0, Log(map[], {}, {}), [];
    NothingDone(start, env);
    if !own {
      return;
    }
    var s := Rounded(from, to);
    RoundedPages(from, to);
    DoomedIffSelected(vmas, from, to);
    var i := FindVma(vmas, s.lo);
    if i == |vmas| || vmas[i].start >= s.hi {
      w, k, unpinned, log := ClearGroup(s, start, env, k, w, log);
      OneMoreSpan(start, env, 0, start, Log(map[], {}, {}), [], 0, s, k, w, log, unpinned);
      spans := [s];
      assert [] + [s] == spans;
      SingleHit(s);
      NoneMeets(vmas, s, i);
      InvalidatedMeans(start, env, k, w, log, spans, unpinned, vmas, from, to);
      return;
    }
    ghost var first := i;
    while i < |vmas| && vmas[i].start < s.hi
      invariant first <= i <= |vmas| && Invalidated(start, env, k, w, log, spans, unpinned)
      invariant HitsCovered(vmas, s, first, i, spans)
      decreases |vmas| - i
    {
      ghost var done := spans;
      var n;
      w, k, n, log, spans := InvalidateVma(vmas[i], s, start, env, k, w, log, done, unpinned);
      unpinned := unpinned + n;
      HitsOneMore(vmas, s, first, i, done, spans);
      i := i + 1;
    }
    SomeMeets(vmas, s, first, i);
    InvalidatedMeans(start, env, k, w, log, spans, unpinned, vmas, from, to);
  }

  lemma InvalidatedMeans(start: World, env: seq<seq<Deed>>, k: nat, w: World, log: Log, spans: seq<Span>, unpinned: nat,
                         vmas: seq<Vma>, from: nat, to: nat)
    requires Invalidated(start, env, k, w, log, spans, unpinned)
    requires forall x: nat :: Hit(spans, x) <==> Doomed(vmas, from, to, x)
    ensures MarkedAreLeft(start, env, k, w, vmas, from, to) && OthersAreKept(start, env, k, w, vmas, from, to)
  {
    forall q: nat, p: nat, x: nat, v: nat |
      Stayed(start, w, q, p, x) && PageOf(w, q, x, v) && Doomed(vmas, from, to, Source(w.recs[x].range, v))
      ensures WasMarked(start, env, k, x)
    {
      LeftOnlyIfMarked(start, env, k, w, log, spans, unpinned, q, p, x, v);
    }
    forall x: nat, v: nat | x in w.recs && v in After(start, env, k).recs[x].pages && v !in w.recs[x].pages
      ensures Attached(w.recs[x].range, v) && Doomed(vmas, from, to, Source(w.recs[x].range, v))
    {
      TakenIsDoomed(start, env, k, w, log, spans, unpinned, x, v);
    }
  }

  lemma TakenIsDoomed(start: World, env: seq<seq<Deed>>, k: nat, w: World, log: Log, spans: seq<Span>, unpinned: nat,
                      x: nat, v: nat)
    requires Invalidated(start, env, k, w, log, spans, unpinned)
    requires x in w.recs && v in After(start, env, k).recs[x].pages && v !in w.recs[x].pages
    ensures Attached(w.recs[x].range, v) && Hit(spans, Source(w.recs[x].range, v))
  {
    LeftExactly(start, env, k, w, log, spans, unpinned, x, v);
    var c :| c in log.cleared && c.0 == x && InSpan(w.recs[x], v, c.1);
    var i :| 0 <= i < |spans| && spans[i] == c.1;
    assert spans[i].Has(Source(w.recs[x].range, v));
  }

  // ----- What can be left -----

  /** No round of the others unmarks attachment x. */
  ghost predicate NeverRestored(env: seq<seq<Deed>>, k: nat, x: nat)
    requires k <= |env|
  {
    forall i :: 0 <= i < k ==> Restore(x) !in env[i]
  }

  lemma {:induction false} DeedsKeepMark(w: World, ds: seq<Deed>, x: nat)
    requires x in w.recs && w.recs[x].destroying && Restore(x) !in ds
    ensures x in DoneAll(w, ds).recs && DoneAll(w, ds).recs[x].destroying
    decreases |ds|
  {
    if ds != [] {
      assert ds[0] != Restore(x);
      DeedsKeepMark(Done(w, ds[0]), ds[1..], x);
    }
  }

  /** An attachment that is never unmarked stays marked. */
  lemma {:induction false} MarkStays(start: World, env: seq<seq<Deed>>, i: nat, k: nat, x: nat)
    requires i <= k <= |env| && MarkedAt(start, env, i, x) && NeverRestored(env, k, x)
    ensures MarkedAt(start, env, k, x)
    decreases k
  {
    if i < k {
      MarkStays(start, env, i, k - 1, x);
      DeedsKeepMark(After(start, env, k - 1), env[k - 1], x);
    }
  }

  /** A page to be invalidated is left only in an attachment that was marked in the course of the
      callout; and, unless the others unmark it again, that attachment is being destroyed. */
  lemma LeftOnlyIfMarked(start: World, env: seq<seq<Deed>>, k: nat, w: World, log: Log, spans: seq<Span>, unpinned: nat,
                         q: nat, p: nat, x: nat, v: nat)
    requires Invalidated(start, env, k, w, log, spans, unpinned) && Stayed(start, w, q, p, x)
    requires PageOf(w, q, x, v) && Hit(spans, Source(w.recs[x].range, v))
    ensures WasMarked(start, env, k, x)
    ensures NeverRestored(env, k, x) ==> w.recs[x].destroying
  {
    var i :| 0 <= i < |spans| && spans[i].Has(Source(w.recs[x].range, v));
    LeftWasPassed(start, w, log, spans[i], q, p, x, v);
    var j :| 0 <= j <= k && MarkedAt(start, env, j, x);
    if NeverRestored(env, k, x) {
      MarkStays(start, env, j, k, x);
    }
  }

  lemma LeftWasPassed(start: World, w: World, log: Log, s: Span, q: nat, p: nat, x: nat, v: nat)
    requires GroupHandled(start, w, s, log) && Stayed(start, w, q, p, x)
    requires PageOf(w, q, x, v) && s.Has(Source(w.recs[x].range, v))
    ensures x in log.marked
  {
    Unreached(w.infos[q].range, w.recs[x].range, s, v);
    assert SegmentHandled(start, w, q, s, log.marked);
    assert Settled(w, x, s, log.marked);
    assert InSpan(w.recs[x], v, s);
  }

  /** Exactly what is left: the pages that the others alone would have left and that no clear of the
      attachment cut. */
  lemma LeftExactly(start: World, env: seq<seq<Deed>>, k: nat, w: World, log: Log, spans: seq<Span>, unpinned: nat,
                    x: nat, v: nat)
    requires Invalidated(start, env, k, w, log, spans, unpinned) && x in w.recs
    ensures x in After(start, env, k).recs
    ensures v in w.recs[x].pages <==>
            v in After(start, env, k).recs[x].pages && !exists c :: c in log.cleared && c.0 == x && InSpan(w.recs[x], v, c.1)
  {
    var u := After(start, env, k);
    assert BesideRec(x, u.recs[x], w.recs[x], log.cleared);
    assert Cut(x, u.recs[x], v, log.cleared) <==> exists c :: c in log.cleared && c.0 == x && InSpan(w.recs[x], v, c.1);
  }

  // ----- A page that is left -----

  /** One segment of one page, attached once and mapped. */
  function Mapping(): World {
    World(Shared([0], {0}), map[0 := SegInfo(Segment(PAGE, PAGE), false)],
          map[0 := Lists(Shared([0], {0}), map[0 := Shared([0], {0})])],
          map[0 := AttRec(Attachment(PAGE, 4 * PAGE, PAGE), false, true, {4 * PAGE})])
  }

  function Marked(): World {
    Mapping().(recs := map[0 := AttRec(Attachment(PAGE, 4 * PAGE, PAGE), true, true, {4 * PAGE})])
  }

  lemma MarkAndUnmark()
    ensures Mapping().Valid() && Marked().Valid()
    ensures DoneAll(Mapping(), [Destroy(0)]) == Marked() && DoneAll(Marked(), [Restore(0)]) == Mapping()
  {
    assert Done(Mapping(), Destroy(0)).recs == Marked().recs;
    assert Done(Marked(), Restore(0)).recs == Mapping().recs;
    assert DoneAll(Mapping(), [Destroy(0)]) == DoneAll(Done(Mapping(), Destroy(0)), []);
    assert DoneAll(Marked(), [Restore(0)]) == DoneAll(Done(Marked(), Restore(0)), []);
  }

  lemma StillMapped()
    ensures Stayed(Mapping(), Mapping(), 0, 0, 0)
    ensures !Mapping().recs[0].destroying && !Clean(Mapping().recs[0], Span(PAGE, 2 * PAGE))
  {
    assert InSpan(Mapping().recs[0], 4 * PAGE, Span(PAGE, 2 * PAGE));
  }

  /** A detach by another process marks the attachment, the callout comes to it and leaves it alone,
      and the detach is refused and unmarks it: the attachment is live and its page is mapped. */
  method UnmarkedIsMissed() returns (w: World, unpinned: nat)
    ensures w == Mapping() && unpinned == 0
    ensures Stayed(Mapping(), w, 0, 0, 0) && !w.recs[0].destroying && !Clean(w.recs[0], Span(PAGE, 2 * PAGE))
  {
    var start, env, s := Mapping(), [[Destroy(0)], [Restore(0)]], Span(PAGE, 2 * PAGE);
    ghost var log := Log(map[], {}, {});
    MarkAndUnmark();
    NothingDone(start, env);
    var k;
    w, k := Relock(s, start, env, 0, start, log);
    w, unpinned, log := ClearLocked(s, start, env, k, w, 0, log);
    w, k := Relock(s, start, env, k, w, log);
    StillMapped();
  }
}
