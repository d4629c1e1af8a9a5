/**
 An MMU callout while others change the lists, mark and unmark attachments, and remove pages of
 their own.  Faults are kept out by the source's mmap lock, so no page is added meanwhile.
 */
module InvalidateWalk {
  import opened Invalidate
  import opened ListWalk

  datatype SegInfo = SegInfo(range: Ranges.Segment, destroying: bool)

  /** The segments of a group, the lists of each, and the attachments. */
  datatype World = World(segs: Shared, infos: map<nat, SegInfo>, lists: map<nat, Lists>, recs: map<nat, AttRec>)
  {
    function Of(q: nat): Lists {
      if q in lists then lists[q] else Lists(Shared([], {}), map[])
    }

    ghost predicate Valid() {
      Ok(segs) && (forall q :: q in lists ==> lists[q].Valid()) && (forall a :: a in recs ==> AttOk(recs[a]))
    }
  }

  /** What others do: change a list, mark a segment or an attachment, unmark an attachment that
      still has its flag or has no page, or remove pages of an attachment (all of them with its flag). */
  datatype Deed =
    | OnSegs(c: Change)
    | OnLists(q: nat, l: ListChange)
    | DestroySeg(q: nat)
    | Destroy(a: nat)
    | Restore(a: nat)
    | Remove(a: nat, pages: set<nat>)

  function Reduced(r: AttRec, pages: set<nat>): AttRec {
    r.(pages := r.pages - pages, valid := r.valid && !(r.pages <= pages))
  }

  predicate Flagged(r: AttRec) {
    r.pages != {} ==> r.valid
  }

  function RecDone(r: AttRec, d: Deed): AttRec {
    match d
    case Destroy(_) => r.(destroying := true)
    case Restore(_) => if Flagged(r) then r.(destroying := false) else r
    case Remove(_, pages) => Reduced(r, pages)
    case _ => r
  }

  predicate OnRec(d: Deed) {
    d.Destroy? || d.Restore? || d.Remove?
  }

  function Done(w: World, d: Deed): World {
    if OnRec(d) then
      if d.a in w.recs then w.(recs := w.recs[d.a := RecDone(w.recs[d.a], d)]) else w
    else if d.OnSegs? then w.(segs := Applied(w.segs, d.c))
    else if d.OnLists? then w.(lists := w.lists[d.q := Changed(w.Of(d.q), d.l)])
    else if d.q in w.infos then w.(infos := w.infos[d.q := w.infos[d.q].(destroying := true)])
    else w
  }

  function DoneAll(w: World, ds: seq<Deed>): World
    decreases |ds|
  {
    if ds == [] then w else DoneAll(Done(w, ds[0]), ds[1..])
  }

  /** What the first k rounds of the others alone make of the world. */
  function After(w: World, env: seq<seq<Deed>>, k: nat): World
    requires k <= |env|
    decreases k
  {
    if k == 0 then w else DoneAll(After(w, env, k - 1), env[k - 1])
  }

  // ----- What others leave as it was -----

  /** The address lies in the span, as far as a clear can tell. */
  predicate InSpan(r: AttRec, p: nat, s: Span) {
    Ranges.Attached(r.range, p) && Ranges.Unwrapped(r.range) && s.Has(Ranges.Source(r.range, p))
  }

  /** No page of the attachment has its source in the span. */
  ghost predicate Clean(r: AttRec, s: Span) {
    forall p :: p in r.pages ==> !InSpan(r, p, s)
  }

  ghost predicate LaterRecs(v: map<nat, AttRec>, w: map<nat, AttRec>) {
    v.Keys == w.Keys && forall a :: a in v ==> w[a].range == v[a].range && w[a].pages <= v[a].pages
  }

  ghost predicate LaterInfos(v: map<nat, SegInfo>, w: map<nat, SegInfo>) {
    v.Keys == w.Keys && forall q :: q in v ==> w[q].range == v[q].range && (v[q].destroying ==> w[q].destroying)
  }

  ghost predicate LaterWorld(v: World, w: World) {
    && Later(v.segs, w.segs) && LaterInfos(v.infos, w.infos) && LaterRecs(v.recs, w.recs)
    && (forall q :: LaterLists(v.Of(q), w.Of(q)))
  }

  lemma LaterWorldTransitive(u: World, v: World, w: World)
    requires LaterWorld(u, v) && LaterWorld(v, w)
    ensures LaterWorld(u, w)
  {
    forall q ensures LaterLists(u.Of(q), w.Of(q)) {
      LaterTransitive(u.Of(q), v.Of(q), w.Of(q));
    }
  }

  lemma LaterSelf(w: World)
    requires w.Valid()
    ensures LaterWorld(w, w)
  {
    forall q ensures LaterLists(w.Of(q), w.Of(q)) {
      ChangesLater(w.Of(q), []);
    }
  }

  lemma DeedLater(w: World, d: Deed)
    requires w.Valid()
    ensures Done(w, d).Valid() && LaterWorld(w, Done(w, d))
  {
    if d.OnLists? {
      ListDeedLater(w, d);
    } else {
      LaterSelf(w);
      if d.OnSegs? {
        ChangeLater(w.segs, d.c);
      }
    }
  }

  lemma ListDeedLater(w: World, d: Deed)
    requires w.Valid() && d.OnLists?
    ensures Done(w, d).Valid() && LaterWorld(w, Done(w, d))
  {
    LaterSelf(w);
    ChangesLater(w.Of(d.q), [d.l]);
    assert ChangedAll(w.Of(d.q), [d.l]) == ChangedAll(Changed(w.Of(d.q), d.l), []);
  }

  lemma {:induction false} DeedsLater(w: World, ds: seq<Deed>)
    requires w.Valid()
    ensures DoneAll(w, ds).Valid() && LaterWorld(w, DoneAll(w, ds))
    decreases |ds|
  {
    if ds == [] {
      LaterSelf(w);
    } else {
      DeedLater(w, ds[0]);
      DeedsLater(Done(w, ds[0]), ds[1..]);
      LaterWorldTransitive(w, Done(w, ds[0]), DoneAll(w, ds));
    }
  }

  // ----- The callout beside the others -----

  /** The span of a clear of attachment a holds the source of page p. */
  predicate Cut(a: nat, r: AttRec, p: nat, cleared: set<(nat, Span)>) {
    exists c :: c in cleared && c.0 == a && InSpan(r, p, c.1)
  }

  /** The pages that are left of r when the callout has made these clears. */
  function Left(a: nat, r: AttRec, cleared: set<(nat, Span)>): set<nat> {
    set p | p in r.pages && !Cut(a, r, p, cleared)
  }

  /** Attachment a is what the others alone would have made, x, less the pages that the clears cut. */
  ghost predicate BesideRec(a: nat, x: AttRec, y: AttRec, cleared: set<(nat, Span)>) {
    && y.range == x.range && y.destroying == x.destroying && y.pages == Left(a, x, cleared)
    && (if Flagged(x) then Flagged(y) else y == x)
  }

  ghost predicate Beside(u: World, w: World, cleared: set<(nat, Span)>) {
    && w.segs == u.segs && w.infos == u.infos && w.lists == u.lists && w.recs.Keys == u.recs.Keys
    && (forall a :: a in u.recs ==> BesideRec(a, u.recs[a], w.recs[a], cleared))
  }

  lemma RecDeedBeside(a: nat, x: AttRec, y: AttRec, d: Deed, cleared: set<(nat, Span)>)
    requires BesideRec(a, x, y, cleared)
    ensures BesideRec(a, RecDone(x, d), RecDone(y, d), cleared)
  {
  }

  lemma DeedBeside(u: World, w: World, d: Deed, cleared: set<(nat, Span)>)
    requires Beside(u, w, cleared)
    ensures Beside(Done(u, d), Done(w, d), cleared)
  {
    if OnRec(d) && d.a in u.recs {
      RecDeedBeside(d.a, u.recs[d.a], w.recs[d.a], d, cleared);
    }
  }

  lemma {:induction false} DeedsBeside(u: World, w: World, ds: seq<Deed>, cleared: set<(nat, Span)>)
    requires Beside(u, w, cleared)
    ensures Beside(DoneAll(u, ds), DoneAll(w, ds), cleared)
    decreases |ds|
  {
    if ds != [] {
      DeedBeside(u, w, ds[0], cleared);
      DeedsBeside(Done(u, ds[0]), Done(w, ds[0]), ds[1..], cleared);
    }
  }

  /** What the callout has done: the pages it took and the span it took each for, the attachments
      it cleared, and those it found marked and passed over. */
  datatype Log = Log(gone: map<(nat, nat), Span>, cleared: set<(nat, Span)>, marked: set<nat>)

  ghost predicate Grows(l: Log, m: Log) {
    l.cleared <= m.cleared && l.marked <= m.marked
  }

  /** Attachment a was marked after one of the first k rounds of the others. */
  ghost predicate WasMarked(start: World, env: seq<seq<Deed>>, k: nat, a: nat)
    requires k <= |env|
  {
    exists i :: 0 <= i <= k && MarkedAt(start, env, i, a)
  }

  predicate MarkedAt(start: World, env: seq<seq<Deed>>, i: nat, a: nat)
    requires i <= |env|
  {
    var w := After(start, env, i);
    a in w.recs && w.recs[a].destroying
  }

  /** Every page taken is gone, and every page that is gone but that the others would have left was taken. */
  ghost predicate Accounted(start: World, u: World, w: World, gone: map<(nat, nat), Span>) {
    && (forall e :: e in gone ==> e.0 in w.recs && e.0 in start.recs && e.1 !in w.recs[e.0].pages)
    && (forall e :: e in gone ==> InSpan(start.recs[e.0], e.1, gone[e]))
    && (forall a, p :: a in u.recs && a in w.recs && p in u.recs[a].pages && p !in w.recs[a].pages ==> (a, p) in gone)
  }

  /** The pages taken that the int page count does not overlook. */
  function Released(start: World, gone: map<(nat, nat), Span>): set<(nat, nat)> {
    set e | e in gone && e.0 in start.recs && !Overlooked(start.recs[e.0].range, gone[e], e.1)
  }

  /** What holds of the callout throughout: w is the world after k rounds of the others and what the
      callout has done so far. */
  ghost predicate Course(start: World, env: seq<seq<Deed>>, k: nat, w: World, log: Log) {
    && k <= |env| && w.Valid() && LaterWorld(start, w)
    && Beside(After(start, env, k), w, log.cleared)
    && Accounted(start, After(start, env, k), w, log.gone)
    && (forall a :: a in log.marked ==> WasMarked(start, env, k, a))
    && (forall e :: e in log.gone ==> (e.0, log.gone[e]) in log.cleared)
  }

  lemma DeedAccounted(start: World, u: World, w: World, d: Deed, gone: map<(nat, nat), Span>)
    requires Accounted(start, u, w, gone) && u.recs.Keys == w.recs.Keys
    ensures Accounted(start, Done(u, d), Done(w, d), gone)
  {
  }

  lemma {:induction false} DeedsAccounted(start: World, u: World, w: World, ds: seq<Deed>, gone: map<(nat, nat), Span>)
    requires Accounted(start, u, w, gone) && u.recs.Keys == w.recs.Keys
    ensures Accounted(start, DoneAll(u, ds), DoneAll(w, ds), gone)
    decreases |ds|
  {
    if ds != [] {
      DeedAccounted(start, u, w, ds[0], gone);
      DeedsAccounted(start, Done(u, ds[0]), Done(w, ds[0]), ds[1..], gone);
    }
  }

  lemma RoundKeeps(start: World, env: seq<seq<Deed>>, k: nat, w: World, log: Log)
    requires Course(start, env, k, w, log) && k < |env|
    ensures Course(start, env, k + 1, DoneAll(w, env[k]), log) && LaterWorld(w, DoneAll(w, env[k]))
  {
    DeedsLater(w, env[k]);
    LaterWorldTransitive(start, w, DoneAll(w, env[k]));
    DeedsBeside(After(start, env, k), w, env[k], log.cleared);
    DeedsAccounted(start, After(start, env, k), w, env[k], log.gone);
  }

  // ----- One clear -----

  function Tagged(a: nat, pages: set<nat>): set<(nat, nat)> {
    set p | p in pages :: (a, p)
  }

  lemma {:induction false} TaggedCount(a: nat, pages: set<nat>)
    ensures |Tagged(a, pages)| == |pages|
  {
    if pages != {} {
      var x :| x in pages;
      TaggedCount(a, pages - {x});
      assert Tagged(a, pages) == Tagged(a, pages - {x}) + {(a, x)};
      assert (a, x) !in Tagged(a, pages - {x});
    }
  }

  /** The pages of attachment a that go from r to b are taken for span s. */
  function Taking(gone: map<(nat, nat), Span>, a: nat, r: AttRec, b: AttRec, s: Span): map<(nat, nat), Span> {
    gone + map e | e in Tagged(a, r.pages - b.pages) :: s
  }

  lemma ReleasedSplits(start: World, gone: map<(nat, nat), Span>, a: nat, r: AttRec, b: AttRec, s: Span, counted: set<nat>)
    requires a in start.recs && start.recs[a].range == r.range
    requires forall p :: p in r.pages ==> (a, p) !in gone
    requires counted == set p | p in r.pages && p !in b.pages && !Overlooked(r.range, s, p)
    ensures Released(start, Taking(gone, a, r, b, s)) == Released(start, gone) + Tagged(a, counted)
  {
    var gone' := Taking(gone, a, r, b, s);
    forall e ensures e in Released(start, gone') <==> e in Released(start, gone) + Tagged(a, counted) {
      if e.0 == a && e.1 in r.pages {
        assert e in gone' <==> e.1 !in b.pages;
      } else {
        assert e in gone' <==> e in gone;
      }
    }
  }

  /** Pages that were still mapped are counted for the first time. */
  lemma TakenCount(start: World, w: World, gone: map<(nat, nat), Span>, a: nat, b: AttRec, s: Span, n: nat)
    requires forall e :: e in gone ==> e.0 in w.recs && e.1 !in w.recs[e.0].pages
    requires a in w.recs && a in start.recs && start.recs[a].range == w.recs[a].range
    requires n == |set p | p in w.recs[a].pages && p !in b.pages && !Overlooked(w.recs[a].range, s, p)|
    ensures |Released(start, Taking(gone, a, w.recs[a], b, s))| == |Released(start, gone)| + n
  {
    var r := w.recs[a];
    var counted := set p | p in r.pages && p !in b.pages && !Overlooked(r.range, s, p);
    TaggedCount(a, counted);
    ReleasedSplits(start, gone, a, r, b, s, counted);
    assert Released(start, gone) !! Tagged(a, counted);
  }

  lemma SweptRec(s: Span, a: nat, x: AttRec, r: AttRec, b: AttRec, cleared: set<(nat, Span)>)
    requires AttOk(r) && !r.destroying && AttSwept(r, b, [s]) && AttOk(b) && BesideRec(a, x, r, cleared)
    ensures b.range == r.range && b.pages <= r.pages && Clean(b, s) && BesideRec(a, x, b, cleared + {(a, s)})
    ensures forall p :: p in r.pages - b.pages ==> InSpan(r, p, s)
  {
    SingleHit(s);
    forall p | p in x.pages ensures p in b.pages <==> !Cut(a, x, p, cleared + {(a, s)}) {
      if Cut(a, x, p, cleared) {
        var c :| c in cleared && c.0 == a && InSpan(x, p, c.1);
        assert c in cleared + {(a, s)};
      } else if InSpan(x, p, s) {
        assert (a, s) in cleared + {(a, s)};
      }
    }
  }

  lemma ClearLater(w: World, a: nat, b: AttRec)
    requires w.Valid() && a in w.recs && AttOk(b) && b.range == w.recs[a].range && b.pages <= w.recs[a].pages
    ensures var w' := w.(recs := w.recs[a := b]); w'.Valid() && LaterWorld(w, w')
  {
    LaterSelf(w);
  }

  lemma ClearBeside(u: World, w: World, s: Span, a: nat, b: AttRec, cleared: set<(nat, Span)>)
    requires Beside(u, w, cleared) && a in w.recs && BesideRec(a, u.recs[a], b, cleared + {(a, s)})
    ensures Beside(u, w.(recs := w.recs[a := b]), cleared + {(a, s)})
  {
    var w' := w.(recs := w.recs[a := b]);
    forall c | c in u.recs ensures BesideRec(c, u.recs[c], w'.recs[c], cleared + {(a, s)}) {
      if c != a {
        OtherLeft(c, u.recs[c], cleared, (a, s));
      }
    }
  }

  lemma OtherLeft(c: nat, r: AttRec, cleared: set<(nat, Span)>, more: (nat, Span))
    requires more.0 != c
    ensures Left(c, r, cleared + {more}) == Left(c, r, cleared)
  {
    forall p ensures Cut(c, r, p, cleared + {more}) <==> Cut(c, r, p, cleared) {
      if Cut(c, r, p, cleared) {
        var x :| x in cleared && x.0 == c && InSpan(r, p, x.1);
        assert x in cleared + {more};
      }
    }
  }

  lemma ClearAccounted(start: World, u: World, w: World, gone: map<(nat, nat), Span>, a: nat, b: AttRec, s: Span)
    requires Accounted(start, u, w, gone) && a in w.recs && a in start.recs && b.pages <= w.recs[a].pages
    requires start.recs[a].range == w.recs[a].range && forall p :: p in w.recs[a].pages - b.pages ==> InSpan(w.recs[a], p, s)
    ensures Accounted(start, u, w.(recs := w.recs[a := b]), Taking(gone, a, w.recs[a], b, s))
  {
  }

  /** What the log says after a live attachment was cleared. */
  function Clears(log: Log, a: nat, r: AttRec, b: AttRec, s: Span): Log {
    Log(Taking(log.gone, a, r, b, s), log.cleared + {(a, s)}, log.marked)
  }

  lemma ClearKeeps(start: World, env: seq<seq<Deed>>, k: nat, w: World, log: Log, s: Span, a: nat, b: AttRec)
    requires Course(start, env, k, w, log) && a in w.recs && !w.recs[a].destroying
    requires AttOk(b) && AttSwept(w.recs[a], b, [s])
    ensures var w' := w.(recs := w.recs[a := b]);
            Course(start, env, k, w', Clears(log, a, w.recs[a], b, s)) && LaterWorld(w, w') && Clean(b, s)
  {
    ClearRecords(start, After(start, env, k), w, log, s, a, b);
    ClearLater(w, a, b);
    LaterWorldTransitive(start, w, w.(recs := w.recs[a := b]));
  }

  lemma ClearRecords(start: World, u: World, w: World, log: Log, s: Span, a: nat, b: AttRec)
    requires Beside(u, w, log.cleared) && Accounted(start, u, w, log.gone) && LaterRecs(start.recs, w.recs)
    requires a in w.recs && AttOk(w.recs[a]) && !w.recs[a].destroying && AttOk(b) && AttSwept(w.recs[a], b, [s])
    ensures var w' := w.(recs := w.recs[a := b]);
            && Beside(u, w', log.cleared + {(a, s)}) && Accounted(start, u, w', Taking(log.gone, a, w.recs[a], b, s))
            && b.range == w.recs[a].range && b.pages <= w.recs[a].pages && Clean(b, s)
  {
    SweptRec(s, a, u.recs[a], w.recs[a], b, log.cleared);
    ClearBeside(u, w, s, a, b, log.cleared);
    ClearAccounted(start, u, w, log.gone, a, b, s);
  }

  lemma PassKeeps(start: World, env: seq<seq<Deed>>, k: nat, w: World, log: Log, a: nat)
    requires Course(start, env, k, w, log) && a in w.recs && w.recs[a].destroying
    ensures Course(start, env, k, w, log.(marked := log.marked + {a}))
  {
    assert MarkedAt(start, env, k, a);
  }

  // ----- One attachment -----

  /** Attachment a has been dealt with: it has no page in the span, or was passed over. */
  ghost predicate Settled(w: World, a: nat, s: Span, marked: set<nat>) {
    a in w.recs ==> Clean(w.recs[a], s) || a in marked
  }

  lemma SettledStays(v: World, w: World, s: Span, l: Log, m: Log, a: nat)
    requires LaterWorld(v, w) && Grows(l, m) && Settled(v, a, s, l.marked)
    ensures Settled(w, a, s, m.marked)
  {
  }

  /** From (k0, w0, log0) on, the callout came to (k, w, log) with clears for span s only, and released
      `unpinned` pages. */
  ghost predicate Onward(s: Span, start: World, env: seq<seq<Deed>>, k0: nat, w0: World, log0: Log,
                         k: nat, w: World, log: Log, unpinned: nat)
  {
    && k0 <= k && Course(start, env, k, w, log) && LaterWorld(w0, w) && Grows(log0, log)
    && |Released(start, log.gone)| == |Released(start, log0.gone)| + unpinned
    && (k == k0 ==> w.lists == w0.lists && w.segs == w0.segs)
    && (forall c :: c in log.cleared ==> c in log0.cleared || c.1 == s)
  }

  lemma OnwardTransitive(s: Span, start: World, env: seq<seq<Deed>>, k0: nat, w0: World, l0: Log,
                         k1: nat, w1: World, l1: Log, n1: nat, k2: nat, w2: World, l2: Log, n2: nat)
    requires Onward(s, start, env, k0, w0, l0, k1, w1, l1, n1) && Onward(s, start, env, k1, w1, l1, k2, w2, l2, n2)
    ensures Onward(s, start, env, k0, w0, l0, k2, w2, l2, n1 + n2)
  {
    LaterWorldTransitive(w0, w1, w2);
  }

  /** The lock is dropped and taken again: others do a round of work, if any is left. */
  method Relock(ghost s: Span, ghost start: World, env: seq<seq<Deed>>, k0: nat, w0: World, ghost log: Log)
    returns (w: World, k: nat)
    requires Course(start, env, k0, w0, log)
    ensures Onward(s, start, env, k0, w0, log, k, w, log, 0)
    ensures if k0 < |env| then k == k0 + 1 && w == DoneAll(w0, env[k0]) else k == k0 && w == w0
  {
    w, k := w0, k0;
    if k < |env| {
      RoundKeeps(start, env, k, w, log);
      w, k := DoneAll(w, env[k]), k + 1;
    } else {
      LaterSelf(w);
    }
  }

  /** xpmem_clear_PTEs_of_att(att, start, end, 1): under the invalidate mutex; a marked attachment is
      left alone. */
  method ClearLocked(s: Span, ghost start: World, ghost env: seq<seq<Deed>>, ghost k: nat, w0: World, x: nat, ghost log0: Log)
    returns (w: World, unpinned: nat, ghost log: Log)
    requires Course(start, env, k, w0, log0) && PageSpan(s) && x in w0.recs
    ensures Onward(s, start, env, k, w0, log0, k, w, log, unpinned) && Settled(w, x, s, log.marked)
    ensures w == w0.(recs := w.recs) && (w0.recs[x].destroying ==> w == w0 && unpinned == 0)
    ensures x in w.recs && (!w0.recs[x].destroying ==> Clean(w.recs[x], s))
  {
    log := log0;
    var b, n := ClearPtesOfAtt(w0.recs[x], s);
    w, unpinned := w0.(recs := w0.recs[x := b]), n;
    if w0.recs[x].destroying {
      log := log.(marked := log.marked + {x});
      PassOnward(s, start, env, k, w0, log0, x);
      assert w.recs == w0.recs;
    } else {
      log := Clears(log, x, w0.recs[x], b, s);
      ClearOnward(s, start, env, k, w0, log0, x, b, n);
    }
  }

  lemma PassOnward(s: Span, start: World, env: seq<seq<Deed>>, k: nat, w: World, log: Log, x: nat)
    requires Course(start, env, k, w, log) && x in w.recs && w.recs[x].destroying
    ensures Onward(s, start, env, k, w, log, k, w, log.(marked := log.marked + {x}), 0)
  {
    LaterSelf(w);
    PassKeeps(start, env, k, w, log, x);
  }

  lemma ClearOnward(s: Span, start: World, env: seq<seq<Deed>>, k: nat, w: World, log: Log, x: nat, b: AttRec, n: nat)
    requires Course(start, env, k, w, log) && x in w.recs && !w.recs[x].destroying && AttOk(b) && AttSwept(w.recs[x], b, [s])
    requires n == |set p | p in w.recs[x].pages && p !in b.pages && !Overlooked(w.recs[x].range, s, p)|
    ensures Onward(s, start, env, k, w, log, k, w.(recs := w.recs[x := b]), Clears(log, x, w.recs[x], b, s), n) && Clean(b, s)
  {
    ClearKeeps(start, env, k, w, log, s, x, b);
    TakenCount(start, w, log.gone, x, b, s, n);
  }

  lemma SkippedIsSettled(start: World, env: seq<seq<Deed>>, k: nat, w: World, x: nat, log0: Log, s: Span) returns (log: Log)
    requires Course(start, env, k, w, log0) && (x in w.recs ==> !w.recs[x].valid)
    ensures Onward(s, start, env, k, w, log0, k, w, log, 0) && Settled(w, x, s, log.marked)
  {
    log := log0;
    if x in w.recs && w.recs[x].destroying {
      PassOnward(s, start, env, k, w, log, x);
      log := log.(marked := log.marked + {x});
    } else {
      LaterSelf(w);
    }
  }

  /** One attachment: skipped if it is not flagged, else cleared with the list's lock dropped, others
      at work before and after.  A marked one is left alone. */
  method ClearOne(s: Span, ghost start: World, env: seq<seq<Deed>>, k0: nat, w0: World, x: nat, ghost log0: Log)
    returns (w: World, k: nat, unpinned: nat, ghost log: Log)
    requires Course(start, env, k0, w0, log0) && PageSpan(s)
    ensures Onward(s, start, env, k0, w0, log0, k, w, log, unpinned) && Settled(w, x, s, log.marked)
  {
    w, k, unpinned, log := w0, k0, 0, log0;
    if x !in w.recs || !w.recs[x].valid {
      log := SkippedIsSettled(start, env, k, w, x, log, s);
      return;
    }
    w, k := Relock(s, start, env, k, w, log);
    ghost var k1, w1 := k, w;
    w, unpinned, log := ClearLocked(s, start, env, k, w, x, log);
    OnwardTransitive(s, start, env, k0, w0, log0, k1, w1, log0, 0, k, w, log, unpinned);
    ghost var k2, w2 := k, w;
    w, k := Relock(s, start, env, k, w, log);
    OnwardTransitive(s, start, env, k0, w0, log0, k2, w2, log, unpinned, k, w, log, 0);
    SettledStays(w2, w, s, log, log, x);
  }

  // ----- The attachments of a permit -----

  ghost predicate AllSettled(w: World, s: Span, log: Log, examined: set<(nat, nat)>) {
    forall e :: e in examined ==> Settled(w, e.1, s, log.marked)
  }

  lemma AllSettledStays(v: World, w: World, s: Span, l: Log, m: Log, examined: set<(nat, nat)>)
    requires LaterWorld(v, w) && Grows(l, m) && AllSettled(v, s, l, examined)
    ensures AllSettled(w, s, m, examined)
  {
    forall e | e in examined ensures Settled(w, e.1, s, m.marked) {
      SettledStays(v, w, s, l, m, e.1);
    }
  }

  /** Where the walk over permit p goes on, everything before has been examined. */
  lemma ResumePermit(p: nat, a: Shared, b: Shared, i: nat, examined: set<(nat, nat)>)
    requires Ok(a) && Later(a, b) && i < |a.list| && a.list[i] in b.list
    requires forall j :: 0 <= j <= i ==> (p, a.list[j]) in examined
    ensures forall j :: 0 <= j <= IndexOf(b.list, a.list[i]) ==> (p, b.list[j]) in examined
  {
    var seen := set y | y in a.list && (p, y) in examined;
    Resume(a.list, i, b.list, seen);
  }

  /** The first i elements of the list of permit p have been examined. */
  ghost predicate Inspected(list: seq<nat>, p: nat, i: nat, examined: set<(nat, nat)>) {
    i <= |list| && forall j :: 0 <= j < i ==> (p, list[j]) in examined
  }

  lemma InspectsNext(a: Shared, b: Shared, p: nat, i: nat, examined: set<(nat, nat)>)
    requires Ok(a) && Later(a, b) && i < |a.list| && Inspected(a.list, p, i, examined)
    ensures Inspected(b.list, p, if a.list[i] in b.list then IndexOf(b.list, a.list[i]) + 1 else 0, examined + {(p, a.list[i])})
  {
    if a.list[i] in b.list {
      ResumePermit(p, a, b, i, examined + {(p, a.list[i])});
    }
  }

  lemma PermitLater(v: World, w: World, q: nat, p: nat)
    requires v.Valid() && LaterWorld(v, w)
    ensures Ok(v.Of(q).Of(p)) && Later(v.Of(q).Of(p), w.Of(q).Of(p))
    ensures Ok(v.Of(q).permits) && Later(v.Of(q).permits, w.Of(q).permits)
  {
    assert LaterLists(v.Of(q), w.Of(q));
  }

  lemma InspectsMore(w0: World, w: World, q: nat, p: nat, s: Span, l: Log, m: Log, i: nat, seen: set<(nat, nat)>)
    requires w0.Valid() && LaterWorld(w0, w) && Grows(l, m) && i < |w0.Of(q).Of(p).list|
    requires Inspected(w0.Of(q).Of(p).list, p, i, seen) && AllSettled(w0, s, l, seen)
    requires Settled(w, w0.Of(q).Of(p).list[i], s, m.marked)
    ensures var x, list := w0.Of(q).Of(p).list[i], w.Of(q).Of(p).list;
            && Inspected(list, p, if x in list then IndexOf(list, x) + 1 else 0, seen + {(p, x)})
            && AllSettled(w, s, m, seen + {(p, x)})
  {
    AllSettledStays(w0, w, s, l, m, seen);
    PermitLater(w0, w, q, p);
    InspectsNext(w0.Of(q).Of(p), w.Of(q).Of(p), p, i, seen);
  }

  /** One step of the walk over the attachments of permit p of segment q. */
  method InspectOne(q: nat, p: nat, s: Span, ghost start: World, env: seq<seq<Deed>>, k0: nat, w0: World, ghost log0: Log,
                    i0: nat, ghost seen: set<(nat, nat)>)
    returns (w: World, k: nat, unpinned: nat, ghost log: Log, i: nat, ghost examined: set<(nat, nat)>)
    requires Course(start, env, k0, w0, log0) && PageSpan(s) && i0 < |w0.Of(q).Of(p).list|
    requires Inspected(w0.Of(q).Of(p).list, p, i0, seen) && AllSettled(w0, s, log0, seen)
    ensures Onward(s, start, env, k0, w0, log0, k, w, log, unpinned)
    ensures Inspected(w.Of(q).Of(p).list, p, i, examined) && AllSettled(w, s, log, examined)
    ensures k == k0 ==> i > i0
  {
    var x := w0.Of(q).Of(p).list[i0];
    w, k, unpinned, log := ClearOne(s, start, env, k0, w0, x, log0);
    examined := seen + {(p, x)};
    InspectsMore(w0, w, q, p, s, log0, log, i0, seen);
    i := if x in w.Of(q).Of(p).list then IndexOf(w.Of(q).Of(p).list, x) + 1 else 0;
  }

  /** xpmem_clear_PTEs_of_ap(ap, start, end, 1): the attachments of permit p of segment q. */
  method ClearPermit(q: nat, p: nat, s: Span, ghost start: World, env: seq<seq<Deed>>, k0: nat, w0: World, ghost log0: Log)
    returns (w: World, k: nat, unpinned: nat, ghost log: Log, ghost examined: set<(nat, nat)>)
    requires Course(start, env, k0, w0, log0) && PageSpan(s)
    ensures Onward(s, start, env, k0, w0, log0, k, w, log, unpinned)
    ensures AllSettled(w, s, log, examined) && forall x :: x in w.Of(q).Of(p).list ==> (p, x) in examined
  {
    w, k, unpinned, log, examined := w0, k0, 0, log0, {};
    LaterSelf(w);
    var i: nat := 0;
    while i < |w.Of(q).Of(p).list|
      invariant Onward(s, start, env, k0, w0, log0, k, w, log, unpinned)
      invariant Inspected(w.Of(q).Of(p).list, p, i, examined) && AllSettled(w, s, log, examined)
      decreases |env| - k, |w.Of(q).Of(p).list| - i
    {
      ghost var k1, w1, log1 := k, w, log;
      var n;
      w, k, n, log, i, examined := InspectOne(q, p, s, start, env, k, w, log, i, examined);
      OnwardTransitive(s, start, env, k0, w0, log0, k1, w1, log1, unpinned, k, w, log, n);
      unpinned := unpinned + n;
    }
  }

  // ----- The permits of a segment -----

  /** Every attachment that existed when the callout began, of a permit that did, is settled if it is
      still on the lists of segment q. */
  ghost predicate SegmentSettled(start: World, w: World, q: nat, s: Span, marked: set<nat>) {
    forall p, x :: Remains(start.Of(q), w.Of(q), p, x) ==> Settled(w, x, s, marked)
  }

  /** Attachment x of permit p is on the lists, and both existed when the callout began. */
  predicate Remains(start: Lists, lists: Lists, p: nat, x: nat) {
    p in lists.permits.list && p in start.permits.used && x in lists.Of(p).list && x in start.Of(p).used
  }

  lemma SegmentSettledStays(start: World, v: World, w: World, q: nat, s: Span, l: Log, m: Log)
    requires LaterWorld(start, v) && LaterWorld(v, w) && Grows(l, m) && SegmentSettled(start, v, q, s, l.marked)
    ensures SegmentSettled(start, w, q, s, m.marked)
  {
    assert LaterLists(start.Of(q), v.Of(q)) && LaterLists(v.Of(q), w.Of(q));
    forall p: nat, x: nat | Remains(start.Of(q), w.Of(q), p, x)
      ensures Settled(w, x, s, m.marked)
    {
      assert Later(start.Of(q).Of(p), v.Of(q).Of(p)) && Later(v.Of(q).Of(p), w.Of(q).Of(p));
      assert Remains(start.Of(q), v.Of(q), p, x);
      SettledStays(v, w, s, l, m, x);
    }
  }

  /** The permits done so far are done. */
  ghost predicate PermitsDone(start: Lists, lists: Lists, done: set<nat>, examined: set<(nat, nat)>) {
    forall p :: p in done ==> PermitDone(start, lists, examined, p)
  }

  lemma PermitsDoneStays(start: Lists, a: Lists, b: Lists, done: set<nat>, examined: set<(nat, nat)>)
    requires LaterLists(start, a) && LaterLists(a, b) && PermitsDone(start, a, done, examined)
    ensures PermitsDone(start, b, done, examined)
  {
    forall p | p in done ensures PermitDone(start, b, examined, p) {
      DoneStays(start, a, b, examined, examined, p);
    }
  }

  lemma ResumeSegment(a: Shared, b: Shared, i: nat, done: set<nat>)
    requires Ok(a) && Later(a, b) && i < |a.list| && a.list[i] in b.list
    requires forall j :: 0 <= j <= i ==> a.list[j] in done
    ensures forall j :: 0 <= j <= IndexOf(b.list, a.list[i]) ==> b.list[j] in done
  {
    Resume(a.list, i, b.list, done);
  }

  lemma SegmentEnds(start: World, w: World, q: nat, s: Span, log: Log, done: set<nat>, examined: set<(nat, nat)>)
    requires PermitsDone(start.Of(q), w.Of(q), done, examined) && AllSettled(w, s, log, examined)
    requires forall p :: p in w.Of(q).permits.list ==> p in done
    ensures SegmentSettled(start, w, q, s, log.marked)
  {
    forall p: nat, x: nat | Remains(start.Of(q), w.Of(q), p, x)
      ensures Settled(w, x, s, log.marked)
    {
      assert PermitDone(start.Of(q), w.Of(q), examined, p);
      assert (p, x) in examined;
    }
  }

  /** The first i permits of the list are done, and what was examined is settled. */
  ghost predicate Progress(start: World, w: World, q: nat, s: Span, log: Log, i: nat, done: set<nat>, examined: set<(nat, nat)>) {
    && PermitsDone(start.Of(q), w.Of(q), done, examined) && AllSettled(w, s, log, examined)
    && i <= |w.Of(q).permits.list| && (forall j :: 0 <= j < i ==> w.Of(q).permits.list[j] in done)
  }

  /** One step of the walk over the permits of segment q. */
  method PermitOne(q: nat, s: Span, ghost start: World, env: seq<seq<Deed>>, k0: nat, w0: World, ghost log0: Log, i0: nat,
                   ghost done0: set<nat>, ghost examined0: set<(nat, nat)>)
    returns (w: World, k: nat, unpinned: nat, ghost log: Log, i: nat, ghost done: set<nat>, ghost examined: set<(nat, nat)>)
    requires Course(start, env, k0, w0, log0) && PageSpan(s) && i0 < |w0.Of(q).permits.list|
    requires Progress(start, w0, q, s, log0, i0, done0, examined0)
    ensures Onward(s, start, env, k0, w0, log0, k, w, log, unpinned)
    ensures Progress(start, w, q, s, log, i, done, examined) && (k == k0 ==> i > i0)
  {
    var p := w0.Of(q).permits.list[i0];
    ghost var seen;
    w, k, unpinned, log, seen := ClearPermit(q, p, s, start, env, k0, w0, log0);
    examined, done := examined0 + seen, done0 + {p};
    ghost var k1, w1 := k, w;
    w, k := Relock(s, start, env, k, w, log);
    OnwardTransitive(s, start, env, k0, w0, log0, k1, w1, log, unpinned, k, w, log, 0);
    PermitAdds(start, w0, w1, w, q, p, s, log0, log, done0, examined0, seen);
    ResumePermits(w0, w, q, i0, done);
    i := if p in w.Of(q).permits.list then IndexOf(w.Of(q).permits.list, p) + 1 else 0;
  }

  lemma ResumePermits(w0: World, w: World, q: nat, i: nat, done: set<nat>)
    requires w0.Valid() && LaterWorld(w0, w) && i < |w0.Of(q).permits.list|
    requires forall j :: 0 <= j <= i ==> w0.Of(q).permits.list[j] in done
    ensures var p, list := w0.Of(q).permits.list[i], w.Of(q).permits.list;
            p in list ==> forall j :: 0 <= j <= IndexOf(list, p) ==> list[j] in done
  {
    PermitLater(w0, w, q, 0);
    if w0.Of(q).permits.list[i] in w.Of(q).permits.list {
      ResumeSegment(w0.Of(q).permits, w.Of(q).permits, i, done);
    }
  }

  lemma PermitAdds(start: World, w0: World, w1: World, w: World, q: nat, p: nat, s: Span, l: Log, m: Log,
                   done: set<nat>, examined: set<(nat, nat)>, seen: set<(nat, nat)>)
    requires LaterWorld(start, w0) && LaterWorld(w0, w1) && LaterWorld(start, w1) && LaterWorld(w1, w) && Grows(l, m)
    requires PermitsDone(start.Of(q), w0.Of(q), done, examined) && AllSettled(w0, s, l, examined)
    requires AllSettled(w1, s, m, seen) && forall x :: x in w1.Of(q).Of(p).list ==> (p, x) in seen
    ensures PermitsDone(start.Of(q), w.Of(q), done + {p}, examined + seen) && AllSettled(w, s, m, examined + seen)
  {
    AllSettledStays(w0, w1, s, l, m, examined);
    AllSettledStays(w1, w, s, m, m, examined + seen);
    PermitsDoneStays(start.Of(q), w0.Of(q), w1.Of(q), done, examined);
    PermitsDoneStays(start.Of(q), w1.Of(q), w.Of(q), done + {p}, examined + seen);
  }

  /** Every such attachment has no page in the span, or was marked while the callout was at work. */
  ghost predicate SegmentDealt(start: World, env: seq<seq<Deed>>, k: nat, w: World, q: nat, s: Span) {
    k <= |env| && forall p, x :: Remains(start.Of(q), w.Of(q), p, x) && x in w.recs ==>
      Clean(w.recs[x], s) || WasMarked(start, env, k, x)
  }

  lemma SettledIsDealt(start: World, env: seq<seq<Deed>>, k: nat, w: World, log: Log, q: nat, s: Span)
    requires Course(start, env, k, w, log) && SegmentSettled(start, w, q, s, log.marked)
    ensures SegmentDealt(start, env, k, w, q, s)
  {
    forall p: nat, x: nat | Remains(start.Of(q), w.Of(q), p, x) && x in w.recs
      ensures Clean(w.recs[x], s) || WasMarked(start, env, k, x)
    {
      assert Settled(w, x, s, log.marked);
    }
  }

  /** xpmem_clear_PTEs_range(seg, start, end, 1): the permits of segment q. */
  method ClearSegment(q: nat, s: Span, ghost start: World, env: seq<seq<Deed>>, k0: nat, w0: World, ghost log0: Log)
    returns (w: World, k: nat, unpinned: nat, ghost log: Log)
    requires Course(start, env, k0, w0, log0) && PageSpan(s)
    ensures Onward(s, start, env, k0, w0, log0, k, w, log, unpinned) && SegmentSettled(start, w, q, s, log.marked)
    ensures SegmentDealt(start, env, k, w, q, s)
  {
    w, k, unpinned, log := w0, k0, 0, log0;
    LaterSelf(w);
    var i: nat := 0;
    ghost var done: set<nat>, examined: set<(nat, nat)> := {}, {};
    while i < |w.Of(q).permits.list|
      invariant Onward(s, start, env, k0, w0, log0, k, w, log, unpinned) && Progress(start, w, q, s, log, i, done, examined)
      decreases |env| - k, |w.Of(q).permits.list| - i
    {
      ghost var k1, w1, log1 := k, w, log;
      var n;
      w, k, n, log, i, done, examined := PermitOne(q, s, start, env, k, w, log, i, done, examined);
      OnwardTransitive(s, start, env, k0, w0, log0, k1, w1, log1, unpinned, k, w, log, n);
      unpinned := unpinned + n;
    }
    SegmentEnds(start, w, q, s, log, done, examined);
    SettledIsDealt(start, env, k, w, log, q, s);
  }

  // ----- The segments of a group -----

  /** The callout deals with a segment that is live and that the span reaches. */
  ghost predicate SegmentHandled(start: World, w: World, q: nat, s: Span, marked: set<nat>) {
    q in w.infos && !w.infos[q].destroying && Reaches(s, w.infos[q].range) ==> SegmentSettled(start, w, q, s, marked)
  }

  lemma HandledStays(start: World, v: World, w: World, q: nat, s: Span, l: Log, m: Log)
    requires LaterWorld(start, v) && LaterWorld(v, w) && Grows(l, m) && SegmentHandled(start, v, q, s, l.marked)
    ensures SegmentHandled(start, w, q, s, m.marked)
  {
    if q in w.infos && !w.infos[q].destroying && Reaches(s, w.infos[q].range) {
      SegmentSettledStays(start, v, w, q, s, l, m);
    }
  }

  ghost predicate AllHandled(start: World, w: World, s: Span, log: Log, done: set<nat>) {
    forall q :: q in done ==> SegmentHandled(start, w, q, s, log.marked)
  }

  lemma AllHandledStays(start: World, v: World, w: World, s: Span, l: Log, m: Log, done: set<nat>)
    requires LaterWorld(start, v) && LaterWorld(v, w) && Grows(l, m) && AllHandled(start, v, s, l, done)
    ensures AllHandled(start, w, s, m, done)
  {
    forall q | q in done ensures SegmentHandled(start, w, q, s, m.marked) {
      HandledStays(start, v, w, q, s, l, m);
    }
  }

  /** The first i segments of the list are done. */
  ghost predicate GroupProgress(start: World, w: World, s: Span, log: Log, i: nat, done: set<nat>) {
    && AllHandled(start, w, s, log, done)
    && i <= |w.segs.list| && (forall j :: 0 <= j < i ==> w.segs.list[j] in done)
  }

  /** One step of the walk over the segments. */
  method SegmentOne(s: Span, ghost start: World, env: seq<seq<Deed>>, k0: nat, w0: World, ghost log0: Log, i0: nat,
                    ghost done0: set<nat>)
    returns (w: World, k: nat, unpinned: nat, ghost log: Log, i: nat, ghost done: set<nat>)
    requires Course(start, env, k0, w0, log0) && PageSpan(s) && i0 < |w0.segs.list|
    requires GroupProgress(start, w0, s, log0, i0, done0)
    ensures Onward(s, start, env, k0, w0, log0, k, w, log, unpinned)
    ensures GroupProgress(start, w, s, log, i, done) && (k == k0 ==> i > i0)
  {
    var q := w0.segs.list[i0];
    w, k, unpinned, log, done := w0, k0, 0, log0, done0 + {q};
    if q !in w.infos || w.infos[q].destroying || !Reaches(s, w.infos[q].range) {
      LaterSelf(w);
      i := i0 + 1;
      return;
    }
    w, k, unpinned, log := ClearAndRelock(q, s, start, env, k, w, log, done0);
    i := 0;
    if q in w.segs.list {
      ResumeSegment(w0.segs, w.segs, i0, done);
      i := IndexOf(w.segs.list, q) + 1;
    }
  }

  method ClearAndRelock(q: nat, s: Span, ghost start: World, env: seq<seq<Deed>>, k0: nat, w0: World, ghost log0: Log,
                        ghost done0: set<nat>)
    returns (w: World, k: nat, unpinned: nat, ghost log: Log)
    requires Course(start, env, k0, w0, log0) && PageSpan(s) && AllHandled(start, w0, s, log0, done0)
    ensures Onward(s, start, env, k0, w0, log0, k, w, log, unpinned) && AllHandled(start, w, s, log, done0 + {q})
  {
    w, k, unpinned, log := ClearSegment(q, s, start, env, k0, w0, log0);
    ghost var k1, w1 := k, w;
    w, k := Relock(s, start, env, k, w, log);
    OnwardTransitive(s, start, env, k0, w0, log0, k1, w1, log, unpinned, k, w, log, 0);
    OneMoreHandled(start, w0, w1, w, q, s, log0, log, done0);
  }

  lemma OneMoreHandled(start: World, w0: World, w1: World, w: World, q: nat, s: Span, l: Log, m: Log, done: set<nat>)
    requires LaterWorld(start, w0) && LaterWorld(w0, w1) && LaterWorld(start, w1) && LaterWorld(w1, w) && Grows(l, m)
    requires AllHandled(start, w0, s, l, done) && SegmentSettled(start, w1, q, s, m.marked)
    ensures AllHandled(start, w, s, m, done + {q})
  {
    AllHandledStays(start, w0, w1, s, l, m, done);
    AllHandledStays(start, w1, w, s, m, m, done + {q});
  }

  /** Every segment that existed when the callout began and is still listed has been dealt with. */
  ghost predicate GroupHandled(start: World, w: World, s: Span, log: Log) {
    forall q :: q in w.segs.list && q in start.segs.used ==> SegmentHandled(start, w, q, s, log.marked)
  }

  lemma GroupHandledStays(start: World, v: World, w: World, s: Span, l: Log, m: Log)
    requires LaterWorld(start, v) && LaterWorld(v, w) && Grows(l, m) && GroupHandled(start, v, s, l)
    ensures GroupHandled(start, w, s, m)
  {
    forall q | q in w.segs.list && q in start.segs.used ensures SegmentHandled(start, w, q, s, m.marked) {
      HandledStays(start, v, w, q, s, l, m);
    }
  }

  /** Segment q was there when the callout began, still is, is live, and the span reaches it. */
  predicate Concerned(start: World, w: World, q: nat, s: Span) {
    && q in w.segs.list && q in start.segs.used
    && q in w.infos && !w.infos[q].destroying && Reaches(s, w.infos[q].range)
  }

  ghost predicate GroupDealt(start: World, env: seq<seq<Deed>>, k: nat, w: World, s: Span) {
    forall q :: Concerned(start, w, q, s) ==> SegmentDealt(start, env, k, w, q, s)
  }

  lemma HandledIsDealt(start: World, env: seq<seq<Deed>>, k: nat, w: World, log: Log, s: Span)
    requires Course(start, env, k, w, log) && GroupHandled(start, w, s, log)
    ensures GroupDealt(start, env, k, w, s)
  {
    forall q: nat | Concerned(start, w, q, s)
      ensures SegmentDealt(start, env, k, w, q, s)
    {
      assert SegmentHandled(start, w, q, s, log.marked);
      SettledIsDealt(start, env, k, w, log, q, s);
    }
  }

  /** xpmem_invalidate_PTEs_range(): the segments of the group. */
  method ClearGroup(s: Span, ghost start: World, env: seq<seq<Deed>>, k0: nat, w0: World, ghost log0: Log)
    returns (w: World, k: nat, unpinned: nat, ghost log: Log)
    requires Course(start, env, k0, w0, log0) && PageSpan(s)
    ensures Onward(s, start, env, k0, w0, log0, k, w, log, unpinned) && GroupHandled(start, w, s, log)
    ensures GroupDealt(start, env, k, w, s)
  {
    w, k, unpinned, log := w0, k0, 0, log0;
    LaterSelf(w);
    var i: nat := 0;
    ghost var done: set<nat> := {};
    while i < |w.segs.list|
      invariant Onward(s, start, env, k0, w0, log0, k, w, log, unpinned) && GroupProgress(start, w, s, log, i, done)
      decreases |env| - k, |w.segs.list| - i
    {
      ghost var k1, w1, log1 := k, w, log;
      var n;
      w, k, n, log, i, done := SegmentOne(s, start, env, k, w, log, i, done);
      OnwardTransitive(s, start, env, k0, w0, log0, k1, w1, log1, unpinned, k, w, log, n);
      unpinned := unpinned + n;
    }
    HandledIsDealt(start, env, k, w, log, s);
  }
}
