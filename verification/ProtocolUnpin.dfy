/**
 The pages that the protocol's clears and detaches visit are those that the hole-skipping loop
 releases, for page tables whose top level fits.
 */
module ProtocolUnpin {
  import opened Words
  import opened Protocol
  import Unpin

  /** Page table mm has the pages of an attachment at address base. */
  ghost predicate Maps(mm: Unpin.Mm, base: nat, pages: set<nat>, lo: nat, hi: nat)
    requires mm.Valid()
  {
    forall i :: lo <= i < hi ==> (i in pages <==> Unpin.HasPage(mm, base + i * PAGE))
  }

  lemma SliceFirst(pages: set<nat>, lo: nat, hi: nat)
    requires lo < hi
    ensures |Slice(pages, lo, hi)| == |Slice(pages, lo + 1, hi)| + (if lo in pages then 1 else 0)
  {
    var rest := Slice(pages, lo + 1, hi);
    assert Slice(pages, lo, hi) == if lo in pages then rest + {lo} else rest;
  }

  lemma {:induction false} ScanCounts(mm: Unpin.Mm, base: nat, pages: set<nat>, lo: nat, n: nat)
    requires mm.Valid() && Maps(mm, base, pages, lo, lo + n)
    ensures |Unpin.Scan(mm, base + lo * PAGE, n)| == |Slice(pages, lo, lo + n)|
    decreases n
  {
    if n == 0 {
      assert Slice(pages, lo, lo) == {};
    } else {
      ScanCounts(mm, base, pages, lo + 1, n - 1);
      assert base + lo * PAGE + PAGE == base + (lo + 1) * PAGE;
      SliceFirst(pages, lo, lo + n);
      Unpin.FoundIffHasPage(mm, base + lo * PAGE);
    }
  }

  /** xpmem_unpin_pages() over n pages from page lo releases as many pages as the machine counts. */
  lemma LoopReleasesVisited(mm: Unpin.Mm, base: nat, pages: set<nat>, lo: nat, n: nat)
    requires mm.Valid() && Aligned(base) && Maps(mm, base, pages, lo, lo + n)
    ensures var start := base + lo * PAGE;
            |Unpin.Scan(mm, start / PAGE * PAGE, Unpin.PageCount(start, n * PAGE))| == |Slice(pages, lo, lo + Window(n))|
  {
    var start := base + lo * PAGE;
    assert start / PAGE * PAGE == start;
    assert Unpin.PageCount(start, n * PAGE) == Window(n);
    ScanCounts(mm, base, pages, lo, Window(n));
  }
}
