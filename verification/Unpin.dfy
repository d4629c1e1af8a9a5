/**
 The page-table walk and the hole-skipping unpin loop, for page tables of any number
 of levels.

 A table is a tree of directories; level sizes are listed from the top, each a multiple
 of the next, the last the page size.  A directory is keyed by address divided by level
 size.  XPMEM maps attachments with base pages only, so leaves are at the last level.
 */
module Unpin {
  import opened Words

  datatype Node = Leaf(pfn: nat) | Dir(entries: map<nat, Node>)

  datatype Probe = Hole(size: nat) | Found(pfn: nat)

  /** Each level size is a multiple of the next. */
  ghost predicate Chain(sizes: seq<nat>) {
    && (forall i :: 0 <= i < |sizes| ==> sizes[i] > 0)
    && (forall i :: 0 <= i < |sizes| - 1 ==> sizes[i] % sizes[i + 1] == 0)
  }

  ghost predicate Geometry(sizes: seq<nat>) {
    sizes != [] && sizes[|sizes| - 1] == PAGE && Chain(sizes)
  }

  ghost predicate Shaped(node: Node, depth: nat)
    decreases depth
  {
    if depth == 0 then node.Leaf?
    else node.Dir? && forall i :: i in node.entries ==> Shaped(node.entries[i], depth - 1)
  }

  /** xpmem_vaddr_to_pte_size(): the page's frame, or the size of the level that has no entry. */
  function Walk(node: Node, vaddr: nat, sizes: seq<nat>): (r: Probe)
    requires Shaped(node, |sizes|) && Chain(sizes)
    ensures r.Hole? ==> r.size > 0
    decreases |sizes|
  {
    if sizes == [] then Found(node.pfn)
    else if vaddr / sizes[0] !in node.entries then Hole(sizes[0])
    else Walk(node.entries[vaddr / sizes[0]], vaddr, sizes[1..])
  }

  /** Address space of a process that has attachments. */
  datatype Mm = Mm(root: Node, sizes: seq<nat>)
  {
    ghost predicate Valid() {
      Geometry(sizes) && Shaped(root, |sizes|)
    }

    function Probe(vaddr: nat): Probe
      requires Valid()
    {
      Walk(root, vaddr, sizes)
    }
  }

  // ----- What the table says -----

  /** Nodes from the root down, each the entry of v in the directory before. */
  ghost predicate Path(nodes: seq<Node>, root: Node, v: nat, sizes: seq<nat>)
    requires Chain(sizes)
  {
    && 0 < |nodes| <= |sizes| + 1 && nodes[0] == root
    && (forall i :: 0 < i < |nodes| ==> Entry(nodes[i - 1], v / sizes[i - 1], nodes[i]))
  }

  ghost predicate Entry(dir: Node, key: nat, node: Node) {
    dir.Dir? && key in dir.entries && dir.entries[key] == node
  }

  /** The table has frame pfn for v: a path of all levels ends in its leaf. */
  ghost predicate Reaches(root: Node, v: nat, sizes: seq<nat>, pfn: nat)
    requires Chain(sizes)
  {
    exists nodes: seq<Node> :: Path(nodes, root, v, sizes) && |nodes| == |sizes| + 1 && nodes[|sizes|] == Leaf(pfn)
  }

  /** The path of v breaks at level i: the directory there has no entry for v. */
  ghost predicate Breaks(root: Node, v: nat, sizes: seq<nat>, i: nat)
    requires Chain(sizes)
  {
    && i < |sizes|
    && exists nodes: seq<Node> :: Path(nodes, root, v, sizes) && |nodes| == i + 1 && nodes[i].Dir?
                       && v / sizes[i] !in nodes[i].entries
  }

  lemma PathDown(nodes: seq<Node>, root: Node, v: nat, sizes: seq<nat>)
    requires Chain(sizes) && Path(nodes, root, v, sizes) && |nodes| > 1
    ensures Path(nodes[1..], nodes[1], v, sizes[1..]) && Entry(root, v / sizes[0], nodes[1])
  {
    assert Entry(nodes[0], v / sizes[0], nodes[1]);
    forall i | 0 < i < |nodes[1..]| ensures Entry(nodes[1..][i - 1], v / sizes[1..][i - 1], nodes[1..][i]) {
      assert Entry(nodes[i], v / sizes[i], nodes[i + 1]);
    }
  }

  lemma PathUp(nodes: seq<Node>, root: Node, next: Node, v: nat, sizes: seq<nat>)
    requires Chain(sizes) && sizes != [] && Path(nodes, next, v, sizes[1..]) && Entry(root, v / sizes[0], next)
    ensures Path([root] + nodes, root, v, sizes)
  {
    var all := [root] + nodes;
    forall i | 0 < i < |all| ensures Entry(all[i - 1], v / sizes[i - 1], all[i]) {
      if i > 1 {
        assert Entry(nodes[i - 2], v / sizes[1..][i - 2], nodes[i - 1]);
      }
    }
  }

  /** The walk finds a frame exactly if the table has it. */
  lemma {:induction false} WalkFindsIff(root: Node, v: nat, sizes: seq<nat>, pfn: nat)
    requires Shaped(root, |sizes|) && Chain(sizes)
    ensures Walk(root, v, sizes) == Found(pfn) <==> Reaches(root, v, sizes, pfn)
    decreases |sizes|
  {
    if sizes == [] {
      assert Path([root], root, v, sizes);
    } else if v / sizes[0] in root.entries {
      var next := root.entries[v / sizes[0]];
      WalkFindsIff(next, v, sizes[1..], pfn);
      if nodes: seq<Node> :| Path(nodes, next, v, sizes[1..]) && |nodes| == |sizes| && nodes[|sizes| - 1] == Leaf(pfn) {
        PathUp(nodes, root, next, v, sizes);
        assert ([root] + nodes)[|sizes|] == Leaf(pfn);
      }
      if nodes: seq<Node> :| Path(nodes, root, v, sizes) && |nodes| == |sizes| + 1 && nodes[|sizes|] == Leaf(pfn) {
        PathDown(nodes, root, v, sizes);
        assert nodes[1..][|sizes| - 1] == Leaf(pfn);
      }
    } else if nodes: seq<Node> :| Path(nodes, root, v, sizes) && |nodes| == |sizes| + 1 {
      PathDown(nodes, root, v, sizes);
    }
  }

  /** It reports a hole of a size exactly if the path breaks at a level of that size. */
  lemma {:induction false} WalkBreaksIff(root: Node, v: nat, sizes: seq<nat>, size: nat)
    requires Shaped(root, |sizes|) && Chain(sizes)
    ensures Walk(root, v, sizes) == Hole(size) <==> exists i: nat :: Breaks(root, v, sizes, i) && sizes[i] == size
    decreases |sizes|
  {
    if sizes != [] && v / sizes[0] in root.entries {
      var next := root.entries[v / sizes[0]];
      WalkBreaksIff(next, v, sizes[1..], size);
      if i: nat :| Breaks(next, v, sizes[1..], i) && sizes[1..][i] == size {
        BreaksUp(root, next, v, sizes, i);
      }
      if i: nat :| Breaks(root, v, sizes, i) && sizes[i] == size {
        BreaksDown(root, next, v, sizes, i);
      }
    } else if sizes != [] {
      BreaksAtTop(root, v, sizes);
    }
  }

  lemma BreaksAtTop(root: Node, v: nat, sizes: seq<nat>)
    requires Chain(sizes) && sizes != [] && root.Dir? && v / sizes[0] !in root.entries
    ensures forall i: nat :: Breaks(root, v, sizes, i) <==> i == 0
  {
    assert Path([root], root, v, sizes);
    forall i: nat ensures Breaks(root, v, sizes, i) <==> i == 0 {
      if Breaks(root, v, sizes, i) && i > 0 {
        var nodes: seq<Node> :| Path(nodes, root, v, sizes) && |nodes| == i + 1;
        PathDown(nodes, root, v, sizes);
      }
    }
  }

  lemma BreaksUp(root: Node, next: Node, v: nat, sizes: seq<nat>, i: nat)
    requires Chain(sizes) && sizes != [] && Entry(root, v / sizes[0], next) && Breaks(next, v, sizes[1..], i)
    ensures Breaks(root, v, sizes, i + 1)
  {
    var nodes: seq<Node> :| Path(nodes, next, v, sizes[1..]) && |nodes| == i + 1 && nodes[i].Dir?
                 && v / sizes[1..][i] !in nodes[i].entries;
    PathUp(nodes, root, next, v, sizes);
    assert ([root] + nodes)[i + 1] == nodes[i];
  }

  lemma BreaksDown(root: Node, next: Node, v: nat, sizes: seq<nat>, i: nat)
    requires Chain(sizes) && sizes != [] && Entry(root, v / sizes[0], next) && Breaks(root, v, sizes, i)
    ensures i > 0 && Breaks(next, v, sizes[1..], i - 1)
  {
    var nodes: seq<Node> :| Path(nodes, root, v, sizes) && |nodes| == i + 1 && nodes[i].Dir?
                 && v / sizes[i] !in nodes[i].entries;
    if i > 0 {
      PathDown(nodes, root, v, sizes);
      assert nodes[1..][i - 1] == nodes[i];
    }
  }

  /** The table of mm has frame pfn for the page at v. */
  ghost predicate Present(mm: Mm, v: nat, pfn: nat)
    requires mm.Valid()
  {
    Reaches(mm.root, v, mm.sizes, pfn)
  }

  ghost predicate HasPage(mm: Mm, v: nat)
    requires mm.Valid()
  {
    exists pfn: nat :: Present(mm, v, pfn)
  }

  lemma FoundIffHasPage(mm: Mm, v: nat)
    requires mm.Valid()
    ensures mm.Probe(v).Found? <==> HasPage(mm, v)
  {
    if HasPage(mm, v) {
      var pfn: nat :| Present(mm, v, pfn);
      WalkFindsIff(mm.root, v, mm.sizes, pfn);
    } else if mm.Probe(v).Found? {
      var pfn := mm.Probe(v).pfn;
      WalkFindsIff(mm.root, v, mm.sizes, pfn);
      assert Present(mm, v, pfn);
    }
  }

  // ----- The reference: a page-by-page scan -----

  /** The present pages among n pages from vaddr, with their frames. */
  function Scan(mm: Mm, vaddr: nat, n: nat): seq<(nat, nat)>
    requires mm.Valid()
    decreases n
  {
    if n == 0 then []
    else
      (if mm.Probe(vaddr).Found? then [(vaddr, mm.Probe(vaddr).pfn)] else []) + Scan(mm, vaddr + PAGE, n - 1)
  }

  /** Address v begins one of the n pages from vaddr. */
  ghost predicate OnPages(vaddr: nat, n: nat, v: nat) {
    exists i :: 0 <= i < n && v == vaddr + i * PAGE
  }

  /** The scan lists exactly the pages of the range that the table has, each with its frame. */
  lemma ScanExact(mm: Mm, vaddr: nat, n: nat, v: nat, pfn: nat)
    requires mm.Valid()
    ensures (v, pfn) in Scan(mm, vaddr, n) <==>
            OnPages(vaddr, n, v) && Present(mm, v, pfn)
  {
    ScanProbes(mm, vaddr, n, v, pfn);
    WalkFindsIff(mm.root, v, mm.sizes, pfn);
  }

  lemma ScannedExactly(mm: Mm, vaddr: nat, n: nat)
    requires mm.Valid()
    ensures forall v: nat, pfn: nat :: (v, pfn) in Scan(mm, vaddr, n) <==> OnPages(vaddr, n, v) && Present(mm, v, pfn)
  {
    forall v: nat, pfn: nat ensures (v, pfn) in Scan(mm, vaddr, n) <==> OnPages(vaddr, n, v) && Present(mm, v, pfn) {
      ScanExact(mm, vaddr, n, v, pfn);
    }
  }

  lemma {:induction false} ScanProbes(mm: Mm, vaddr: nat, n: nat, v: nat, pfn: nat)
    requires mm.Valid()
    ensures (v, pfn) in Scan(mm, vaddr, n) <==>
            (exists i :: 0 <= i < n && v == vaddr + i * PAGE) && mm.Probe(v) == Found(pfn)
    decreases n
  {
    if n > 0 {
      ScanProbes(mm, vaddr + PAGE, n - 1, v, pfn);
      if i :| 0 <= i < n && v == vaddr + i * PAGE {
        if i > 0 {
          assert v == (vaddr + PAGE) + (i - 1) * PAGE;
        }
      }
      if i :| 0 <= i < n - 1 && v == (vaddr + PAGE) + i * PAGE {
        assert v == vaddr + (i + 1) * PAGE;
      }
      if v == vaddr {
        assert v == vaddr + 0 * PAGE;
      }
    }
  }

  /** ... each once, in address order. */
  lemma {:induction false} ScanOnce(mm: Mm, vaddr: nat, n: nat)
    requires mm.Valid()
    ensures forall i :: 0 <= i < |Scan(mm, vaddr, n)| ==> Scan(mm, vaddr, n)[i].0 >= vaddr
    ensures forall i, j :: 0 <= i < j < |Scan(mm, vaddr, n)| ==> Scan(mm, vaddr, n)[i].0 < Scan(mm, vaddr, n)[j].0
    decreases n
  {
    if n > 0 {
      ScanOnce(mm, vaddr + PAGE, n - 1);
    }
  }

  // ----- Holes -----

  lemma MulGap(a: nat, b: nat, k: nat)
    requires a < b
    ensures a * k + k <= b * k
  {
    assert b * k == (b - a - 1) * k + (a + 1) * k;
  }

  lemma QuotientUnique(v: nat, d: nat, q: nat, r: nat)
    requires d > 0 && v == q * d + r && r < d
    ensures v / d == q && v % d == r
  {
    if v / d > q {
      MulGap(q, v / d, d);
    } else if v / d < q {
      MulGap(v / d, q, d);
    }
  }

  /** Addresses up to the end of the entry of v belong to that entry. */
  lemma SameQuotient(v: nat, w: nat, k: nat)
    requires k > 0 && v <= w < v / k * k + k
    ensures w / k == v / k
  {
    QuotientUnique(w, k, v / k, w - v / k * k);
  }

  lemma DivDiv(v: nat, k: nat, c: nat)
    requires k > 0 && c > 0
    ensures c * k > 0 && v / (c * k) == v / k / c
  {
    var q, r := v / k, v % k;
    var p, s := q / c, q % c;
    MulGap(s, c, k);
    calc {
      v;
      q * k + r;
      (p * c + s) * k + r;
      p * c * k + s * k + r;
      p * (c * k) + (s * k + r);
    }
    QuotientUnique(v, c * k, p, s * k + r);
  }

  /** Addresses that agree at a level agree at every coarser one. */
  lemma CoarserQuotient(v: nat, w: nat, k: nat, big: nat)
    requires k > 0 && big > 0 && big % k == 0 && v / k == w / k
    ensures v / big == w / big
  {
    var c := big / k;
    assert big == c * k;
    assert c > 0;
    DivDiv(v, k, c);
    DivDiv(w, k, c);
  }

  lemma ModTrans(a: nat, b: nat, c: nat)
    requires b > 0 && c > 0 && a % b == 0 && b % c == 0
    ensures a % c == 0
  {
    var x, y := a / b, b / c;
    assert a == x * b && b == y * c;
    assert a == (x * y) * c;
    QuotientUnique(a, c, x * y, 0);
  }

  lemma DivisorFits(a: nat, b: nat)
    requires a > 0 && b > 0 && a % b == 0
    ensures b <= a
  {
    if a < b {
      QuotientUnique(a, b, 0, a);
    }
  }

  /** The size of a hole is a level size that divides the top one. */
  lemma {:induction false} HoleSizes(node: Node, v: nat, sizes: seq<nat>)
    requires Shaped(node, |sizes|) && Chain(sizes) && Walk(node, v, sizes).Hole?
    ensures sizes != [] && Walk(node, v, sizes).size in sizes && sizes[0] % Walk(node, v, sizes).size == 0
    decreases |sizes|
  {
    if v / sizes[0] in node.entries {
      HoleSizes(node.entries[v / sizes[0]], v, sizes[1..]);
      assert sizes[1..][0] == sizes[1];
      ModTrans(sizes[0], sizes[1], Walk(node, v, sizes).size);
    }
  }

  /** A hole found at one address is a hole for every address of the same entry. */
  lemma {:induction false} HoleIsWhole(node: Node, v: nat, w: nat, sizes: seq<nat>)
    requires Shaped(node, |sizes|) && Chain(sizes)
    requires Walk(node, v, sizes).Hole?
    requires w / Walk(node, v, sizes).size == v / Walk(node, v, sizes).size
    ensures Walk(node, w, sizes) == Walk(node, v, sizes)
    decreases |sizes|
  {
    var k := Walk(node, v, sizes).size;
    HoleSizes(node, v, sizes);
    CoarserQuotient(v, w, k, sizes[0]);
    if v / sizes[0] in node.entries {
      HoleIsWhole(node.entries[v / sizes[0]], v, w, sizes[1..]);
    }
  }

  // ----- The loop -----

  /** num_of_pages(): pages that size bytes from vaddr touch. */
  function NumOfPages(vaddr: nat, size: nat): nat {
    (vaddr % PAGE + size + (PAGE - 1)) / PAGE
  }

  /** It is the pages from the first byte's to the last byte's; an empty range touches the page in
      whose middle it lies. */
  lemma NumOfPagesTouched(vaddr: nat, size: nat)
    ensures size > 0 ==> NumOfPages(vaddr, size) == (vaddr + size - 1) / PAGE - vaddr / PAGE + 1
    ensures size == 0 ==> NumOfPages(vaddr, size) == if vaddr % PAGE == 0 then 0 else 1
  {
  }

  /** The page count as the loop sees it, held in a 32-bit int. */
  function PageCount(vaddr: nat, size: nat): nat {
    Window(NumOfPages(vaddr, size))
  }

  /** The int holds the page count exactly for ranges below 2^31 pages (8 TB). */
  lemma PageCountExactIff(vaddr: nat, size: nat)
    ensures PageCount(vaddr, size) == NumOfPages(vaddr, size) <==> NumOfPages(vaddr, size) < TWO31
  {
  }

  /** The next address that can have a page, after a hole of the given size. */
  function PastHole(vaddr: nat, size: nat): nat
    requires size > 0
  {
    (vaddr + size) / size * size
  }

  datatype Loop = Loop(vaddr: nat, nPgs: int, released: seq<(nat, nat)>)

  /** One iteration of the loop of xpmem_unpin_pages(). */
  function Iterate(mm: Mm, s: Loop): Loop
    requires mm.Valid()
  {
    if s.nPgs <= 0 then s
    else
      match mm.Probe(s.vaddr)
      case Found(pfn) => Loop(s.vaddr + PAGE, s.nPgs - 1, s.released + [(s.vaddr, pfn)])
      case Hole(size) =>
        var next := PastHole(s.vaddr, size);
        Loop(next, ToInt(s.nPgs - (next - s.vaddr) / PAGE), s.released)
  }

  // ----- One iteration -----

  lemma {:induction false} PageDividesLevels(sizes: seq<nat>, i: nat)
    requires Geometry(sizes) && i < |sizes|
    ensures sizes[i] % PAGE == 0
    decreases |sizes| - i
  {
    if i < |sizes| - 1 {
      PageDividesLevels(sizes, i + 1);
      ModTrans(sizes[i], sizes[i + 1], PAGE);
    }
  }

  lemma HoleSize(mm: Mm, v: nat)
    requires mm.Valid() && mm.Probe(v).Hole?
    ensures mm.Probe(v).size % PAGE == 0
    ensures mm.Probe(v).size <= mm.sizes[0]
  {
    var size := mm.Probe(v).size;
    HoleSizes(mm.root, v, mm.sizes);
    var i :| 0 <= i < |mm.sizes| && mm.sizes[i] == size;
    PageDividesLevels(mm.sizes, i);
    DivisorFits(mm.sizes[0], size);
  }

  lemma MultipleAligned(q: nat, size: nat)
    requires size > 0 && size % PAGE == 0
    ensures (q * size) % PAGE == 0
  {
    var c := size / PAGE;
    assert q * size == (q * c) * PAGE by {
      assert size == c * PAGE;
    }
    QuotientUnique(q * size, PAGE, q * c, 0);
  }

  lemma PastHoleIs(v: nat, size: nat)
    requires size > 0
    ensures v < PastHole(v, size) == v / size * size + size <= v + size
  {
    QuotientUnique(v + size, size, v / size + 1, v % size);
  }

  lemma PastHoleAligned(v: nat, size: nat)
    requires size > 0 && size % PAGE == 0 && v % PAGE == 0
    ensures v < PastHole(v, size) == v / size * size + size <= v + size
    ensures PastHole(v, size) % PAGE == 0
  {
    PastHoleIs(v, size);
    MultipleAligned((v + size) / size, size);
  }

  /** The pages a hole makes the loop skip. */
  function Skipped(v: nat, size: nat): nat
    requires size > 0 && v < PastHole(v, size)
  {
    (PastHole(v, size) - v) / PAGE
  }

  /** Nothing is present in the pages skipped. */
  lemma HoleSkip(mm: Mm, v: nat)
    requires mm.Valid() && v % PAGE == 0 && mm.Probe(v).Hole?
    ensures var size := mm.Probe(v).size;
            && v < PastHole(v, size) && PastHole(v, size) % PAGE == 0
            && 1 <= Skipped(v, size) && Skipped(v, size) * PAGE <= mm.sizes[0]
            && PastHole(v, size) == v + Skipped(v, size) * PAGE
            && forall w :: v <= w < PastHole(v, size) ==> mm.Probe(w).Hole?
  {
    var size := mm.Probe(v).size;
    HoleSize(mm, v);
    PastHoleAligned(v, size);
    forall w | v <= w < PastHole(v, size)
      ensures mm.Probe(w).Hole?
    {
      SameQuotient(v, w, size);
      HoleIsWhole(mm.root, v, w, mm.sizes);
    }
  }

  lemma {:induction false} ScanOverHole(mm: Mm, v: nat, n: nat, j: nat)
    requires mm.Valid() && j <= n
    requires forall w :: v <= w < v + j * PAGE ==> mm.Probe(w).Hole?
    ensures Scan(mm, v, n) == Scan(mm, v + j * PAGE, n - j)
    decreases j
  {
    if j > 0 {
      assert mm.Probe(v).Hole?;
      ScanOverHole(mm, v + PAGE, n - 1, j - 1);
    }
  }

  /** The pages a loop state still has to scan. */
  function Rest(mm: Mm, s: Loop): seq<(nat, nat)>
    requires mm.Valid()
  {
    if s.nPgs <= 0 then [] else Scan(mm, s.vaddr, s.nPgs)
  }

  ghost predicate InRange(s: Loop) {
    s.vaddr % PAGE == 0 && 0 - TWO31 <= s.nPgs < TWO31
  }

  /** The top level's skip, in pages, fits. */
  predicate SkipFits(sizes: seq<nat>)
    requires sizes != []
  {
    sizes[0] <= (TWO31 + 1) * PAGE
  }

  lemma HoleIteration(mm: Mm, s: Loop)
    requires mm.Valid() && SkipFits(mm.sizes) && InRange(s) && s.nPgs > 0 && mm.Probe(s.vaddr).Hole?
    ensures var s', size := Iterate(mm, s), mm.Probe(s.vaddr).size;
            && s.vaddr < PastHole(s.vaddr, size) && Skipped(s.vaddr, size) >= 1
            && s' == Loop(PastHole(s.vaddr, size), s.nPgs - Skipped(s.vaddr, size), s.released)
            && InRange(s')
  {
    HoleSkip(mm, s.vaddr);
  }

  lemma HoleRest(mm: Mm, s: Loop)
    requires mm.Valid() && SkipFits(mm.sizes) && InRange(s) && s.nPgs > 0 && mm.Probe(s.vaddr).Hole?
    ensures Rest(mm, Iterate(mm, s)) == Rest(mm, s)
  {
    HoleSkip(mm, s.vaddr);
    HoleIteration(mm, s);
    var j := Skipped(s.vaddr, mm.Probe(s.vaddr).size);
    if j <= s.nPgs {
      ScanOverHole(mm, s.vaddr, s.nPgs, j);
    } else {
      MulGap(s.nPgs, j, PAGE);
      ScanOverHole(mm, s.vaddr, s.nPgs, s.nPgs);
    }
  }

  /** An iteration makes progress and moves pages from the rest of the scan to the released. */
  lemma IterationExact(mm: Mm, s: Loop)
    requires mm.Valid() && SkipFits(mm.sizes) && InRange(s) && s.nPgs > 0
    ensures var s' := Iterate(mm, s);
            && InRange(s') && s'.nPgs < s.nPgs
            && s'.released + Rest(mm, s') == s.released + Rest(mm, s)
  {
    if mm.Probe(s.vaddr).Hole? {
      HoleIteration(mm, s);
      HoleRest(mm, s);
    } else {
      var page := [(s.vaddr, mm.Probe(s.vaddr).pfn)];
      assert Rest(mm, s) == page + Rest(mm, Iterate(mm, s));
    }
  }

  /** The two counters that xpmem_unpin_pages() keeps. */
  class Books {
    var tgPinned: int       // seg->tg->n_pinned
    var partUnpinned: int   // xpmem_my_part->n_unpinned

    /** xpmem_unpin_pages(): releases exactly the present pages of the range, each once and
        none outside, and counts them. */
    method UnpinPages(mm: Mm, start: nat, size: nat) returns (released: seq<(nat, nat)>)
      requires mm.Valid() && SkipFits(mm.sizes)
      modifies this
      ensures released == Scan(mm, start / PAGE * PAGE, PageCount(start, size))
      ensures forall v: nat, pfn: nat :: (v, pfn) in released <==>
                OnPages(start / PAGE * PAGE, PageCount(start, size), v) && Present(mm, v, pfn)
      ensures tgPinned == old(tgPinned) - |released|
      ensures partUnpinned == old(partUnpinned) + |released|
    {
      var nPgs: int := ToInt(NumOfPages(start, size));
      var nPgsUnpinned := 0;
      var vaddr: nat := start / PAGE * PAGE;
      released := [];
      while nPgs > 0
        invariant InRange(Loop(vaddr, nPgs, released))
        invariant released + Rest(mm, Loop(vaddr, nPgs, released))
                  == Scan(mm, start / PAGE * PAGE, PageCount(start, size))
        invariant nPgsUnpinned == |released|
        invariant tgPinned == old(tgPinned) && partUnpinned == old(partUnpinned)
        decreases nPgs
      {
        IterationExact(mm, Loop(vaddr, nPgs, released));
        match mm.Probe(vaddr) {
          case Found(pfn) =>
            released := released + [(vaddr, pfn)];  // put_page()
            nPgsUnpinned := nPgsUnpinned + 1;
            vaddr := vaddr + PAGE;
            nPgs := nPgs - 1;
          case Hole(vsize) =>
            var next := PastHole(vaddr, vsize);
            nPgs := ToInt(nPgs - (next - vaddr) / PAGE);
            vaddr := next;
        }
      }
      tgPinned := tgPinned - nPgsUnpinned;
      partUnpinned := partUnpinned + nPgsUnpinned;
      ScannedExactly(mm, start / PAGE * PAGE, PageCount(start, size));
    }
  }

  // ----- Which tables the loop is right for -----

  function Iterations(mm: Mm, s: Loop, k: nat): Loop
    requires mm.Valid()
    decreases k
  {
    if k == 0 then s else Iterations(mm, Iterate(mm, s), k - 1)
  }

  /** The loop ends and has released exactly the present pages of the range. */
  ghost predicate EndsExact(mm: Mm, v: nat, n: nat)
    requires mm.Valid()
  {
    exists k :: Iterations(mm, Loop(v, n, []), k).nPgs <= 0
             && Iterations(mm, Loop(v, n, []), k).released == Scan(mm, v, n)
  }

  lemma {:induction false} LoopEnds(mm: Mm, s: Loop) returns (k: nat)
    requires mm.Valid() && SkipFits(mm.sizes) && InRange(s)
    ensures Iterations(mm, s, k).nPgs <= 0 && Iterations(mm, s, k).released == s.released + Rest(mm, s)
    decreases if s.nPgs > 0 then s.nPgs else 0
  {
    if s.nPgs <= 0 {
      k := 0;
    } else {
      IterationExact(mm, s);
      var k' := LoopEnds(mm, Iterate(mm, s));
      k := k' + 1;
    }
  }

  /** A table with one page, at v. */
  function OnePage(sizes: seq<nat>, v: nat): (r: Node)
    requires Chain(sizes)
    ensures Shaped(r, |sizes|)
    decreases |sizes|
  {
    if sizes == [] then Leaf(1) else Dir(map[v / sizes[0] := OnePage(sizes[1..], v)])
  }

  lemma {:induction false} OnePagePresent(sizes: seq<nat>, v: nat)
    requires Chain(sizes)
    ensures Walk(OnePage(sizes, v), v, sizes) == Found(1)
    decreases |sizes|
  {
    if sizes != [] {
      OnePagePresent(sizes[1..], v);
    }
  }

  lemma {:induction false} ReleasedStays(mm: Mm, s: Loop, k: nat)
    requires mm.Valid() && s.released != []
    ensures Iterations(mm, s, k).released != []
    decreases k
  {
    if k > 0 {
      ReleasedStays(mm, Iterate(mm, s), k - 1);
    }
  }

  /** A page-aligned start whose top-level hole is 2^31 + 2 pages long from there. */
  function Brink(sizes: seq<nat>): int
    requires sizes != []
  {
    sizes[0] - (TWO31 + 2) * PAGE
  }

  lemma BrinkAligned(sizes: seq<nat>)
    requires Geometry(sizes) && !SkipFits(sizes)
    ensures Brink(sizes) >= 0 && Brink(sizes) % PAGE == 0 && Brink(sizes) < sizes[0]
  {
    PageDividesLevels(sizes, 0);
  }

  lemma BrinkSkips(sizes: seq<nat>)
    requires Geometry(sizes) && !SkipFits(sizes)
    ensures var mm, v := Mm(OnePage(sizes, sizes[0]), sizes), Brink(sizes);
            v >= 0 && mm.Probe(v).Hole? && Iterate(mm, Loop(v, 1, [])) == Loop(sizes[0], TWO31 - 1, [])
  {
    BrinkAligned(sizes);
    var mm, v, top := Mm(OnePage(sizes, sizes[0]), sizes), Brink(sizes), sizes[0];
    QuotientUnique(top, top, 1, 0);
    QuotientUnique(v, top, 0, v);
    assert mm.Probe(v) == Hole(top);
    PastHoleIs(v, top);
  }

  lemma BrinkIterates(sizes: seq<nat>)
    requires Geometry(sizes) && !SkipFits(sizes)
    ensures var mm, v, top := Mm(OnePage(sizes, sizes[0]), sizes), Brink(sizes), sizes[0];
            && v >= 0 && v % PAGE == 0 && mm.Probe(v).Hole?
            && Iterate(mm, Loop(v, 1, [])) == Loop(top, TWO31 - 1, [])
            && Iterate(mm, Loop(top, TWO31 - 1, [])) == Loop(top + PAGE, TWO31 - 2, [(top, 1)])
  {
    BrinkAligned(sizes);
    BrinkSkips(sizes);
    OnePagePresent(sizes, sizes[0]);
  }

  /** A top-level hole longer than 2^31 + 1 pages wraps the page count to a positive one, and the
      loop goes on behind the range: asked for one page, it releases another outside. */
  lemma WideHoleOvershoots(sizes: seq<nat>)
    requires Geometry(sizes) && !SkipFits(sizes)
    ensures var mm, v := Mm(OnePage(sizes, sizes[0]), sizes), Brink(sizes);
            && v >= 0 && Scan(mm, v, 1) == []
            && Iterations(mm, Loop(v, 1, []), 2).released == [(sizes[0], 1)]
            && !EndsExact(mm, v, 1)
  {
    BrinkIterates(sizes);
    var mm, v, top := Mm(OnePage(sizes, sizes[0]), sizes), Brink(sizes), sizes[0];
    var s0, s1, s2 := Loop(v, 1, []), Loop(top, TWO31 - 1, []), Loop(top + PAGE, TWO31 - 2, [(top, 1)]);
    assert Scan(mm, v, 1) == Scan(mm, v + PAGE, 0);
    assert Iterations(mm, s0, 2) == Iterations(mm, s1, 1) == Iterations(mm, s2, 0);
    forall k: nat
      ensures Iterations(mm, s0, k).nPgs <= 0 ==> Iterations(mm, s0, k).released != []
    {
      if k >= 2 {
        assert Iterations(mm, s0, k) == Iterations(mm, s1, k - 1) == Iterations(mm, s2, k - 2);
        ReleasedStays(mm, s2, k - 2);
      } else if k == 1 {
        assert Iterations(mm, s0, 1) == Iterations(mm, s1, 0);
      }
    }
  }

  /** An empty table whose top level spans a multiple of 2^32 pages keeps the loop going for ever. */
  lemma {:induction false} WideHolesNeverEnd(sizes: seq<nat>, s: Loop, k: nat)
    requires Geometry(sizes) && sizes[0] / PAGE % TWO32 == 0
    requires s.vaddr % sizes[0] == 0 && 0 < s.nPgs < TWO31
    ensures Iterations(Mm(Dir(map[]), sizes), s, k).nPgs == s.nPgs
    decreases k
  {
    if k > 0 {
      WideHoleKeepsCount(sizes, s);
      WideHolesNeverEnd(sizes, Iterate(Mm(Dir(map[]), sizes), s), k - 1);
    }
  }

  /** From any start: the skip of the first hole ends the loop, or it goes on for ever. */
  lemma WideHolesEndIff(sizes: seq<nat>, s: Loop)
    requires Geometry(sizes) && sizes[0] / PAGE % TWO32 == 0 && 0 < s.nPgs < TWO31
    ensures (exists k: nat :: Iterations(Mm(Dir(map[]), sizes), s, k).nPgs <= 0) <==>
            ToInt(s.nPgs - (PastHole(s.vaddr, sizes[0]) - s.vaddr) / PAGE) <= 0
  {
    var mm := Mm(Dir(map[]), sizes);
    var next := Iterate(mm, s);
    FirstWideHole(sizes, s);
    if next.nPgs <= 0 {
      assert Iterations(mm, s, 1) == Iterations(mm, next, 0);
    } else {
      forall k: nat ensures Iterations(mm, s, k).nPgs > 0 {
        if k > 0 {
          WideHolesNeverEnd(sizes, next, k - 1);
        }
      }
    }
  }

  lemma FirstWideHole(sizes: seq<nat>, s: Loop)
    requires Geometry(sizes) && s.nPgs > 0
    ensures var next := PastHole(s.vaddr, sizes[0]);
            && Iterate(Mm(Dir(map[]), sizes), s) == Loop(next, ToInt(s.nPgs - (next - s.vaddr) / PAGE), s.released)
            && next % sizes[0] == 0
    ensures Iterate(Mm(Dir(map[]), sizes), s).nPgs < TWO31
  {
    var top := sizes[0];
    assert Mm(Dir(map[]), sizes).Probe(s.vaddr) == Hole(top);
    PastHoleIs(s.vaddr, top);
    QuotientUnique(PastHole(s.vaddr, top), top, s.vaddr / top + 1, 0);
  }

  lemma WideHoleKeepsCount(sizes: seq<nat>, s: Loop)
    requires Geometry(sizes) && sizes[0] / PAGE % TWO32 == 0
    requires s.vaddr % sizes[0] == 0 && 0 < s.nPgs < TWO31
    ensures Iterate(Mm(Dir(map[]), sizes), s) == Loop(s.vaddr + sizes[0], s.nPgs, s.released)
    ensures (s.vaddr + sizes[0]) % sizes[0] == 0
  {
    var mm, top := Mm(Dir(map[]), sizes), sizes[0];
    assert mm.Probe(s.vaddr) == Hole(top);
    PastHoleIs(s.vaddr, top);
    assert PastHole(s.vaddr, top) == s.vaddr + top;
    QuotientUnique(s.vaddr + top, top, s.vaddr / top + 1, 0);
    WideSkipKeeps(s.nPgs, top / PAGE);
  }

  lemma WideSkipKeeps(n: int, skip: nat)
    requires 0 <= n < TWO31 && skip % TWO32 == 0
    ensures ToInt(n - skip) == n
  {
  }

  /** For a given geometry the loop is right on every table, range start and page count exactly
      when the top level's skip fits. */
  lemma LoopExactIffSkipFits(sizes: seq<nat>)
    requires Geometry(sizes)
    ensures SkipFits(sizes) <==>
            forall root: Node, v: nat, n: nat :: Shaped(root, |sizes|) && v % PAGE == 0 && n < TWO31 ==>
              EndsExact(Mm(root, sizes), v, n)
  {
    if SkipFits(sizes) {
      forall root: Node, v: nat, n: nat | Shaped(root, |sizes|) && v % PAGE == 0 && n < TWO31
        ensures EndsExact(Mm(root, sizes), v, n)
      {
        var mm := Mm(root, sizes);
        var k := LoopEnds(mm, Loop(v, n, []));
        assert Rest(mm, Loop(v, n, [])) == Scan(mm, v, n);
      }
    } else {
      BrinkIterates(sizes);
      WideHoleOvershoots(sizes);
      var root := OnePage(sizes, sizes[0]);
      assert Shaped(root, |sizes|) && !EndsExact(Mm(root, sizes), Brink(sizes), 1);
    }
  }

  /** Four levels of 4 KB, 2 MB, 1 GB and 512 GB fit; a fifth of 256 TB does not, and skipping it
      leaves the page count as it was. */
  lemma FourLevelsFitFiveDoNot(n: int)
    requires 0 - TWO31 <= n < TWO31
    ensures Geometry([0x80_0000_0000, 0x4000_0000, 0x20_0000, 0x1000])
         && SkipFits([0x80_0000_0000, 0x4000_0000, 0x20_0000, 0x1000])
    ensures var five := [0x1_0000_0000_0000, 0x80_0000_0000, 0x4000_0000, 0x20_0000, 0x1000];
            Geometry(five) && !SkipFits(five) && ToInt(n - five[0] / PAGE) == n
  {
    FourLevels();
    FiveLevels();
    WholeTurns(n, 0x1_0000_0000_0000 / PAGE);
  }

  lemma FourLevels()
    ensures var four := [0x80_0000_0000, 0x4000_0000, 0x20_0000, 0x1000]; Geometry(four) && SkipFits(four)
  {
  }

  lemma FiveLevels()
    ensures var five := [0x1_0000_0000_0000, 0x80_0000_0000, 0x4000_0000, 0x20_0000, 0x1000];
            Geometry(five) && !SkipFits(five)
  {
  }

  lemma WholeTurns(n: int, skip: nat)
    requires 0 - TWO31 <= n < TWO31 && skip % TWO32 == 0
    ensures ToInt(n - skip) == n
  {
  }
}
