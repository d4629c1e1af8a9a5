/**
 Address arithmetic: the range a segment is made with, the range an attachment covers,
 the translation of a fault address to the source, and the translation of a source range
 to the attached pages that are cleared.  All sums wrap at 64 bits, as in the source.
 */
module Ranges {
  import opened Words

  const MAXADDR_SIZE: nat := TWO64 - 1

  datatype Result<T> = Ok(value: T) | Einval

  datatype Segment = Segment(vaddr: nat, size: nat)

  /** What the translation claims need of a segment: page aligned and inside the address space. */
  predicate Sane(seg: Segment) {
    Aligned(seg.vaddr) && Aligned(seg.size) && seg.vaddr + seg.size < TWO63
  }

  /** xpmem_make(): the range check, the clamp and the alignment test. */
  method Make(vaddr: nat, size0: nat, addrLimit: nat) returns (r: Result<Segment>)
    requires U64(vaddr) && U64(size0) && U64(addrLimit)
    ensures r.Ok? ==> r.value.vaddr == vaddr && Aligned(vaddr) && Aligned(r.value.size)
    // without wrap-around: accepted exactly as documented, and clamped only to the limit
    ensures vaddr + size0 < TWO64 ==>
              (r.Ok? <==> && size0 != 0 && Aligned(vaddr)
                          && ((vaddr + size0 <= addrLimit && Aligned(size0))
                              || (size0 == MAXADDR_SIZE && size0 > addrLimit && Aligned(addrLimit))))
    ensures vaddr + size0 < TWO64 && r.Ok? ==> r.value.size == (if vaddr + size0 <= addrLimit then size0 else addrLimit)
    // with wrap-around: accepted if the wrapped end is below the limit, or the whole space is asked
    // for from a page more than one byte above it
    ensures vaddr + size0 >= TWO64 ==>
              (r.Ok? <==> && Aligned(vaddr)
                          && ((vaddr + size0 - TWO64 <= addrLimit && Aligned(size0))
                              || (size0 == MAXADDR_SIZE && vaddr - 1 > addrLimit && Aligned(addrLimit))))
    ensures vaddr + size0 >= TWO64 && r.Ok? ==>
              r.value.size == (if vaddr + size0 - TWO64 <= addrLimit then size0 else addrLimit + TWO64 - vaddr)
    // an accepted segment lies below the limit exactly if the request did not wrap around
    ensures r.Ok? ==> (vaddr + r.value.size <= addrLimit <==> vaddr + size0 < TWO64)
  {
    var size := size0;
    if size == 0 {
      return Einval;
    }
    if Wrap(vaddr + size) > addrLimit {
      if size != MAXADDR_SIZE {
        return Einval;
      }
      size := Wrap(addrLimit - vaddr);
    }
    if !Aligned(vaddr) || !Aligned(size) {
      return Einval;
    }
    r := Ok(Segment(vaddr, size));
  }

  /** Whatever the limit, a request that wraps around is accepted and ends above it. */
  method MakeBeyondLimit(addrLimit: nat) returns (r: Result<Segment>)
    requires U64(addrLimit)
    ensures r == Ok(Segment(PAGE, TWO64 - PAGE)) && r.value.vaddr + r.value.size > addrLimit
  {
    r := Make(PAGE, TWO64 - PAGE, addrLimit);
  }

  datatype Attachment = Attachment(vaddr: nat, atVaddr: nat, atSize: nat)

  /** Whole pages, at least one, attached inside the address space. */
  predicate Laid(att: Attachment) {
    && Aligned(att.vaddr) && Aligned(att.atSize) && Aligned(att.atVaddr)
    && att.atSize > 0 && U64(att.vaddr) && att.atVaddr + att.atSize < TWO63
  }

  /** The source range lies inside the segment. */
  predicate Established(seg: Segment, att: Attachment) {
    Laid(att) && seg.vaddr <= att.vaddr && att.vaddr + att.atSize <= seg.vaddr + seg.size
  }

  /** What vm_mmap() answers: an error, or a page-aligned place for the mapping. */
  datatype Mapping = MapError | MapAt(at: nat)

  /** The contract of vm_mmap(): it refuses sizes above TASK_SIZE and maps inside it. */
  predicate MmapContract(m: Mapping, size: nat, taskSize: nat) {
    m.MapAt? ==> size <= taskSize && Aligned(m.at) && m.at + size <= taskSize
  }

  /** The size that xpmem_attach() rounds up to whole pages; the last partial page of the 64-bit
      range wraps around to zero, which is then refused. */
  function RoundedSize(size: nat): (r: nat)
    requires U64(size)
    ensures U64(r) && Aligned(r) && (r == 0 || size <= r < size + PAGE)
    ensures size < TWO63 ==> size <= r < size + PAGE
  {
    if size % PAGE != 0 then Wrap(size + (PAGE - size % PAGE)) else size
  }

  /** What xpmem_make() guarantees of every segment, wrapped around or not. */
  predicate PageSegment(seg: Segment) {
    U64(seg.vaddr) && U64(seg.size) && Aligned(seg.vaddr) && Aligned(seg.size)
  }

  /** xpmem_validate_access(): the range part.  The 64-bit sum can only wrap around for sizes
      that no mapping can have. */
  function ValidateAccess(seg: Segment, offset: int, size: nat): (r: Result<nat>)
    requires U64(seg.vaddr) && U64(seg.size) && 0 - TWO63 <= offset < TWO63 && U64(size)
    ensures size < TWO63 ==> (r.Ok? <==> offset >= 0 && size > 0 && offset + size <= seg.size)
    ensures r.Ok? ==> offset >= 0 && size > 0 && U64(r.value) && (seg.vaddr + offset - r.value) % TWO64 == 0
    ensures r.Ok? ==> (r.value == seg.vaddr + offset <==> seg.vaddr + offset < TWO64)
  {
    if offset < 0 || size == 0 || Wrap(offset + size) > seg.size then Einval
    else Ok(Wrap(seg.vaddr + offset))
  }

  lemma WrappedAligned(x: nat)
    requires Aligned(x)
    ensures Aligned(Wrap(x))
  {
  }

  lemma EstablishedIff(seg: Segment, offset: nat, size: nat, at: nat)
    requires PageSegment(seg) && Aligned(offset) && offset < TWO63 && Aligned(size) && size > 0
    requires offset + size <= seg.size && Aligned(at) && at + size < TWO63
    ensures var att := Attachment(Wrap(seg.vaddr + offset), at, size);
            Established(seg, att) <==> seg.vaddr + offset < TWO64
  {
    WrappedAligned(seg.vaddr + offset);
  }

  /** Two ranges of one size have an address in common. */
  ghost predicate Overlap(x: nat, y: nat, size: nat) {
    exists v :: Within(x, size, v) && Within(y, size, v)
  }

  predicate Within(x: nat, size: nat, v: nat) {
    x <= v < x + size
  }

  /** What xpmem_attach() may be asked for, besides what vm_mmap() has to say: pages of the segment,
      at a place of the kernel's choice or at a page below the last of the task, or, since the sum
      wraps around, at the last page of the 64-bit space; and one's own memory not over itself. */
  ghost predicate Attachable(seg: Segment, vaddr: nat, offset: int, size: nat, own: bool, taskSize: nat) {
    && Aligned(vaddr) && (vaddr == 0 || vaddr + PAGE < taskSize || vaddr == TWO64 - PAGE)
    && offset >= 0 && Aligned(offset) && 0 < size && offset + size <= seg.size
    && !(own && vaddr != 0 && Collides(vaddr, Wrap(seg.vaddr + offset), size))
  }

  /** The overlap test, whose sums wrap around. */
  predicate Collides(vaddr: nat, source: nat, size: nat) {
    Wrap(vaddr + size) > source && vaddr < Wrap(source + size)
  }

  /** Unless a sum wraps around, it is right. */
  lemma CollidesIffOverlap(vaddr: nat, source: nat, size: nat)
    requires size > 0 && vaddr + size < TWO64 && source + size < TWO64
    ensures Collides(vaddr, source, size) <==> Overlap(vaddr, source, size)
  {
    if Collides(vaddr, source, size) {
      var v := Max(vaddr, source);
      assert Within(vaddr, size, v) && Within(source, size, v);
    }
  }

  lemma NextPageBelow(vaddr: nat, taskSize: nat)
    requires Aligned(vaddr) && U64(vaddr) && 0 < taskSize < TWO63
    ensures Wrap(vaddr + PAGE - vaddr % PAGE) < taskSize <==> vaddr + PAGE < taskSize || vaddr == TWO64 - PAGE
  {
  }

  /** The tests of xpmem_attach(), for a size that can be mapped. */
  lemma TestsAttachable(seg: Segment, vaddr: nat, offset: int, size: nat, own: bool, taskSize: nat)
    requires PageSegment(seg) && U64(vaddr) && 0 - TWO63 <= offset < TWO63 && size <= taskSize < TWO63
    ensures Attachable(seg, vaddr, offset, size, own, taskSize) <==>
            && (vaddr == 0 || Wrap(vaddr + PAGE - vaddr % PAGE) < taskSize)
            && Aligned(vaddr) && Aligned(offset)
            && ValidateAccess(seg, offset, size).Ok?
            && !(own && vaddr != 0 && Collides(vaddr, Wrap(seg.vaddr + offset), size))
  {
    if Aligned(vaddr) && taskSize > 0 {
      NextPageBelow(vaddr, taskSize);
    }
  }

  lemma AttachLays(seg: Segment, offset: nat, size: nat, at: nat)
    requires PageSegment(seg) && Aligned(offset) && offset < TWO63 && Aligned(size) && size > 0
    requires offset + size <= seg.size && Aligned(at) && at + size < TWO63
    ensures Wrap(size + Wrap(seg.vaddr + offset) % PAGE) == size
    ensures var att := Attachment(Wrap(seg.vaddr + offset), at, size);
            && Laid(att) && (Established(seg, att) <==> seg.vaddr + offset < TWO64)
            && (Sane(seg) ==> Established(seg, att))
  {
    WrappedAligned(seg.vaddr + offset);
    EstablishedIff(seg, offset, size, at);
  }

  /** The checks of xpmem_attach() before it maps: the source address of a request for `size` bytes. */
  method CheckRequest(seg: Segment, vaddr: nat, offset: int, size: nat, own: bool, taskSize: nat) returns (r: Result<nat>)
    requires PageSegment(seg) && U64(vaddr) && U64(size) && 0 - TWO63 <= offset < TWO63 && taskSize < TWO63
    ensures r.Ok? ==> offset >= 0 && Aligned(offset) && size > 0 && r.value == Wrap(seg.vaddr + offset)
    ensures size <= taskSize ==> (r.Ok? <==> Attachable(seg, vaddr, offset, size, own, taskSize))
  {
    if size <= taskSize {
      TestsAttachable(seg, vaddr, offset, size, own, taskSize);
    }
    if vaddr != 0 && Wrap(vaddr + PAGE - vaddr % PAGE) >= taskSize {
      return Einval;
    }
    if vaddr % PAGE != 0 || offset % PAGE != 0 {
      return Einval;
    }
    r := ValidateAccess(seg, offset, size);
    if r.Einval? {
      return;
    }
    if own && vaddr != 0 && Collides(vaddr, r.value, size) {
      return Einval;
    }
  }

  /** xpmem_attach(); `mapping` is what vm_mmap() answers, `own` that the caller attaches its own
      memory.  The source address being page aligned, the size does not grow by its offset. */
  method Attach(seg: Segment, vaddr: nat, offset: int, size0: nat, own: bool, taskSize: nat, mapping: Mapping)
    returns (r: Result<Attachment>)
    requires PageSegment(seg) && U64(vaddr) && U64(size0) && 0 - TWO63 <= offset < TWO63 && taskSize < TWO63
    requires MmapContract(mapping, RoundedSize(size0), taskSize)
    ensures r.Ok? ==> offset >= 0 && mapping.MapAt? && Laid(r.value)
                      && r.value == Attachment(Wrap(seg.vaddr + offset), mapping.at, RoundedSize(size0))
    // the source range lies in the segment exactly if its start has not wrapped around
    ensures r.Ok? ==> (Established(seg, r.value) <==> seg.vaddr + offset < TWO64)
    ensures r.Ok? && Sane(seg) ==> Established(seg, r.value)
    ensures r.Ok? <==> Attachable(seg, vaddr, offset, RoundedSize(size0), own, taskSize) && mapping.MapAt?
  {
    var size := RoundedSize(size0);
    var source := CheckRequest(seg, vaddr, offset, size, own, taskSize);
    if source.Einval? || mapping.MapError? {
      return Einval;
    }
    AttachLays(seg, offset, size, mapping.at);
    r := Ok(Attachment(source.value, mapping.at, Wrap(size + source.value % PAGE)));
  }

  // ----- Translation -----

  /** The attached addresses. */
  predicate Attached(att: Attachment, v: nat) {
    att.atVaddr <= v < att.atVaddr + att.atSize
  }

  /** The source address that the fault handler pins for a fault at v. */
  function Source(att: Attachment, v: nat): nat
    requires Attached(att, v)
  {
    Wrap(att.vaddr / PAGE * PAGE + (v - att.atVaddr))
  }

  /** The source range ends inside the 64-bit space. */
  predicate Unwrapped(att: Attachment) {
    att.vaddr + att.atSize < TWO64
  }

  /** A fault address of an established attachment translates into its segment, and into the attached
      part of it, exactly if its source has not wrapped around; pages go to pages. */
  lemma FaultTranslatesIff(seg: Segment, att: Attachment, v: nat)
    requires PageSegment(seg) && Established(seg, att) && Attached(att, v)
    ensures Source(att, v) % PAGE == v % PAGE
    ensures seg.vaddr <= Source(att, v) < seg.vaddr + seg.size <==> att.vaddr + (v - att.atVaddr) < TWO64
    ensures att.vaddr <= Source(att, v) < att.vaddr + att.atSize <==> att.vaddr + (v - att.atVaddr) < TWO64
  {
    var d := v - att.atVaddr;
    assert att.vaddr / PAGE * PAGE == att.vaddr;
    WrapOnce(att.vaddr + d);
    SameOffset(att.vaddr, att.atVaddr, d);
  }

  lemma WrapOnce(x: nat)
    requires x < 2 * TWO64
    ensures Wrap(x) == (if x < TWO64 then x else x - TWO64) && Wrap(x) % PAGE == x % PAGE
  {
  }

  lemma SameOffset(x: nat, y: nat, d: nat)
    requires Aligned(x) && Aligned(y)
    ensures (x + d) % PAGE == (y + d) % PAGE
  {
  }

  /** Without wrap-around every fault address does, and distances are kept. */
  lemma FaultTranslates(seg: Segment, att: Attachment, v: nat, w: nat)
    requires Established(seg, att) && Unwrapped(att) && Attached(att, v) && Attached(att, w)
    ensures seg.vaddr <= Source(att, v) < seg.vaddr + seg.size
    ensures att.vaddr <= Source(att, v) < att.vaddr + att.atSize
    ensures Source(att, v) % PAGE == v % PAGE
    ensures Source(att, v) - Source(att, w) == v - w
  {
    assert att.vaddr / PAGE * PAGE == att.vaddr;
  }

  datatype Cleared = Nothing | Range(at: nat, len: nat, all: bool)

  function Max(a: nat, b: nat): nat { if a > b then a else b }

  function Min(a: nat, b: nat): nat { if a < b then a else b }

  /** xpmem_clear_PTEs_of_att(): the attached range cleared for source range [start, end), and
      whether the VALIDPTEs flag goes. */
  function ClearRange(att: Attachment, start: nat, end: nat): Cleared {
    var attEnd := Wrap(att.vaddr + att.atSize);
    var from := Max(start, att.vaddr);
    var to := Min(end, attEnd);
    if from >= attEnd || to <= att.vaddr then Nothing
    else
      var offsetStart := Wrap(from - att.vaddr);
      var offsetEnd := Wrap(to - att.vaddr);
      var len := Wrap(offsetEnd - offsetStart);
      Range(Wrap(att.atVaddr + offsetStart), len, offsetStart == 0 && att.atSize == len)
  }

  /** Without wrap-around, the cleared range is the intersection moved to the attach point. */
  lemma ClearRangePlain(att: Attachment, start: nat, end: nat)
    requires Laid(att) && Unwrapped(att) && start <= end < TWO64
    ensures var from, to := Max(start, att.vaddr), Min(end, att.vaddr + att.atSize);
            ClearRange(att, start, end) ==
            if from >= att.vaddr + att.atSize || to <= att.vaddr then Nothing
            else Range(att.atVaddr + (from - att.vaddr), to - from, from == att.vaddr && att.atSize == to - from)
  {
  }

  lemma AlignedMoves(x: int, y: int, z: int)
    requires Aligned(x) && Aligned(y) && Aligned(z)
    ensures Aligned(x + (y - z)) && Aligned(y - z)
  {
  }

  /** For page-aligned source ranges the alignment assertion of the clear path holds. */
  lemma ClearAligned(att: Attachment, start: nat, end: nat)
    requires Laid(att) && Unwrapped(att) && Aligned(start) && Aligned(end) && start <= end < TWO64
    ensures var c := ClearRange(att, start, end); c.Range? ==> Aligned(c.at) && Aligned(c.len)
  {
    ClearRangePlain(att, start, end);
    AlignedMoves(att.vaddr, att.atSize, 0);
    var from, to := Max(start, att.vaddr), Min(end, att.vaddr + att.atSize);
    AlignedMoves(att.atVaddr, from, att.vaddr);
    AlignedMoves(0, to, from);
  }

  /** Only attached addresses are cleared, and the flag goes exactly if the range covers the whole
      attachment. */
  lemma FlagGoesIffCovered(att: Attachment, start: nat, end: nat)
    requires Laid(att) && Unwrapped(att) && start <= end < TWO64
    ensures var c := ClearRange(att, start, end);
            && (c.Range? ==> att.atVaddr <= c.at && c.at + c.len <= att.atVaddr + att.atSize)
            && (c.Range? && c.all <==> start <= att.vaddr && att.vaddr + att.atSize <= end)
  {
    ClearRangePlain(att, start, end);
  }

  /** An attached address is cleared exactly if its source address is in the range. */
  lemma ClearTranslates(att: Attachment, start: nat, end: nat, v: nat)
    requires Laid(att) && Unwrapped(att) && start <= end < TWO64 && Attached(att, v)
    ensures var c := ClearRange(att, start, end);
            start <= Source(att, v) < end <==> c.Range? && c.at <= v < c.at + c.len
  {
    ClearRangePlain(att, start, end);
    assert att.vaddr / PAGE * PAGE == att.vaddr;
  }

  /** An attachment whose source range wraps around is never cleared. */
  lemma WrappedNeverCleared(att: Attachment, start: nat, end: nat)
    requires Laid(att) && !Unwrapped(att)
    ensures ClearRange(att, start, end) == Nothing
  {
  }

  /** xpmem_clear_PTEs() passes the whole segment.  That clears every attachment of it entirely, or,
      if the segment wraps around, none at all. */
  lemma WholeSegmentClearsAllOrNothing(seg: Segment, att: Attachment)
    requires PageSegment(seg) && Established(seg, att)
    ensures ClearRange(att, seg.vaddr, Wrap(seg.vaddr + seg.size)) ==
            if seg.vaddr + seg.size < TWO64 then Range(att.atVaddr, att.atSize, true) else Nothing
  {
    if !Unwrapped(att) {
      WrappedNeverCleared(att, seg.vaddr, Wrap(seg.vaddr + seg.size));
    } else if seg.vaddr + seg.size < TWO64 {
      ClearRangePlain(att, seg.vaddr, seg.vaddr + seg.size);
    }
  }
}
