/**
 What each operation on groups, segments, permits and attachments does to the object graph when no
 other operation is in progress: the objects it makes, marks, maps and takes off their lists, and
 that it returns.  Reference counts are what `LifetimeRuns` says of every run.
 */
module LifetimeAlone {
  import opened Lifetime

  // ----- A thread alone -----

  function At(base: seq<Pc>, t: nat, objs: seq<Obj>, b: bool, pc: Pc): State
    requires t < |base|
  {
    State(objs, base[t := pc], b)
  }

  ghost predicate Resting(base: seq<Pc>) {
    forall u :: 0 <= u < |base| ==> base[u].Idle?
  }

  /** Thread t goes on, with these choices, until it is idle again. */
  function Solo(s: State, t: nat, cs: seq<Choice>): State
    decreases |cs|
  {
    if cs == [] || t >= |s.threads| || s.threads[t].Idle? then s else Solo(Next(s, Event(t, cs[0])), t, cs[1..])
  }

  function Call(s: State, t: nat, c: Choice, cs: seq<Choice>): State {
    Solo(Next(s, Event(t, c)), t, cs)
  }

  /** An object without its reference count. */
  function Shape(x: Obj): Obj {
    x.(refcnt := 0, freed := false)
  }

  function Shapes(objs: seq<Obj>): (r: seq<Obj>)
    ensures |r| == |objs|
  {
    seq(|objs|, i requires 0 <= i < |objs| => Shape(objs[i]))
  }

  /** The thread has returned and left this graph. */
  ghost predicate Leaves(s: State, base: seq<Pc>, graph: seq<Obj>) {
    s.threads == base && Shapes(s.objs) == graph
  }

  lemma CountingKeepsShapes(objs: seq<Obj>, e: Effect)
    requires e.Nothing? || e.Inc? || e.Dec?
    ensures Shapes(Apply(objs, e)) == Shapes(objs)
  {
  }

  /** One step. */
  lemma Goes(base: seq<Pc>, t: nat, objs: seq<Obj>, b: bool, pc: Pc, cs: seq<Choice>)
    requires t < |base| && cs != [] && !pc.Idle?
    ensures var act := ActOf(At(base, t, objs, b, pc), pc, cs[0]);
            Solo(At(base, t, objs, b, pc), t, cs)
            == Solo(At(base, t, Apply(objs, act.e), b || Touches(objs, act.e), act.pc), t, cs[1..])
  {
    var act := ActOf(At(base, t, objs, b, pc), pc, cs[0]);
    assert base[t := pc][t := act.pc] == base[t := act.pc];
  }

  function Size(h: Hand): nat {
    if h.Empty? then 0 else 1 + Size(h.rest)
  }

  /** References are dropped and nothing else happens. */
  lemma {:induction false} DropEnds(base: seq<Pc>, t: nat, objs: seq<Obj>, b: bool, h: Hand, cs: seq<Choice>)
    requires t < |base| && Resting(base) && Size(h) < |cs|
    ensures Leaves(Solo(At(base, t, objs, b, Drop(h, Return)), t, cs), base, Shapes(objs))
    decreases Size(h)
  {
    Goes(base, t, objs, b, Drop(h, Return), cs);
    if h.Empty? {
      assert base[t := Idle] == base;
      assert Solo(At(base, t, objs, b, Idle), t, cs[1..]) == At(base, t, objs, b, Idle);
    } else {
      CountingKeepsShapes(objs, Dec(h.o));
      DropEnds(base, t, Apply(objs, Dec(h.o)), b || Touches(objs, Dec(h.o)), h.rest, cs[1..]);
    }
  }

  /** A step that only counts. */
  lemma Counts(base: seq<Pc>, t: nat, objs: seq<Obj>, b: bool, pc: Pc, cs: seq<Choice>, e: Effect, pc': Pc)
    returns (objs': seq<Obj>, b': bool)
    requires t < |base| && cs != [] && !pc.Idle? && (e.Nothing? || e.Inc? || e.Dec?)
    requires ActOf(At(base, t, objs, b, pc), pc, cs[0]) == Act(e, pc')
    ensures Solo(At(base, t, objs, b, pc), t, cs) == Solo(At(base, t, objs', b', pc'), t, cs[1..])
    ensures Shapes(objs') == Shapes(objs)
  {
    Goes(base, t, objs, b, pc, cs);
    CountingKeepsShapes(objs, e);
    objs', b' := Apply(objs, e), b || Touches(objs, e);
  }

  /** Any other step. */
  lemma Changes(base: seq<Pc>, t: nat, objs: seq<Obj>, b: bool, pc: Pc, cs: seq<Choice>, e: Effect, pc': Pc)
    returns (b': bool)
    requires t < |base| && cs != [] && !pc.Idle? && ActOf(At(base, t, objs, b, pc), pc, cs[0]) == Act(e, pc')
    ensures Solo(At(base, t, objs, b, pc), t, cs) == Solo(At(base, t, Apply(objs, e), b', pc'), t, cs[1..])
  {
    Goes(base, t, objs, b, pc, cs);
    b' := b || Touches(objs, e);
  }

  lemma TwoInHand(a: nat, b: nat)
    ensures Size(Hand2(a, b)) == 2
  {
    assert Size(Hand1(b)) == 1;
  }

  lemma ThreeInHand(a: nat, b: nat, c: nat)
    ensures Size(Hand3(a, b, c)) == 3
  {
    TwoInHand(b, c);
  }

  lemma FiveInHand(a: nat, b: nat, c: nat, d: nat, e: nat)
    ensures Size(Hand5(a, b, c, d, e)) == 5
  {
    ThreeInHand(c, d, e);
    assert Size(Hand4(b, c, d, e)) == 4;
  }

  /** The step that begins an operation by taking references. */
  lemma Begins(s: State, t: nat, c: Choice, e: Effect, pc: Pc) returns (objs: seq<Obj>, b: bool)
    requires t < |s.threads| && Resting(s.threads) && e.Inc? && Begin(s.objs, c.op) == Act(e, pc)
    ensures Next(s, Event(t, c)) == At(s.threads, t, objs, b, pc) && Shapes(objs) == Shapes(s.objs)
  {
    objs, b := Apply(s.objs, e), s.broken || Touches(s.objs, e);
    CountingKeepsShapes(s.objs, e);
  }

  lemma SameShape(objs: seq<Obj>, objs': seq<Obj>, i: nat)
    requires Shapes(objs) == Shapes(objs') && i < |objs|
    ensures |objs'| == |objs| && Shape(objs'[i]) == Shape(objs[i])
  {
    assert Shapes(objs)[i] == Shapes(objs')[i];
  }

  lemma ShapesAdd(objs: seq<Obj>, x: Obj)
    ensures Shapes(Apply(objs, Add(x))) == Shapes(objs) + [Shape(x)]
  {
  }

  lemma ShapesSet(objs: seq<Obj>, o: nat, x: Obj)
    requires o < |objs|
    ensures Shapes(objs[o := x]) == Shapes(objs)[o := Shape(x)]
  {
  }

  // ----- Open, make, get -----

  /** Opening the driver makes a group. */
  lemma OpenAlone(s: State, t: nat, c: Choice)
    requires t < |s.threads| && Resting(s.threads) && c.op == DoOpen
    ensures var s' := Next(s, Event(t, c)); s'.threads == s.threads && s'.objs == s.objs + [Blank]
  {
    assert s.threads[t := Idle] == s.threads;
  }

  function NewSegment(g: nat): Obj {
    Shape(Blank.(kind := Segment, parent := g))
  }

  /** A make by a live group makes one segment of it. */
  lemma MakeAlone(s: State, t: nat, g: nat, c: Choice, cs: seq<Choice>)
    requires t < |s.threads| && Resting(s.threads) && c.op == DoMake(g) && Found(s.objs, g, Group) && |cs| >= 3 && cs[0].ok
    ensures Leaves(Call(s, t, c, cs), s.threads, Shapes(s.objs) + [NewSegment(g)])
  {
    var base := s.threads;
    var objs, b := Begins(s, t, c, Inc(Ref(g), No, No), MakeHas(g));
    Goes(base, t, objs, b, MakeHas(g), cs);
    var x := Blank.(kind := Segment, parent := g);
    ShapesAdd(objs, x);
    DropEnds(base, t, Apply(objs, Add(x)), b, Hand1(g), cs[1..]);
  }

  function NewPermit(q: nat, h: nat, g: nat): Obj {
    Shape(Blank.(kind := Permit, parent := q, owner := h, top := g))
  }

  lemma GetRefs(base: seq<Pc>, t: nat, objs: seq<Obj>, b: bool, g: nat, q: nat, h: nat, cs: seq<Choice>)
    returns (objs': seq<Obj>, b': bool)
    requires t < |base| && |cs| >= 2 && cs[0].pick == q && cs[1].pick == h && cs[1].ok
    requires Found(objs, q, Segment) && objs[q].parent == g && Found(objs, h, Group)
    ensures Solo(At(base, t, objs, b, GetHas(g)), t, cs) == Solo(At(base, t, objs', b', GetAll(g, q, h)), t, cs[2..])
    ensures Shapes(objs') == Shapes(objs)
  {
    var objs1, b1 := Counts(base, t, objs, b, GetHas(g), cs, Inc(Ref(q), No, No), GetSeg(g, q));
    SameShape(objs, objs1, h);
    objs', b' := Counts(base, t, objs1, b1, GetSeg(g, q), cs[1..], Inc(Ref(h), No, No), GetAll(g, q, h));
    assert cs[1..][1..] == cs[2..];
  }

  lemma GetMakes(base: seq<Pc>, t: nat, objs: seq<Obj>, b: bool, g: nat, q: nat, h: nat, cs: seq<Choice>)
    requires t < |base| && Resting(base) && |cs| >= 3 && cs[0].ok
    ensures Leaves(Solo(At(base, t, objs, b, GetAll(g, q, h)), t, cs), base, Shapes(objs) + [NewPermit(q, h, g)])
  {
    var x := Blank.(kind := Permit, parent := q, owner := h, top := g);
    var b' := Changes(base, t, objs, b, GetAll(g, q, h), cs, Add(x), Drop(Hand1(h), Return));
    ShapesAdd(objs, x);
    DropEnds(base, t, Apply(objs, Add(x)), b', Hand1(h), cs[1..]);
  }

  /** A get of a live segment of a live group by a live group makes one permit. */
  lemma GetAlone(s: State, t: nat, g: nat, q: nat, h: nat, c: Choice, cs: seq<Choice>)
    requires t < |s.threads| && Resting(s.threads) && c.op == DoGet(g) && Found(s.objs, g, Group)
    requires Found(s.objs, q, Segment) && s.objs[q].parent == g && Found(s.objs, h, Group)
    requires |cs| >= 5 && cs[0].pick == q && cs[1].pick == h && cs[1].ok && cs[2].ok
    ensures Leaves(Call(s, t, c, cs), s.threads, Shapes(s.objs) + [NewPermit(q, h, g)])
  {
    var base := s.threads;
    var objs, b := Begins(s, t, c, Inc(Ref(g), No, No), GetHas(g));
    SameShape(s.objs, objs, q);
    SameShape(s.objs, objs, h);
    var objs', b' := GetRefs(base, t, objs, b, g, q, h, cs);
    GetMakes(base, t, objs', b', g, q, h, cs[2..]);
  }

  // ----- Attach -----

  function NewAttachment(p: nat): Obj {
    Shape(Blank.(kind := Attach, parent := p, good := true, mapped := true))
  }

  /** The references that an attach takes, one after the other. */
  lemma AttachRefs(base: seq<Pc>, t: nat, objs: seq<Obj>, b: bool, h: nat, p: nat, cs: seq<Choice>)
    returns (objs': seq<Obj>, b': bool)
    requires t < |base| && |cs| >= 3 && Found(objs, p, Permit) && objs[p].owner == h && cs[0].pick == p
    requires objs[p].parent < |objs|
    ensures var q := objs[p].parent;
            Solo(At(base, t, objs, b, AttachHas(h)), t, cs)
            == Solo(At(base, t, objs', b', AttachAll(h, p, q, objs[q].parent)), t, cs[3..])
    ensures Shapes(objs') == Shapes(objs)
  {
    var q := objs[p].parent;
    var objs1, b1 := Counts(base, t, objs, b, AttachHas(h), cs, Inc(Ref(p), No, No), AttachAp(h, p));
    SameShape(objs, objs1, p);
    var objs2, b2 := Counts(base, t, objs1, b1, AttachAp(h, p), cs[1..], Inc(Ref(q), No, No), AttachSeg(h, p, q));
    SameShape(objs, objs2, q);
    var g := objs[q].parent;
    assert cs[1..][1..] == cs[2..] && cs[2..][1..] == cs[3..];
    objs', b' := Counts(base, t, objs2, b2, AttachSeg(h, p, q), cs[2..], Inc(Ref(g), No, No), AttachAll(h, p, q, g));
  }

  lemma AttachMapsEnds(base: seq<Pc>, t: nat, objs: seq<Obj>, x: Obj, b: bool, h: nat, p: nat, q: nat, g: nat, cs: seq<Choice>)
    requires t < |base| && Resting(base) && |cs| >= 7 && cs[0].ok
    requires x == Blank.(kind := Attach, parent := p, good := true, refcnt := 2)
    ensures Leaves(Solo(At(base, t, objs + [x], b, AttachNew(h, p, q, g, |objs|)), t, cs), base,
                   Shapes(objs) + [NewAttachment(p)])
  {
    var a, objs1 := |objs|, objs + [x];
    var b' := Changes(base, t, objs1, b, AttachNew(h, p, q, g, a), cs, SetMapped(a), Drop(Hand5(a, p, h, q, g), Return));
    ShapesAdd(objs, x);
    ShapesSet(objs1, a, x.(mapped := true));
    assert (Shapes(objs) + [Shape(x)])[a := NewAttachment(p)] == Shapes(objs) + [NewAttachment(p)];
    FiveInHand(a, p, h, q, g);
    DropEnds(base, t, Apply(objs1, SetMapped(a)), b', Hand5(a, p, h, q, g), cs[1..]);
  }

  lemma AttachMakes(base: seq<Pc>, t: nat, objs: seq<Obj>, b: bool, h: nat, p: nat, q: nat, g: nat, cs: seq<Choice>)
    requires t < |base| && Resting(base) && |cs| >= 8 && p < |objs| && !objs[p].destroying && cs[0].ok && cs[1].ok
    ensures Leaves(Solo(At(base, t, objs, b, AttachAll(h, p, q, g)), t, cs), base, Shapes(objs) + [NewAttachment(p)])
  {
    var x := Blank.(kind := Attach, parent := p, good := true, refcnt := 2);
    var b' := Changes(base, t, objs, b, AttachAll(h, p, q, g), cs, Add(x), AttachNew(h, p, q, g, |objs|));
    AttachMapsEnds(base, t, objs, x, b', h, p, q, g, cs[1..]);
  }

  /** An attach of a live permit by its live owner makes one attachment of it, mapped and on its list. */
  lemma AttachAlone(s: State, t: nat, h: nat, p: nat, c: Choice, cs: seq<Choice>)
    requires t < |s.threads| && Resting(s.threads) && c.op == DoAttach(h) && Found(s.objs, h, Group)
    requires Found(s.objs, p, Permit) && s.objs[p].owner == h && s.objs[p].parent < |s.objs|
    requires |cs| >= 11 && cs[0].pick == p && cs[3].ok && cs[4].ok
    ensures Leaves(Call(s, t, c, cs), s.threads, Shapes(s.objs) + [NewAttachment(p)])
  {
    var base := s.threads;
    var objs, b := Begins(s, t, c, Inc(Ref(h), No, No), AttachHas(h));
    SameShape(s.objs, objs, p);
    var objs', b' := AttachRefs(base, t, objs, b, h, p, cs);
    var q := objs[p].parent;
    SameShape(objs, objs', p);
    AttachMakes(base, t, objs', b', h, p, q, objs[q].parent, cs[3..]);
  }

  // ----- Detach -----

  function Unlinked(x: Obj): Obj {
    Shape(x.(destroying := true, linked := false, mapped := false))
  }

  lemma NoneBusy(base: seq<Pc>, t: nat, objs: seq<Obj>, b: bool, pc: Pc, a: nat)
    requires t < |base| && Resting(base) && !pc.AttachNew? && !pc.AttachFail? && !pc.FaultTest?
    ensures !AttachBusy(At(base, t, objs, b, pc), a) && !FaultTesting(At(base, t, objs, b, pc), a)
  {
  }

  lemma MarkedShapes(objs: seq<Obj>, a: nat)
    requires a < |objs|
    ensures Shapes(Apply(objs, Mark(a, true))) == Shapes(objs)[a := Shape(objs[a].(destroying := true))]
    ensures Shapes(Apply(Apply(objs, Mark(a, true)), Unlink(a))) == Shapes(objs)[a := Unlinked(objs[a])]
    ensures !objs[a].destroying ==> Shapes(Apply(Apply(objs, Mark(a, true)), Mark(a, false))) == Shapes(objs)
  {
    var x := objs[a].(destroying := true);
    var objs1 := objs[a := x];
    ShapesSet(objs, a, x);
    ShapesSet(objs1, a, x.(linked := false, mapped := false));
    ShapesSet(objs1, a, x.(destroying := false));
    assert Shapes(objs)[a := Shape(objs[a])] == Shapes(objs);
  }

  lemma DetachedEnds(base: seq<Pc>, t: nat, objs: seq<Obj>, b: bool, a: nat, p: nat, cs: seq<Choice>)
    requires t < |base| && Resting(base) && a < |objs| && |cs| >= 5 && cs[0].ok
    ensures Leaves(Solo(At(base, t, Apply(objs, Mark(a, true)), b, DetachMarked(a, p)), t, cs), base,
                   Shapes(objs)[a := Unlinked(objs[a])])
  {
    var objs1 := Apply(objs, Mark(a, true));
    NoneBusy(base, t, objs1, b, DetachMarked(a, p), a);
    var b' := Changes(base, t, objs1, b, DetachMarked(a, p), cs, Unlink(a), Drop(Hand3(a, p, a), Return));
    MarkedShapes(objs, a);
    ThreeInHand(a, p, a);
    DropEnds(base, t, Apply(objs1, Unlink(a)), b', Hand3(a, p, a), cs[1..]);
  }

  lemma RefusedEnds(base: seq<Pc>, t: nat, objs: seq<Obj>, b: bool, a: nat, p: nat, cs: seq<Choice>)
    requires t < |base| && Resting(base) && a < |objs| && !objs[a].destroying && |cs| >= 4 && !cs[0].ok
    ensures Leaves(Solo(At(base, t, Apply(objs, Mark(a, true)), b, DetachMarked(a, p)), t, cs), base, Shapes(objs))
  {
    var objs1 := Apply(objs, Mark(a, true));
    NoneBusy(base, t, objs1, b, DetachMarked(a, p), a);
    var b' := Changes(base, t, objs1, b, DetachMarked(a, p), cs, Mark(a, false), Drop(Hand2(p, a), Return));
    MarkedShapes(objs, a);
    TwoInHand(p, a);
    DropEnds(base, t, Apply(objs1, Mark(a, false)), b', Hand2(p, a), cs[1..]);
  }

  /** A detach of a mapped, live attachment by its owner takes it off its list; by another group it
      changes nothing. */
  lemma DetachAlone(s: State, t: nat, a: nat, c: Choice, cs: seq<Choice>)
    requires t < |s.threads| && Resting(s.threads) && c.op == DoDetach(a) && Is(s.objs, a, Attach)
    requires s.objs[a].mapped && !s.objs[a].destroying && |cs| >= 6
    ensures Leaves(Call(s, t, c, cs), s.threads, if cs[1].ok then Shapes(s.objs)[a := Unlinked(s.objs[a])] else Shapes(s.objs))
  {
    var p := s.objs[a].parent;
    var base := s.threads;
    var objs, b := Begins(s, t, c, Inc(Ref(a), Ref(p), No), DetachTest(a, p));
    SameShape(s.objs, objs, a);
    NoneBusy(base, t, objs, b, DetachTest(a, p), a);
    var b' := Changes(base, t, objs, b, DetachTest(a, p), cs, Mark(a, true), DetachMarked(a, p));
    if cs[1].ok {
      DetachedEnds(base, t, objs, b', a, p, cs[1..]);
    } else {
      RefusedEnds(base, t, objs, b', a, p, cs[1..]);
    }
  }

  // ----- Remove, flush -----

  /** The removal of a live segment of a live group takes it off its list. */
  lemma RemoveAlone(s: State, t: nat, g: nat, q: nat, c: Choice, cs: seq<Choice>)
    requires t < |s.threads| && Resting(s.threads) && c.op == DoRemove(g) && Found(s.objs, g, Group)
    requires Found(s.objs, q, Segment) && s.objs[q].parent == g
    requires |cs| >= 8 && cs[0].pick == q && cs[2].pick >= |s.objs|
    ensures Leaves(Call(s, t, c, cs), s.threads, Shapes(s.objs)[q := Unlinked(s.objs[q])])
  {
    var base := s.threads;
    var objs, b := Begins(s, t, c, Inc(Ref(g), No, No), RemoveHas(g));
    SameShape(s.objs, objs, q);
    var objs1, b1 := Counts(base, t, objs, b, RemoveHas(g), cs, Inc(Ref(q), No, No), Remove(q, g, false));
    SameShape(s.objs, objs1, q);
    var b2 := Changes(base, t, objs1, b1, Remove(q, g, false), cs[1..], Mark(q, true), SweepAps(q, RemoveHome(g, false)));
    assert cs[1..][1..] == cs[2..];
    RemovedEnds(base, t, objs1, b2, q, g, cs[2..]);
  }

  lemma RemovedEnds(base: seq<Pc>, t: nat, objs: seq<Obj>, b: bool, q: nat, g: nat, cs: seq<Choice>)
    requires t < |base| && Resting(base) && q < |objs| && |cs| >= 6 && cs[0].pick >= |objs|
    ensures Leaves(Solo(At(base, t, Apply(objs, Mark(q, true)), b, SweepAps(q, RemoveHome(g, false))), t, cs), base,
                   Shapes(objs)[q := Unlinked(objs[q])])
  {
    var objs1 := Apply(objs, Mark(q, true));
    var b1 := Changes(base, t, objs1, b, SweepAps(q, RemoveHome(g, false)), cs, Nothing, RemoveMarked(q, g, false));
    var b2 := Changes(base, t, objs1, b1, RemoveMarked(q, g, false), cs[1..], Unlink(q), Drop(Hand3(q, q, g), Return));
    assert cs[1..][1..] == cs[2..];
    MarkedShapes(objs, q);
    ThreeInHand(q, q, g);
    DropEnds(base, t, Apply(objs1, Unlink(q)), b2, Hand3(q, q, g), cs[2..]);
  }

  /** The flush of a group that has been torn down takes it off the list of groups. */
  lemma FlushAlone(s: State, t: nat, g: nat, c: Choice, cs: seq<Choice>)
    requires t < |s.threads| && Resting(s.threads) && c.op == DoFlush(g) && Is(s.objs, g, Group)
    requires s.objs[g].linked && s.objs[g].done && |cs| >= 4
    ensures Leaves(Call(s, t, c, cs), s.threads, Shapes(s.objs)[g := Shape(s.objs[g].(linked := false, mapped := false))])
  {
    var base := s.threads;
    var objs, b := Begins(s, t, c, Inc(Ref(g), No, No), Flush(g));
    SameShape(s.objs, objs, g);
    var b' := Changes(base, t, objs, b, Flush(g), cs, Unlink(g), Drop(Hand2(g, g), Return));
    ShapesSet(objs, g, objs[g].(linked := false, mapped := false));
    TwoInHand(g, g);
    DropEnds(base, t, Apply(objs, Unlink(g)), b', Hand2(g, g), cs[1..]);
  }
}
