/**
 The list walks that drop the list lock while they work on an element: over the
 attachments of a permit, the permits of a segment, and the segments of a group.

 While the lock is dropped, others delete elements and add new ones at the tail; an
 element that was deleted never comes back.  If the element worked on was deleted, the
 walk starts over from the head, else it goes on to the next element.
 */
module ListWalk {

  datatype Change = Delete(x: nat) | Append(x: nat)

  /** The list, and every element that was ever on it. */
  datatype Shared = Shared(list: seq<nat>, used: set<nat>)

  predicate Distinct(s: seq<nat>) {
    forall i, j :: 0 <= i < j < |s| ==> s[i] != s[j]
  }

  predicate Ok(s: Shared) {
    Distinct(s.list) && forall x :: x in s.list ==> x in s.used
  }

  function Without(list: seq<nat>, x: nat): seq<nat> {
    if list == [] then []
    else (if list[0] == x then [] else [list[0]]) + Without(list[1..], x)
  }

  /** list_del_init(), or list_add_tail() of a new element. */
  function Applied(s: Shared, c: Change): Shared {
    match c
    case Delete(x) => s.(list := Without(s.list, x))
    case Append(x) => if x in s.used then s else Shared(s.list + [x], s.used + {x})
  }

  function AppliedAll(s: Shared, cs: seq<Change>): Shared
    decreases |cs|
  {
    if cs == [] then s else AppliedAll(Applied(s, cs[0]), cs[1..])
  }

  /** The elements up to the first occurrence of x, x included. */
  function UpTo(list: seq<nat>, x: nat): set<nat> {
    if list == [] then {}
    else if list[0] == x then {x}
    else {list[0]} + UpTo(list[1..], x)
  }

  function IndexOf(list: seq<nat>, x: nat): (i: nat)
    requires x in list
    ensures i < |list| && list[i] == x && x !in list[..i]
  {
    if list[0] == x then 0 else
      var i := IndexOf(list[1..], x);
      assert list[..i + 1] == [list[0]] + list[1..][..i];
      i + 1
  }

  // ----- What changes leave as it was -----

  lemma {:induction false} WithoutMembers(list: seq<nat>, y: nat)
    ensures forall x :: x in Without(list, y) <==> x in list && x != y
  {
    if list != [] {
      WithoutMembers(list[1..], y);
      assert list == [list[0]] + list[1..];
    }
  }

  lemma {:induction false} WithoutDistinct(list: seq<nat>, y: nat)
    requires Distinct(list)
    ensures Distinct(Without(list, y))
  {
    if list != [] {
      assert Distinct(list[1..]);
      WithoutDistinct(list[1..], y);
      WithoutMembers(list[1..], y);
      assert list[0] !in list[1..];
    }
  }

  lemma {:induction false} WithoutUpTo(list: seq<nat>, y: nat, x: nat)
    requires x != y
    ensures UpTo(Without(list, y), x) <= UpTo(list, x)
  {
    if list != [] {
      WithoutUpTo(list[1..], y, x);
      if list[0] != y {
        assert Without(list, y)[1..] == Without(list[1..], y);
      } else {
        assert Without(list, y) == Without(list[1..], y);
      }
    }
  }

  lemma {:induction false} AppendUpTo(list: seq<nat>, z: nat, x: nat)
    requires x in list
    ensures UpTo(list + [z], x) == UpTo(list, x)
  {
    if list[0] != x {
      assert (list + [z])[1..] == list[1..] + [z];
      AppendUpTo(list[1..], z, x);
    }
  }

  lemma ChangeKeeps(s: Shared, c: Change, x: nat)
    requires Ok(s)
    ensures Ok(Applied(s, c))
    ensures x in s.used ==> x in Applied(s, c).used
    ensures x in s.used && x in Applied(s, c).list ==> x in s.list && UpTo(Applied(s, c).list, x) <= UpTo(s.list, x)
  {
    match c {
      case Delete(y) =>
        WithoutMembers(s.list, y);
        WithoutDistinct(s.list, y);
        if x != y {
          WithoutUpTo(s.list, y, x);
        }
      case Append(y) =>
        if x in s.list {
          AppendUpTo(s.list, y, x);
        }
    }
  }

  /** An element still on the list has nothing new before it. */
  lemma {:induction false} ChangesKeep(s: Shared, cs: seq<Change>, x: nat)
    requires Ok(s)
    ensures Ok(AppliedAll(s, cs))
    ensures x in s.used && x in AppliedAll(s, cs).list ==> x in s.list && UpTo(AppliedAll(s, cs).list, x) <= UpTo(s.list, x)
    decreases |cs|
  {
    if cs != [] {
      ChangeKeeps(s, cs[0], x);
      ChangesKeep(Applied(s, cs[0]), cs[1..], x);
    }
  }

  lemma {:induction false} UpToIsPrefix(list: seq<nat>, i: nat)
    requires i < |list| && list[i] !in list[..i]
    ensures forall y :: y in UpTo(list, list[i]) <==> y in list[..i + 1]
  {
    if i > 0 {
      assert list[1..][..i - 1] == list[1..i];
      assert list[..i] == [list[0]] + list[1..i];
      assert list[..i + 1] == [list[0]] + list[1..i + 1];
      assert list[1..][..i] == list[1..i + 1];
      UpToIsPrefix(list[1..], i - 1);
    } else {
      assert list[..1] == [list[0]];
    }
  }

  /** Where the walk goes on, everything before has been examined. */
  lemma Resume(list: seq<nat>, i: nat, list': seq<nat>, examined: set<nat>)
    requires i < |list| && list[i] in list' && list[i] !in list[..i]
    requires forall j :: 0 <= j <= i ==> list[j] in examined
    requires UpTo(list', list[i]) <= UpTo(list, list[i])
    ensures forall j :: 0 <= j <= IndexOf(list', list[i]) ==> list'[j] in examined
  {
    var i' := IndexOf(list', list[i]);
    UpToIsPrefix(list, i);
    UpToIsPrefix(list', i');
    forall j | 0 <= j <= i'
      ensures list'[j] in examined
    {
      assert list'[..i' + 1][j] == list'[j];
      assert list'[j] in UpTo(list', list'[i']);
      assert list'[j] in UpTo(list, list[i]);
    }
  }

  // ----- The walk -----

  /** The list after others made the first k rounds of changes. */
  function AfterRounds(s: Shared, env: seq<seq<Change>>, k: nat): Shared
    requires k <= |env|
    decreases k
  {
    if k == 0 then s else AppliedAll(AfterRounds(s, env, k - 1), env[k - 1])
  }

  /** The walk, with the changes env[k] made while it works, lock dropped, on its k-th element.
      It ends if others make finitely many rounds of changes, and then every element on the list
      has been examined since the last restart. */
  method Walk(s0: Shared, env: seq<seq<Change>>)
    returns (s: Shared, examined: set<nat>, visits: nat)
    requires Ok(s0)
    ensures s == AfterRounds(s0, env, if visits <= |env| then visits else |env|)
    ensures forall x :: x in s.list ==> x in examined
    ensures visits <= |env| + |s.list|
  {
    s, examined, visits := s0, {}, 0;
    var i: nat := 0;
    while i < |s.list|
      invariant i <= |s.list| && Ok(s)
      invariant s == AfterRounds(s0, env, if visits <= |env| then visits else |env|)
      invariant forall j :: 0 <= j < i ==> s.list[j] in examined
      invariant visits <= |env| + i
      decreases if visits < |env| then |env| - visits else 0, |s.list| - i
    {
      var x := s.list[i];
      examined := examined + {x};
      ghost var list := s.list;
      if visits < |env| {
        ChangesKeep(s, env[visits], x);
        s := AppliedAll(s, env[visits]);
      }
      visits := visits + 1;
      if x in s.list {
        Resume(list, i, s.list, examined);
        i := IndexOf(s.list, x) + 1;
      } else {
        i := 0;
        examined := {};
      }
    }
  }

  // ----- Walks inside walks -----

  /** A segment's permits and the attachments of each permit. */
  datatype Lists = Lists(permits: Shared, atts: map<nat, Shared>)
  {
    function Of(p: nat): Shared {
      if p in atts then atts[p] else Shared([], {})
    }

    predicate Valid() {
      Ok(permits) && forall p :: p in atts ==> Ok(atts[p])
    }
  }

  datatype ListChange = OnPermits(c: Change) | OnAttachments(p: nat, c: Change)

  function Changed(s: Lists, c: ListChange): Lists {
    match c
    case OnPermits(d) => s.(permits := Applied(s.permits, d))
    case OnAttachments(p, d) => s.(atts := s.atts[p := Applied(s.Of(p), d)])
  }

  function ChangedAll(s: Lists, cs: seq<ListChange>): Lists
    decreases |cs|
  {
    if cs == [] then s else ChangedAll(Changed(s, cs[0]), cs[1..])
  }

  /** The lists after others made the first k rounds of changes. */
  function ListsAfter(s: Lists, env: seq<seq<ListChange>>, k: nat): Lists
    requires k <= |env|
    decreases k
  {
    if k == 0 then s else ChangedAll(ListsAfter(s, env, k - 1), env[k - 1])
  }

  /** List b is what others made of list a: no element comes back, and what is still there has
      nothing new before it. */
  ghost predicate Later(a: Shared, b: Shared) {
    && Ok(b) && a.used <= b.used
    && (forall x :: x in a.used && x in b.list ==> x in a.list && UpTo(b.list, x) <= UpTo(a.list, x))
  }

  ghost predicate LaterLists(a: Lists, b: Lists) {
    b.Valid() && Later(a.permits, b.permits) && forall p :: Later(a.Of(p), b.Of(p))
  }

  lemma ChangeLater(s: Shared, c: Change)
    requires Ok(s)
    ensures Later(s, Applied(s, c))
  {
    ChangeKeeps(s, c, 0);
    forall x | x in s.used && x in Applied(s, c).list
      ensures x in s.list && UpTo(Applied(s, c).list, x) <= UpTo(s.list, x)
    {
      ChangeKeeps(s, c, x);
    }
  }

  lemma LaterTransitive(a: Lists, b: Lists, c: Lists)
    requires LaterLists(a, b) && LaterLists(b, c)
    ensures LaterLists(a, c)
  {
  }

  lemma {:induction false} ChangesLater(s: Lists, cs: seq<ListChange>)
    requires s.Valid()
    ensures LaterLists(s, ChangedAll(s, cs))
    decreases |cs|
  {
    if cs != [] {
      match cs[0] {
        case OnPermits(c) => ChangeLater(s.permits, c);
        case OnAttachments(p, c) => ChangeLater(s.Of(p), c);
      }
      ChangesLater(Changed(s, cs[0]), cs[1..]);
      LaterTransitive(s, Changed(s, cs[0]), ChangedAll(s, cs));
    }
  }

  /** xpmem_clear_PTEs_of_ap(): the attachments of permit p, with round k of the changes made
      while the lock is dropped for the k-th time. */
  method WalkPermit(s0: Lists, env: seq<seq<ListChange>>, k0: nat, p: nat, ghost start: Lists)
    returns (s: Lists, examined: set<(nat, nat)>, k: nat)
    requires s0.Valid() && k0 <= |env| && s0 == ListsAfter(start, env, k0)
    ensures k0 <= k <= |env| && s == ListsAfter(start, env, k) && LaterLists(s0, s)
    ensures forall x :: x in s.Of(p).list ==> (p, x) in examined
  {
    s, examined, k := s0, {}, k0;
    var i: nat := 0;
    while i < |s.Of(p).list|
      invariant i <= |s.Of(p).list| && k0 <= k <= |env| && s == ListsAfter(start, env, k) && LaterLists(s0, s)
      invariant forall j :: 0 <= j < i ==> (p, s.Of(p).list[j]) in examined
      decreases |env| - k, |s.Of(p).list| - i
    {
      var list, x := s.Of(p).list, s.Of(p).list[i];
      examined := examined + {(p, x)};
      if k < |env| {
        ghost var before := s;
        ChangesLater(s, env[k]);
        s, k := ChangedAll(s, env[k]), k + 1;
        LaterTransitive(s0, before, s);
      }
      if x in s.Of(p).list {
        ghost var seen := set y | y in list && (p, y) in examined;
        Resume(list, i, s.Of(p).list, seen);
        i := IndexOf(s.Of(p).list, x) + 1;
      } else {
        i := 0;
      }
    }
  }

  /** Everything on the list of permit p has been examined, or was not there when the walk began. */
  ghost predicate PermitDone(start: Lists, s: Lists, examined: set<(nat, nat)>, p: nat) {
    forall x :: x in s.Of(p).list ==> (p, x) in examined || x !in start.Of(p).used
  }

  lemma DoneStays(start: Lists, s: Lists, s': Lists, examined: set<(nat, nat)>, more: set<(nat, nat)>, p: nat)
    requires LaterLists(start, s) && LaterLists(s, s') && PermitDone(start, s, examined, p) && examined <= more
    ensures PermitDone(start, s', more, p)
  {
    assert Later(start.Of(p), s.Of(p)) && Later(s.Of(p), s'.Of(p));
  }

  /** xpmem_clear_PTEs_range(): the permits of a segment and the attachments of each, both lists
      changing meanwhile and both walks starting over where the element worked on was deleted.  At
      exit every attachment of every permit then listed has been examined, but for attachments that
      did not exist when the walk began; and the walk ends. */
  method WalkSegment(start: Lists, env: seq<seq<ListChange>>)
    returns (s: Lists, examined: set<(nat, nat)>, k: nat)
    requires start.Valid()
    ensures k <= |env| && s == ListsAfter(start, env, k)
    ensures forall p, x :: p in s.permits.list && x in s.Of(p).list ==> (p, x) in examined || x !in start.Of(p).used
  {
    s, examined, k := start, {}, 0;
    var i: nat := 0;
    ghost var done: set<nat> := {};
    while i < |s.permits.list|
      invariant i <= |s.permits.list| && k <= |env| && s == ListsAfter(start, env, k) && LaterLists(start, s)
      invariant forall j :: 0 <= j < i ==> s.permits.list[j] in done
      invariant forall p :: p in done ==> PermitDone(start, s, examined, p)
      decreases |env| - k, |s.permits.list| - i
    {
      ghost var before := s;
      var list, p := s.permits.list, s.permits.list[i];
      var seen;
      s, seen, k := WalkPermit(s, env, k, p, start);
      LaterTransitive(start, before, s);
      forall q | q in done ensures PermitDone(start, s, examined + seen, q) {
        DoneStays(start, before, s, examined, examined + seen, q);
      }
      examined, done := examined + seen, done + {p};
      if k < |env| {
        ghost var walked := s;
        ChangesLater(s, env[k]);
        s, k := ChangedAll(s, env[k]), k + 1;
        forall q | q in done ensures PermitDone(start, s, examined, q) {
          DoneStays(start, walked, s, examined, examined, q);
        }
        LaterTransitive(start, walked, s);
        LaterTransitive(before, walked, s);
      }
      if p in s.permits.list {
        Resume(list, i, s.permits.list, done);
        i := IndexOf(s.permits.list, p) + 1;
      } else {
        i := 0;
      }
    }
  }
}
