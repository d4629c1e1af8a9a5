/**
 Segment and permit ids: the racing counter that makes them unique, the packing of the
 owner's tgid into them, and the bucketed lookup of a permit.
 */
module Ids {
  import opened Words

  const MAX_UNIQ_ID: nat := 0x3FFF_FFFF  // INT_MAX >> 1
  const BUCKETS: nat := 8

  // ----- Packing -----

  /** struct xpmem_id in a 64-bit integer: tgid in the low half, uniq in the high half. */
  function Pack(tgid: nat, uniq: nat): nat {
    tgid + uniq * TWO32
  }

  function TgidOf(id: nat): nat {
    id % TWO32
  }

  function UniqOf(id: nat): nat {
    id / TWO32
  }

  /** An id decodes to what it was made of, and no other parts make the same id. */
  lemma PackExact(tgid: nat, uniq: nat, id: nat)
    requires tgid < TWO32
    ensures id == Pack(tgid, uniq) <==> TgidOf(id) == tgid && UniqOf(id) == uniq
  {
  }

  // ----- The counter -----

  /** A thread in xpmem_make_segid() or xpmem_make_apid(). */
  datatype Pc = Idle | Undo

  /** `counter` is uniq_segid or uniq_apid; `issued` are the ids handed out, in order. */
  datatype State = State(tgid: nat, counter: int, issued: seq<nat>, threads: seq<Pc>)

  /** One atomic operation on the counter. */
  function Step(s: State, t: nat): State
    requires t < |s.threads|
  {
    match s.threads[t]
    case Idle =>
      var uniq := ToInt(s.counter + 1);
      if uniq > MAX_UNIQ_ID then s.(counter := uniq, threads := s.threads[t := Undo])
      else s.(counter := uniq, issued := s.issued + [Pack(s.tgid, uniq % TWO32)])
    case Undo => s.(counter := ToInt(s.counter - 1), threads := s.threads[t := Idle])
  }

  function Run(s: State, schedule: seq<nat>): State
    decreases |schedule|
  {
    if schedule == [] then s
    else Run(if schedule[0] < |s.threads| then Step(s, schedule[0]) else s, schedule[1..])
  }

  function Undoing(threads: seq<Pc>): set<nat> {
    set t: nat | t < |threads| && threads[t].Undo?
  }

  /** The counter is the ids issued plus the overshoots not yet undone, and there is an overshoot
      only when all ids are issued. */
  ghost predicate Inv(s: State) {
    && |s.threads| <= MAX_UNIQ_ID + 1
    && s.counter == |s.issued| + |Undoing(s.threads)|
    && |s.issued| <= MAX_UNIQ_ID
    && (Undoing(s.threads) != {} ==> |s.issued| == MAX_UNIQ_ID)
    && (forall i :: 0 <= i < |s.issued| ==> s.issued[i] == Pack(s.tgid, i + 1))
  }

  lemma {:induction false} UndoingBound(threads: seq<Pc>)
    ensures |Undoing(threads)| <= |threads|
  {
    if threads != [] {
      var n := |threads| - 1;
      UndoingBound(threads[..n]);
      assert Undoing(threads) - {n} == Undoing(threads[..n]);
    }
  }

  lemma UndoingStep(threads: seq<Pc>, t: nat)
    requires t < |threads|
    ensures threads[t].Idle? ==>
              |Undoing(threads[t := Undo])| == |Undoing(threads)| + 1 && |Undoing(threads)| < |threads|
    ensures threads[t].Undo? ==> |Undoing(threads[t := Idle])| == |Undoing(threads)| - 1
    ensures threads[t].Undo? ==> 0 < |Undoing(threads)| <= |threads|
  {
    UndoingBound(threads);
    UndoingBound(threads[t := Undo]);
    assert Undoing(threads[t := Undo]) == Undoing(threads) + {t};
    assert Undoing(threads[t := Idle]) == Undoing(threads) - {t};
    assert threads[t].Undo? <==> t in Undoing(threads);
  }

  lemma StepKeepsInv(s: State, t: nat)
    requires Inv(s) && t < |s.threads|
    ensures Inv(Step(s, t))
  {
    UndoingStep(s.threads, t);
  }

  lemma {:induction false} RunKeepsInv(s: State, schedule: seq<nat>)
    requires Inv(s)
    ensures Inv(Run(s, schedule)) && Run(s, schedule).tgid == s.tgid
    decreases |schedule|
  {
    if schedule != [] {
      if schedule[0] < |s.threads| {
        StepKeepsInv(s, schedule[0]);
        RunKeepsInv(Step(s, schedule[0]), schedule[1..]);
      } else {
        RunKeepsInv(s, schedule[1..]);
      }
    }
  }

  function Init(tgid: nat, threads: nat): State {
    State(tgid, 0, [], seq(threads, _ => Idle))
  }

  /** Positive signed 64-bit integers, all different, that decode to the tgid. */
  predicate Proper(tgid: nat, ids: seq<nat>) {
    && (forall i :: 0 <= i < |ids| ==> 0 < ids[i] < TWO63 && TgidOf(ids[i]) == tgid)
    && (forall i, j :: 0 <= i < j < |ids| ==> ids[i] != ids[j])
  }

  lemma FewThreadsProper(tgid: nat, threads: nat, schedule: seq<nat>)
    requires 0 < tgid < TWO31 && threads <= MAX_UNIQ_ID + 1
    ensures Proper(tgid, Run(Init(tgid, threads), schedule).issued)
  {
    assert Undoing(Init(tgid, threads).threads) == {};
    RunKeepsInv(Init(tgid, threads), schedule);
  }

  /** In every schedule of few threads, a call hands out the next id while there is one, and is turned
      away once all are handed out, with the counter set back by its next step. */
  lemma CallIssues(tgid: nat, threads: nat, schedule: seq<nat>, t: nat)
    requires 0 < tgid < TWO31 && threads <= MAX_UNIQ_ID + 1
    requires var s := Run(Init(tgid, threads), schedule); t < |s.threads| && s.threads[t].Idle?
    ensures var s := Run(Init(tgid, threads), schedule);
            var s' := Step(s, t);
            if |s.issued| < MAX_UNIQ_ID then
              s'.issued == s.issued + [Pack(tgid, |s.issued| + 1)] && s'.threads == s.threads
            else
              && s'.issued == s.issued && s'.threads == s.threads[t := Undo]
              && Step(s', t) == s
  {
    var s := Run(Init(tgid, threads), schedule);
    assert Undoing(Init(tgid, threads).threads) == {};
    RunKeepsInv(Init(tgid, threads), schedule);
    UndoingStep(s.threads, t);
    assert s.threads[t := Undo][t := Idle] == s.threads;
  }

  /** One thread takes the next k ids. */
  lemma {:induction false} TakeIds(s: State, k: nat) returns (schedule: seq<nat>)
    requires s.threads != [] && s.threads[0].Idle?
    requires 0 <= s.counter && s.counter + k <= MAX_UNIQ_ID
    ensures var r := Run(s, schedule); r.threads == s.threads && r.counter == s.counter + k && r.tgid == s.tgid
    decreases k
  {
    if k == 0 {
      schedule := [];
    } else {
      var rest := TakeIds(Step(s, 0), k - 1);
      schedule := [0] + rest;
      assert schedule[1..] == rest;
    }
  }

  /** Threads i to i + k - 1 overshoot the limit. */
  lemma {:induction false} Overshoot(s: State, i: nat, k: nat) returns (schedule: seq<nat>)
    requires i + k <= |s.threads| && s.counter == MAX_UNIQ_ID + i && s.counter + k < TWO31
    requires forall t :: i <= t < |s.threads| ==> s.threads[t].Idle?
    ensures var r := Run(s, schedule);
            && |r.threads| == |s.threads| && r.counter == s.counter + k && r.tgid == s.tgid
            && (forall t :: i + k <= t < |r.threads| ==> r.threads[t].Idle?)
    decreases k
  {
    if k == 0 {
      schedule := [];
    } else {
      var rest := Overshoot(Step(s, i), i + 1, k - 1);
      schedule := [i] + rest;
      assert schedule[1..] == rest;
    }
  }

  lemma {:induction false} RunConcat(s: State, a: seq<nat>, b: seq<nat>)
    ensures Run(s, a + b) == Run(Run(s, a), b)
    decreases |a|
  {
    if a == [] {
      assert a + b == b;
    } else {
      assert (a + b)[1..] == a[1..] + b;
      RunConcat(if a[0] < |s.threads| then Step(s, a[0]) else s, a[1..], b);
    }
  }

  /** With one thread more the counter wraps to negative, and a negative id is handed out. */
  lemma ManyThreadsImproper(tgid: nat, threads: nat) returns (schedule: seq<nat>)
    requires 0 < tgid < TWO31 && threads > MAX_UNIQ_ID + 1
    ensures !Proper(tgid, Run(Init(tgid, threads), schedule).issued)
  {
    var s := Init(tgid, threads);
    var a := TakeIds(s, MAX_UNIQ_ID);
    var b := Overshoot(Run(s, a), 0, MAX_UNIQ_ID + 1);
    RunConcat(s, a, b);
    var r := Run(s, a + b);
    RunConcat(s, a + b, [MAX_UNIQ_ID + 1]);
    schedule := a + b + [MAX_UNIQ_ID + 1];
    assert Run(r, [MAX_UNIQ_ID + 1]) == Step(r, MAX_UNIQ_ID + 1);
    assert Step(r, MAX_UNIQ_ID + 1).issued[|r.issued|] == Pack(tgid, TWO31);
  }

  /** Ids handed out by one group are positive, all different and decode to the group's tgid in
      every schedule, even when racing threads overshoot and undo the counter at the limit, if
      and only if at most 2^30 threads race. */
  lemma IdsProperIffFewThreads(tgid: nat, threads: nat)
    requires 0 < tgid < TWO31
    ensures (forall schedule :: Proper(tgid, Run(Init(tgid, threads), schedule).issued)) <==> threads <= MAX_UNIQ_ID + 1
  {
    if threads <= MAX_UNIQ_ID + 1 {
      forall schedule ensures Proper(tgid, Run(Init(tgid, threads), schedule).issued) {
        FewThreadsProper(tgid, threads, schedule);
      }
    } else {
      var schedule := ManyThreadsImproper(tgid, threads);
    }
  }

  // ----- Lookup -----

  datatype Permit = Permit(apid: nat, destroying: bool)

  /** xpmem_ap_hashtable_index() */
  function Bucket(apid: nat): nat {
    UniqOf(apid) % BUCKETS
  }

  /** All permits of the group, over its buckets. */
  predicate Listed(table: seq<seq<Permit>>, p: Permit) {
    exists b :: 0 <= b < |table| && p in table[b]
  }

  /** Permits are hashed by their id, and no two have the same. */
  predicate TableOk(table: seq<seq<Permit>>) {
    && |table| == BUCKETS
    && (forall b, i :: 0 <= b < |table| && 0 <= i < |table[b]| ==> Bucket(table[b][i].apid) == b)
    && (forall b, i, j :: 0 <= b < |table| && 0 <= i < j < |table[b]| ==> table[b][i].apid != table[b][j].apid)
  }

  /** The table, and which of the ids handed out have been entered in it. */
  datatype Table = Table(buckets: seq<seq<Permit>>, entered: set<nat>)

  /** What is done to the table: a thread enters the permit it made the k-th id for, a permit is
      marked, or taken off its list. */
  datatype TableOp = Enter(k: nat) | MarkAt(b: nat, i: nat) | TakeOff(b: nat, i: nat)

  predicate Holds(t: Table, b: nat, i: nat) {
    b < |t.buckets| && i < |t.buckets[b]|
  }

  function Operate(ids: seq<nat>, t: Table, op: TableOp): Table
    requires |t.buckets| == BUCKETS
  {
    match op
    case Enter(k) =>
      if k < |ids| && k !in t.entered then
        var b := Bucket(ids[k]);
        Table(t.buckets[b := t.buckets[b] + [Permit(ids[k], false)]], t.entered + {k})
      else t
    case MarkAt(b, i) =>
      if Holds(t, b, i) then t.(buckets := t.buckets[b := t.buckets[b][i := t.buckets[b][i].(destroying := true)]]) else t
    case TakeOff(b, i) =>
      if Holds(t, b, i) then t.(buckets := t.buckets[b := t.buckets[b][..i] + t.buckets[b][i + 1..]]) else t
  }

  function OperateAll(ids: seq<nat>, t: Table, ops: seq<TableOp>): Table
    requires |t.buckets| == BUCKETS
    decreases |ops|
  {
    if ops == [] then t else OperateAll(ids, Operate(ids, t, ops[0]), ops[1..])
  }

  /** Every permit in the table was entered under one of the ids. */
  ghost predicate Entered(ids: seq<nat>, t: Table) {
    && (forall k :: k in t.entered ==> k < |ids|)
    && (forall b, i :: 0 <= b < |t.buckets| && 0 <= i < |t.buckets[b]| ==> Named(ids, t.entered, t.buckets[b][i].apid))
  }

  ghost predicate Named(ids: seq<nat>, entered: set<nat>, apid: nat) {
    exists k :: k in entered && k < |ids| && ids[k] == apid
  }

  lemma OperateKeeps(tgid: nat, ids: seq<nat>, t: Table, op: TableOp)
    requires Proper(tgid, ids) && TableOk(t.buckets) && Entered(ids, t)
    ensures TableOk(Operate(ids, t, op).buckets) && Entered(ids, Operate(ids, t, op))
  {
    if op.Enter? && op.k < |ids| && op.k !in t.entered {
      var t' := Operate(ids, t, op);
      assert !Named(ids, t.entered, ids[op.k]);
      assert Named(ids, t'.entered, ids[op.k]);
      forall apid | Named(ids, t.entered, apid) ensures Named(ids, t'.entered, apid) {
        var k :| k in t.entered && k < |ids| && ids[k] == apid;
        assert k in t'.entered;
      }
    }
  }

  lemma {:induction false} OperateAllKeeps(tgid: nat, ids: seq<nat>, t: Table, ops: seq<TableOp>)
    requires Proper(tgid, ids) && TableOk(t.buckets) && Entered(ids, t)
    ensures TableOk(OperateAll(ids, t, ops).buckets)
    decreases |ops|
  {
    if ops != [] {
      OperateKeeps(tgid, ids, t, ops[0]);
      OperateAllKeeps(tgid, ids, Operate(ids, t, ops[0]), ops[1..]);
    }
  }

  /** Every table that is filled with ids handed out in any schedule has what the lookup needs. */
  lemma IssuedTableOk(tgid: nat, threads: nat, schedule: seq<nat>, ops: seq<TableOp>)
    requires 0 < tgid < TWO31 && threads <= MAX_UNIQ_ID + 1
    ensures TableOk(OperateAll(Run(Init(tgid, threads), schedule).issued, Table(seq(BUCKETS, _ => []), {}), ops).buckets)
  {
    FewThreadsProper(tgid, threads, schedule);
    OperateAllKeeps(tgid, Run(Init(tgid, threads), schedule).issued, Table(seq(BUCKETS, _ => []), {}), ops);
  }

  datatype Option<T> = None | Some(value: T)

  /** xpmem_ap_ref_by_apid(): the search of one bucket, which stops at a permit being destroyed,
      finds what a search of all the group's permits finds. */
  method ApByApid(table: seq<seq<Permit>>, apid: nat) returns (r: Option<Permit>)
    requires TableOk(table)
    ensures r.Some? ==> r.value.apid == apid && !r.value.destroying && Listed(table, r.value)
    ensures r.None? ==> forall p :: Listed(table, p) && p.apid == apid ==> p.destroying
  {
    var index := Bucket(apid);
    var list := table[index];
    for i := 0 to |list|
      invariant forall j :: 0 <= j < i ==> list[j].apid != apid
    {
      if list[i].apid == apid {
        if list[i].destroying {
          break;
        }
        return Some(list[i]);
      }
    }
    r := None;
  }
}
