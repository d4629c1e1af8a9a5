/**
 The recall gate of one thread group: the signed counter n_recall_PFNs, the two
 wait queues, and the four functions that drive them by compare-and-swap.

 Any number of threads run the gate's code.  A thread is a program counter with
 the local `value` it last read, which may be stale.  One step is one shared
 access: a read, a compare-and-swap, an atomic add, a queue test, an enqueue or
 a wake-up.  A run is any sequence of steps of any threads.
 */
module Gate {

  /** Where a thread is inside wait_event().  `woken` records that a wake-up has
      taken the thread off the queue again. */
  datatype Wait = Test | Enqueue | Recheck(woken: bool) | Asleep(woken: bool)
  {
    predicate OnQueue() {
      (Recheck? || Asleep?) && !woken
    }

    function Wake(): Wait {
      if Recheck? then Recheck(true) else if Asleep? then Asleep(true) else this
    }
  }

  datatype WaitResult = Proceed | Again(w: Wait)

  datatype Pc =
    | Idle
      // xpmem_block_recall_PFNs(tg, wait)
    | TestQueue(wait: bool)
    | ReadForBlock(wait: bool)
    | TryBlock(wait: bool, value: int)
    | Refused(wait: bool)
    | WaitToBlock(w: Wait)
    | Blocking
      // xpmem_unblock_recall_PFNs(tg), after the increment reached zero
    | WakeRecallers
      // xpmem_disallow_blocking_recall_PFNs(tg)
    | ReadForRecall
    | TryRecall(value: int)
    | WaitToRecall(w: Wait)
    | Recalling
      // xpmem_allow_blocking_recall_PFNs(tg), after the decrement reached zero
    | WakeBlockers

  /** What an idle thread calls next; ignored by a thread that is not idle. */
  datatype Call = Block(wait: bool) | Disallow

  datatype State = State(n: int, threads: seq<Pc>)

  datatype Event = Event(t: nat, call: Call)

  // ----- The code -----

  /** One step of wait_event(queue, cond). */
  function WaitStep(w: Wait, cond: bool): WaitResult {
    match w
    case Test => if cond then Proceed else Again(Enqueue)
    case Enqueue => Again(Recheck(false))
    case Recheck(woken) =>
      if cond then Proceed else if woken then Again(Enqueue) else Again(Asleep(false))
    case Asleep(woken) => if woken then Again(Enqueue) else Again(w)
  }

  /** waitqueue_active(&tg->allow_recall_PFNs_wq) */
  predicate RecallerQueued(s: State) {
    exists i :: 0 <= i < |s.threads| && s.threads[i].WaitToRecall? && s.threads[i].w.OnQueue()
  }

  /** wake_up(&tg->allow_recall_PFNs_wq): every queued waiter leaves the queue. */
  function WokenRecallers(threads: seq<Pc>): (r: seq<Pc>)
    ensures |r| == |threads|
  {
    seq(|threads|, i requires 0 <= i < |threads| =>
      if threads[i].WaitToRecall? then WaitToRecall(threads[i].w.Wake()) else threads[i])
  }

  /** wake_up(&tg->block_recall_PFNs_wq) */
  function WokenBlockers(threads: seq<Pc>): (r: seq<Pc>)
    ensures |r| == |threads|
  {
    seq(|threads|, i requires 0 <= i < |threads| =>
      if threads[i].WaitToBlock? then WaitToBlock(threads[i].w.Wake()) else threads[i])
  }

  function Go(s: State, t: nat, pc: Pc): (r: State)
    requires t < |s.threads|
    ensures |r.threads| == |s.threads|
  {
    s.(threads := s.threads[t := pc])
  }

  function Step(s: State, t: nat, call: Call): (r: State)
    requires t < |s.threads|
    ensures |r.threads| == |s.threads|
  {
    match s.threads[t]
    case Idle =>
      Go(s, t, if call.Block? then TestQueue(call.wait) else ReadForRecall)
    case TestQueue(wait) =>
      Go(s, t, if RecallerQueued(s) then Refused(wait) else ReadForBlock(wait))
    case ReadForBlock(wait) =>
      Go(s, t, TryBlock(wait, s.n))
    case TryBlock(wait, value) =>
      if value > 0 then Go(s, t, Refused(wait))
      else if s.n == value then Go(s, t, Blocking).(n := value - 1)
      else Go(s, t, TryBlock(wait, s.n))
    case Refused(wait) =>
      Go(s, t, if wait then WaitToBlock(Test) else Idle)
    case WaitToBlock(w) =>
      var r := WaitStep(w, s.n <= 0);
      Go(s, t, if r.Proceed? then TestQueue(true) else WaitToBlock(r.w))
    case Blocking =>
      Go(s, t, if s.n + 1 == 0 then WakeRecallers else Idle).(n := s.n + 1)
    case WakeRecallers =>
      Go(s.(threads := WokenRecallers(s.threads)), t, Idle)
    case ReadForRecall =>
      Go(s, t, TryRecall(s.n))
    case TryRecall(value) =>
      if value < 0 then Go(s, t, WaitToRecall(Test))
      else if s.n == value then Go(s, t, Recalling).(n := value + 1)
      else Go(s, t, TryRecall(s.n))
    case WaitToRecall(w) =>
      var r := WaitStep(w, s.n >= 0);
      Go(s, t, if r.Proceed? then ReadForRecall else WaitToRecall(r.w))
    case Recalling =>
      Go(s, t, if s.n - 1 == 0 then WakeBlockers else Idle).(n := s.n - 1)
    case WakeBlockers =>
      Go(s.(threads := WokenBlockers(s.threads)), t, Idle)
  }

  /** Events of threads that do not exist are skipped. */
  function Next(s: State, e: Event): (r: State)
    ensures |r.threads| == |s.threads|
  {
    if e.t < |s.threads| then Step(s, e.t, e.call) else s
  }

  function Run(s: State, events: seq<Event>): State
    decreases |events|
  {
    if events == [] then s else Run(Next(s, events[0]), events[1..])
  }

  function Init(threads: nat): State {
    State(0, seq(threads, _ => Idle))
  }

  // ----- Exclusion -----

  function Blockers(s: State): set<nat> {
    set i: nat | i < |s.threads| && s.threads[i].Blocking?
  }

  function Recallers(s: State): set<nat> {
    set i: nat | i < |s.threads| && s.threads[i].Recalling?
  }

  /** The counter is the number of recallers inside less the number of blockers
      inside, and never are both kinds inside. */
  ghost predicate Exclusive(s: State) {
    && s.n == |Recallers(s)| - |Blockers(s)|
    && (Recallers(s) == {} || Blockers(s) == {})
  }

  // ----- Wake-ups -----

  /** Some recaller sleeps although the count would let it in. */
  ghost predicate RecallerOverslept(s: State) {
    s.n >= 0 && exists i :: 0 <= i < |s.threads| && s.threads[i] == WaitToRecall(Asleep(false))
  }

  ghost predicate BlockerOverslept(s: State) {
    s.n <= 0 && exists i :: 0 <= i < |s.threads| && s.threads[i] == WaitToBlock(Asleep(false))
  }

  /** Whenever a thread sleeps although its condition holds, some thread is about to
      issue the matching wake-up. */
  ghost predicate NoLostWakeup(s: State) {
    && (RecallerOverslept(s) ==> WakeRecallers in s.threads)
    && (BlockerOverslept(s) ==> WakeBlockers in s.threads)
  }

  ghost predicate Inv(s: State) {
    Exclusive(s) && NoLostWakeup(s)
  }

  // ----- The simple gate the code implements -----

  /** The gate as the rest of the driver sees it: who is inside, on which side. */
  datatype Simple = Simple(blockers: set<nat>, recallers: set<nat>)

  ghost function Abstract(s: State): Simple {
    Simple(Blockers(s), Recallers(s))
  }

  /** One atomic step of the simple gate by thread t: enter a side while the other
      side is empty, leave, or do nothing. */
  ghost predicate SimpleStep(a: Simple, b: Simple, t: nat) {
    || b == a
    || (a.recallers == {} && t !in a.blockers && b == a.(blockers := a.blockers + {t}))
    || (a.blockers == {} && t !in a.recallers && b == a.(recallers := a.recallers + {t}))
    || (t in a.blockers && b == a.(blockers := a.blockers - {t}))
    || (t in a.recallers && b == a.(recallers := a.recallers - {t}))
  }

  /** What a step does to the counter and to the two sides. */
  ghost predicate Moved(s: State, s': State, t: nat) {
    var b, r, b', r' := Blockers(s), Recallers(s), Blockers(s'), Recallers(s');
    || (s'.n == s.n && b' == b && r' == r)
    || (s.n <= 0 && s'.n == s.n - 1 && t !in b && b' == b + {t} && r' == r)
    || (s.n >= 0 && s'.n == s.n + 1 && t !in r && r' == r + {t} && b' == b)
    || (s'.n == s.n + 1 && t in b && b' == b - {t} && r' == r)
    || (s'.n == s.n - 1 && t in r && r' == r - {t} && b' == b)
  }

  lemma StepMoves(s: State, t: nat, call: Call)
    requires t < |s.threads|
    ensures Moved(s, Step(s, t, call), t)
  {
    var s' := Step(s, t, call);
    var pc' := s'.threads[t];
    assert |s'.threads| == |s.threads|;
    assert forall i :: 0 <= i < |s.threads| && i != t ==>
      s'.threads[i].Blocking? == s.threads[i].Blocking? && s'.threads[i].Recalling? == s.threads[i].Recalling?;
    assert Blockers(s') == if pc'.Blocking? then Blockers(s) + {t} else Blockers(s) - {t};
    assert Recallers(s') == if pc'.Recalling? then Recallers(s) + {t} else Recallers(s) - {t};
  }

  lemma MoveKeepsExclusive(s: State, s': State, t: nat)
    requires Exclusive(s) && Moved(s, s', t)
    ensures Exclusive(s')
    ensures SimpleStep(Abstract(s), Abstract(s'), t)
  {
    var b, r := Blockers(s), Recallers(s);
    assert |b| == 0 <==> b == {};
    assert |r| == 0 <==> r == {};
    if t in b {
      assert |b - {t}| == |b| - 1;
    }
    if t in r {
      assert |r - {t}| == |r| - 1;
    }
  }

  /** The compare-and-swap gate refines the simple gate: every step of the code is
      a step of the simple gate or invisible to it. */
  lemma GateRefinesSimple(s: State, t: nat, call: Call)
    requires t < |s.threads| && Exclusive(s)
    ensures Exclusive(Step(s, t, call))
    ensures SimpleStep(Abstract(s), Abstract(Step(s, t, call)), t)
  {
    StepMoves(s, t, call);
    MoveKeepsExclusive(s, Step(s, t, call), t);
  }

  /** Whoever lets the count reach zero goes on to wake the other side. */
  lemma LastWakes(s: State, t: nat, call: Call)
    requires t < |s.threads|
    ensures s.n > 0 && Step(s, t, call).n <= 0 ==> Step(s, t, call).threads[t] == WakeBlockers
    ensures s.n < 0 && Step(s, t, call).n >= 0 ==> Step(s, t, call).threads[t] == WakeRecallers
  {
  }

  /** Nobody falls asleep while its condition holds, and a wake-up spares no sleeper. */
  lemma Sleepers(s: State, t: nat, call: Call, i: nat)
    requires t < |s.threads| && i < |s.threads|
    ensures s.n >= 0 && Step(s, t, call).threads[i] == WaitToRecall(Asleep(false)) ==>
              s.threads[i] == WaitToRecall(Asleep(false)) && s.threads[t] != WakeRecallers
    ensures s.n <= 0 && Step(s, t, call).threads[i] == WaitToBlock(Asleep(false)) ==>
              s.threads[i] == WaitToBlock(Asleep(false)) && s.threads[t] != WakeBlockers
  {
  }

  lemma WakersStay(s: State, t: nat, call: Call, i: nat)
    requires t < |s.threads| && i < |s.threads| && i != t && (s.threads[i].WakeRecallers? || s.threads[i].WakeBlockers?)
    ensures Step(s, t, call).threads[i] == s.threads[i]
  {
  }

  lemma RecallerWakeStep(s: State, t: nat, call: Call)
    requires t < |s.threads| && NoLostWakeup(s)
    ensures RecallerOverslept(Step(s, t, call)) ==> WakeRecallers in Step(s, t, call).threads
  {
    var s' := Step(s, t, call);
    if i :| 0 <= i < |s'.threads| && s'.n >= 0 && s'.threads[i] == WaitToRecall(Asleep(false)) {
      LastWakes(s, t, call);
      Sleepers(s, t, call, i);
      if j :| 0 <= j < |s.threads| && s.threads[j] == WakeRecallers && j != t {
        WakersStay(s, t, call, j);
      }
    }
  }

  lemma BlockerWakeStep(s: State, t: nat, call: Call)
    requires t < |s.threads| && NoLostWakeup(s)
    ensures BlockerOverslept(Step(s, t, call)) ==> WakeBlockers in Step(s, t, call).threads
  {
    var s' := Step(s, t, call);
    if i :| 0 <= i < |s'.threads| && s'.n <= 0 && s'.threads[i] == WaitToBlock(Asleep(false)) {
      LastWakes(s, t, call);
      Sleepers(s, t, call, i);
      if j :| 0 <= j < |s.threads| && s.threads[j] == WakeBlockers && j != t {
        WakersStay(s, t, call, j);
      }
    }
  }

  lemma StepKeepsInv(s: State, t: nat, call: Call)
    requires t < |s.threads| && Inv(s)
    ensures Inv(Step(s, t, call))
  {
    GateRefinesSimple(s, t, call);
    RecallerWakeStep(s, t, call);
    BlockerWakeStep(s, t, call);
  }

  lemma {:induction false} RunKeepsInv(s: State, events: seq<Event>)
    requires Inv(s)
    ensures Inv(Run(s, events)) && |Run(s, events).threads| == |s.threads|
    decreases |events|
  {
    if events != [] {
      if events[0].t < |s.threads| {
        StepKeepsInv(s, events[0].t, events[0].call);
      }
      RunKeepsInv(Next(s, events[0]), events[1..]);
    }
  }

  /** Gate exclusion and no lost wake-up, for every number of threads and every run. */
  lemma GateIsSafe(threads: nat, events: seq<Event>)
    ensures Exclusive(Run(Init(threads), events))
    ensures NoLostWakeup(Run(Init(threads), events))
  {
    var s := Init(threads);
    assert Blockers(s) == {} && Recallers(s) == {};
    RunKeepsInv(s, events);
  }

  lemma {:induction false} SubsetSize(a: set<nat>, n: nat)
    requires forall i :: i in a ==> i < n
    ensures |a| <= n
  {
    if n > 0 {
      SubsetSize(a - {n - 1}, n - 1);
      if n - 1 in a {
        assert a == (a - {n - 1}) + {n - 1};
      } else {
        assert a == a - {n - 1};
      }
    } else {
      assert a == {};
    }
  }

  /** The counter never exceeds the number of threads in size, so the atomic_t does
      not wrap while there are fewer than 2^31 threads. */
  lemma CounterBounded(threads: nat, events: seq<Event>)
    ensures 0 - threads <= Run(Init(threads), events).n <= threads
  {
    GateIsSafe(threads, events);
    var s := Init(threads);
    assert Blockers(s) == {} && Recallers(s) == {};
    RunKeepsInv(s, events);
    var r := Run(s, events);
    SubsetSize(Blockers(r), threads);
    SubsetSize(Recallers(r), threads);
  }

  // ----- Preference for recallers -----

  predicate IsPast(pc: Pc) {
    pc.ReadForBlock? || pc.TryBlock?
  }

  /** Threads past the queue test, which may still be admitted as blockers. */
  function PastQueueTest(s: State): set<nat> {
    set i: nat | i < |s.threads| && IsPast(s.threads[i])
  }

  predicate Queued(s: State, r: nat) {
    r < |s.threads| && s.threads[r].WaitToRecall? && s.threads[r].w.OnQueue()
  }

  /** Recaller r is on the allow queue before, between and after all the events. */
  ghost predicate StaysQueued(s: State, r: nat, events: seq<Event>)
    decreases |events|
  {
    && Queued(s, r)
    && (events == [] || StaysQueued(Next(s, events[0]), r, events[1..]))
  }

  /** Whether the event takes a thread into the blocking side. */
  predicate Admits(s: State, e: Event) {
    e.t < |s.threads| && s.threads[e.t].TryBlock? && Next(s, e).threads[e.t].Blocking?
  }

  ghost function Admitted(s: State, events: seq<Event>): nat
    decreases |events|
  {
    if events == [] then 0
    else (if Admits(s, events[0]) then 1 else 0) + Admitted(Next(s, events[0]), events[1..])
  }

  lemma StepPast(s: State, t: nat, call: Call, r: nat)
    requires t < |s.threads| && Queued(s, r)
    ensures var s' := Step(s, t, call);
            && (forall i :: 0 <= i < |s.threads| && i != t ==> IsPast(s'.threads[i]) == IsPast(s.threads[i]))
            && (IsPast(s'.threads[t]) ==> IsPast(s.threads[t]))
  {
    assert RecallerQueued(s);
  }

  lemma NextPast(s: State, e: Event, r: nat)
    requires Queued(s, r)
    ensures |PastQueueTest(Next(s, e))| + (if Admits(s, e) then 1 else 0) <= |PastQueueTest(s)|
  {
    if e.t < |s.threads| {
      StepPast(s, e.t, e.call, r);
      var p, p' := PastQueueTest(s), PastQueueTest(Step(s, e.t, e.call));
      assert p' == if e.t in p' then p else p - {e.t};
    }
  }

  /** While a recaller stays queued, the blockers admitted are at most the threads
      that were already past the queue test. */
  lemma {:induction false} RecallersPreferred(s: State, r: nat, events: seq<Event>)
    requires StaysQueued(s, r, events)
    ensures Admitted(s, events) + |PastQueueTest(Run(s, events))| <= |PastQueueTest(s)|
    decreases |events|
  {
    if events != [] {
      NextPast(s, events[0], r);
      RecallersPreferred(Next(s, events[0]), r, events[1..]);
    }
  }
}
