/**
 What a call of the recall gate returns, over every run: whoever asks to wait comes back only after
 it was inside, whoever does not never sleeps and is turned away only for a reason; and what a call
 does that nobody disturbs.
 */
module GateCalls {
  import opened Gate

  datatype Option<T> = None | Some(value: T)

  /** The call that a thread is in, whether it has been inside since, and whether the gate has been
      barred to it at some moment since. */
  datatype Story = Story(call: Option<Call>, inside: bool, barred: bool)

  /** The gate is barred to a blocker by recallers inside or queued, to a recaller by blockers inside. */
  predicate Bars(s: State, call: Call) {
    if call.Block? then s.n > 0 || RecallerQueued(s) else s.n < 0
  }

  function Told(s: State, e: Event, t: nat, y: Story): Story {
    var s' := Next(s, e);
    if t >= |s.threads| then y
    else if e.t == t && s.threads[t].Idle? then Story(Some(e.call), false, Bars(s', e.call))
    else
      y.(inside := y.inside || s'.threads[t].Blocking? || s'.threads[t].Recalling?,
         barred := y.barred || (y.call.Some? && Bars(s', y.call.value)))
  }

  /** The story of thread t after a run. */
  function StoryOf(s: State, events: seq<Event>, t: nat, y: Story): Story
    decreases |events|
  {
    if events == [] then y else StoryOf(Next(s, events[0]), events[1..], t, Told(s, events[0], t, y))
  }

  const Fresh := Story(None, false, false)

  function Tale(threads: nat, events: seq<Event>, t: nat): Story {
    StoryOf(Init(threads), events, t, Fresh)
  }

  /** What a program counter says of the story so far, gate state s. */
  ghost predicate Fits(s: State, pc: Pc, y: Story) {
    match pc
    case Idle => true
    case TestQueue(wait) => y.call == Some(Block(wait)) && !y.inside && (Bars(s, Block(wait)) ==> y.barred)
    case ReadForBlock(wait) => y.call == Some(Block(wait)) && !y.inside && (Bars(s, Block(wait)) ==> y.barred)
    case TryBlock(wait, value) =>
      y.call == Some(Block(wait)) && !y.inside && (Bars(s, Block(wait)) ==> y.barred) && (value > 0 ==> y.barred)
    case Refused(wait) => y.call == Some(Block(wait)) && !y.inside && y.barred
    case WaitToBlock(_) => y.call == Some(Block(true)) && !y.inside && y.barred
    case Blocking => y.call.Some? && y.call.value.Block? && y.inside
    case WakeRecallers => y.call.Some? && y.call.value.Block? && y.inside
    case ReadForRecall => y.call == Some(Disallow) && !y.inside && (Bars(s, Disallow) ==> y.barred)
    case TryRecall(value) =>
      y.call == Some(Disallow) && !y.inside && (Bars(s, Disallow) ==> y.barred) && (value < 0 ==> y.barred)
    case WaitToRecall(_) => y.call == Some(Disallow) && !y.inside && y.barred
    case Recalling => y.call == Some(Disallow) && y.inside
    case WakeBlockers => y.call == Some(Disallow) && y.inside
  }

  lemma OwnStepFits(s: State, t: nat, call: Call, y: Story)
    requires t < |s.threads| && Fits(s, s.threads[t], y)
    ensures var s' := Step(s, t, call); Fits(s', s'.threads[t], Told(s, Event(t, call), t, y))
  {
  }

  lemma OtherStepFits(s: State, e: Event, t: nat, y: Story)
    requires t < |s.threads| && e.t != t && Fits(s, s.threads[t], y)
    ensures var s' := Next(s, e); Fits(s', s'.threads[t], Told(s, e, t, y))
  {
  }

  lemma {:induction false} RunFits(s: State, events: seq<Event>, t: nat, y: Story)
    requires t < |s.threads| && Fits(s, s.threads[t], y)
    ensures var s' := Run(s, events); t < |s'.threads| && Fits(s', s'.threads[t], StoryOf(s, events, t, y))
    decreases |events|
  {
    if events != [] {
      if events[0].t == t {
        OwnStepFits(s, t, events[0].call, y);
      } else {
        OtherStepFits(s, events[0], t, y);
      }
      RunFits(Next(s, events[0]), events[1..], t, Told(s, events[0], t, y));
    }
  }

  /** Thread t returns from a call with event e. */
  predicate Returns(s: State, e: Event, t: nat) {
    e.t == t && t < |s.threads| && !s.threads[t].Idle? && Next(s, e).threads[t].Idle?
  }

  /** In every run, a call that returns has been inside the gate, unless it was told not to wait, and
      then it is turned away only if at some moment since it began recallers were inside or queued. */
  lemma CallReturns(threads: nat, events: seq<Event>, e: Event, t: nat)
    requires Returns(Run(Init(threads), events), e, t)
    ensures var y := Tale(threads, events, t);
            y.call.Some? && (y.inside || (y.call == Some(Block(false)) && y.barred))
  {
    var s := Run(Init(threads), events);
    RunThreads(Init(threads), events);
    RunFits(Init(threads), events, t, Fresh);
  }

  lemma {:induction false} RunThreads(s: State, events: seq<Event>)
    ensures |Run(s, events).threads| == |s.threads|
    decreases |events|
  {
    if events != [] {
      RunThreads(Next(s, events[0]), events[1..]);
    }
  }

  /** In every run, a thread waits only in a call that may wait and to which the gate was barred at
      some moment since it began; one that was told not to wait never does. */
  lemma CallWaits(threads: nat, events: seq<Event>, t: nat)
    requires t < threads
    ensures var s, y := Run(Init(threads), events), Tale(threads, events, t);
            && t < |s.threads|
            && (s.threads[t].WaitToBlock? ==> y.call == Some(Block(true)) && y.barred)
            && (s.threads[t].WaitToRecall? ==> y.call == Some(Disallow) && y.barred)
            && (s.threads[t].Blocking? ==> y.call == Some(Block(true)) || y.call == Some(Block(false)))
            && (s.threads[t].Recalling? ==> y.call == Some(Disallow))
  {
    RunFits(Init(threads), events, t, Fresh);
  }

  // ----- Calls that nobody disturbs -----

  /** k steps of thread t. */
  function Steps(s: State, t: nat, call: Call, k: nat): State
    decreases k
  {
    if k == 0 then s else Steps(Next(s, Event(t, call)), t, call, k - 1)
  }

  /** No recaller is inside or queued: a blocker is inside after four steps. */
  lemma BlockerAlone(s: State, t: nat, wait: bool)
    requires t < |s.threads| && s.threads[t].Idle? && s.n <= 0 && !RecallerQueued(s)
    ensures Steps(s, t, Block(wait), 4) == State(s.n - 1, s.threads[t := Blocking])
  {
    var s1 := Go(s, t, TestQueue(wait));
    var s2, s3 := Go(s, t, ReadForBlock(wait)), Go(s, t, TryBlock(wait, s.n));
    NobodyQueued(s, t, TestQueue(wait));
    assert Next(s, Event(t, Block(wait))) == s1 && Next(s1, Event(t, Block(wait))) == s2;
    assert Next(s2, Event(t, Block(wait))) == s3;
    var s4 := Next(s3, Event(t, Block(wait)));
    assert Steps(s3, t, Block(wait), 1) == Steps(s4, t, Block(wait), 0);
    assert Steps(s1, t, Block(wait), 3) == Steps(s2, t, Block(wait), 2) == Steps(s3, t, Block(wait), 1);
  }

  lemma NobodyQueued(s: State, t: nat, pc: Pc)
    requires t < |s.threads| && !RecallerQueued(s) && !pc.WaitToRecall?
    ensures !RecallerQueued(Go(s, t, pc))
  {
    var s' := Go(s, t, pc);
    assert forall i :: 0 <= i < |s.threads| && i != t ==> s'.threads[i] == s.threads[i];
  }

  /** No blocker is inside: a recaller is inside after three steps. */
  lemma RecallerAlone(s: State, t: nat)
    requires t < |s.threads| && s.threads[t].Idle? && s.n >= 0
    ensures Steps(s, t, Disallow, 3) == State(s.n + 1, s.threads[t := Recalling])
  {
    var s1, s2 := Go(s, t, ReadForRecall), Go(s, t, TryRecall(s.n));
    assert Next(s, Event(t, Disallow)) == s1 && Next(s1, Event(t, Disallow)) == s2;
    var s3 := Next(s2, Event(t, Disallow));
    assert Steps(s1, t, Disallow, 2) == Steps(s2, t, Disallow, 1) == Steps(s3, t, Disallow, 0);
  }

  /** Recallers are inside: a blocker that may not wait is turned away, and one that may goes to sleep. */
  lemma BlockerBarred(s: State, t: nat, wait: bool)
    requires t < |s.threads| && s.threads[t].Idle? && s.n > 0 && !RecallerQueued(s)
    ensures Steps(s, t, Block(wait), 5) == s.(threads := s.threads[t := if wait then WaitToBlock(Test) else Idle])
    ensures Steps(Go(s, t, WaitToBlock(Test)), t, Block(wait), 3) == Go(s, t, WaitToBlock(Asleep(false)))
  {
    var e := Event(t, Block(wait));
    var s1, s2 := Go(s, t, TestQueue(wait)), Go(s, t, ReadForBlock(wait));
    var s3, s4 := Go(s, t, TryBlock(wait, s.n)), Go(s, t, Refused(wait));
    NobodyQueued(s, t, TestQueue(wait));
    assert Next(s, e) == s1 && Next(s1, e) == s2 && Next(s2, e) == s3 && Next(s3, e) == s4;
    assert Steps(s3, t, Block(wait), 2) == Steps(s4, t, Block(wait), 1) == Steps(Next(s4, e), t, Block(wait), 0);
    assert Steps(s, t, Block(wait), 5) == Steps(s1, t, Block(wait), 4) == Steps(s2, t, Block(wait), 3);
    var w0, w1 := Go(s, t, WaitToBlock(Test)), Go(s, t, WaitToBlock(Enqueue));
    var w2, w3 := Go(s, t, WaitToBlock(Recheck(false))), Go(s, t, WaitToBlock(Asleep(false)));
    assert Next(w0, e) == w1 && Next(w1, e) == w2 && Next(w2, e) == w3;
    assert Steps(w1, t, Block(wait), 2) == Steps(w2, t, Block(wait), 1) == Steps(w3, t, Block(wait), 0);
  }

  /** The last blocker leaves and takes every recaller off the queue; the others just leave. */
  lemma UnblockAlone(s: State, t: nat, call: Call)
    requires t < |s.threads| && s.threads[t].Blocking?
    ensures s.n + 1 != 0 ==> Steps(s, t, call, 1) == State(s.n + 1, s.threads[t := Idle])
    ensures s.n + 1 == 0 ==>
              var s' := Steps(s, t, call, 2);
              && s'.n == 0 && |s'.threads| == |s.threads| && s'.threads[t].Idle? && !RecallerQueued(s')
              && forall i :: 0 <= i < |s.threads| && i != t && !s.threads[i].WaitToRecall? ==> s'.threads[i] == s.threads[i]
  {
    var s1 := Next(s, Event(t, call));
    assert Steps(s, t, call, 1) == Steps(s1, t, call, 0);
    assert Steps(s, t, call, 2) == Steps(s1, t, call, 1) == Steps(Next(s1, Event(t, call)), t, call, 0);
  }

  predicate BlockerQueued(s: State) {
    exists i :: 0 <= i < |s.threads| && s.threads[i].WaitToBlock? && s.threads[i].w.OnQueue()
  }

  /** The last recaller leaves and takes every blocker off the queue; the others just leave. */
  lemma AllowAlone(s: State, t: nat, call: Call)
    requires t < |s.threads| && s.threads[t].Recalling?
    ensures s.n - 1 != 0 ==> Steps(s, t, call, 1) == State(s.n - 1, s.threads[t := Idle])
    ensures s.n - 1 == 0 ==>
              var s' := Steps(s, t, call, 2);
              && s'.n == 0 && |s'.threads| == |s.threads| && s'.threads[t].Idle? && !BlockerQueued(s')
              && forall i :: 0 <= i < |s.threads| && i != t && !s.threads[i].WaitToBlock? ==> s'.threads[i] == s.threads[i]
  {
    var s1 := Next(s, Event(t, call));
    assert Steps(s, t, call, 1) == Steps(s1, t, call, 0);
    assert Steps(s, t, call, 2) == Steps(s1, t, call, 1) == Steps(Next(s1, Event(t, call)), t, call, 0);
  }

  /** A blocker that has been woken and finds no recaller gets in. */
  lemma WokenBlockerAlone(s: State, t: nat, call: Call)
    requires t < |s.threads| && s.threads[t] == WaitToBlock(Asleep(true)) && s.n <= 0 && !RecallerQueued(s)
    ensures Steps(s, t, call, 6) == State(s.n - 1, s.threads[t := Blocking])
  {
    var e := Event(t, call);
    var s1, s2, s3 := Go(s, t, WaitToBlock(Enqueue)), Go(s, t, WaitToBlock(Recheck(false))), Go(s, t, TestQueue(true));
    var s4, s5 := Go(s, t, ReadForBlock(true)), Go(s, t, TryBlock(true, s.n));
    NobodyQueued(s, t, TestQueue(true));
    assert Next(s, e) == s1 && Next(s1, e) == s2 && Next(s2, e) == s3 && Next(s3, e) == s4 && Next(s4, e) == s5;
    assert Steps(s, t, call, 6) == Steps(s1, t, call, 5) == Steps(s2, t, call, 4);
    assert Steps(s2, t, call, 4) == Steps(s3, t, call, 3) == Steps(s4, t, call, 2) == Steps(s5, t, call, 1);
    assert Steps(s5, t, call, 1) == Steps(Next(s5, e), t, call, 0);
  }

  /** A recaller that has been woken and finds no blocker gets in. */
  lemma WokenRecallerAlone(s: State, t: nat, call: Call)
    requires t < |s.threads| && s.threads[t] == WaitToRecall(Asleep(true)) && s.n >= 0
    ensures Steps(s, t, call, 5) == State(s.n + 1, s.threads[t := Recalling])
  {
    var e := Event(t, call);
    var s1, s2 := Go(s, t, WaitToRecall(Enqueue)), Go(s, t, WaitToRecall(Recheck(false)));
    var s3, s4 := Go(s, t, ReadForRecall), Go(s, t, TryRecall(s.n));
    assert Next(s, e) == s1 && Next(s1, e) == s2 && Next(s2, e) == s3 && Next(s3, e) == s4;
    assert Steps(s, t, call, 5) == Steps(s1, t, call, 4) == Steps(s2, t, call, 3) == Steps(s3, t, call, 2);
    assert Steps(s3, t, call, 2) == Steps(s4, t, call, 1) == Steps(Next(s4, e), t, call, 0);
  }
}
