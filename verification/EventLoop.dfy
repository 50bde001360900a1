/**
 How functors get from other threads to the loop thread (dc/net/eventLoop.cc).

 The state is what the threads share and where each of them is. A step is atomic: a push or a swap under the
 lock, a write or a read of the event descriptor, the return of poll, one functor. Functors are numbered in
 the order in which they are pushed.
 */
module EventLoop {
  import opened Options

  datatype Phase = AtPoll | Handling | Calling | Stopped

  datatype State = State(
    pending: seq<nat>,        // m_pendingFunctors
    eventfd: nat,             // counter of the event descriptor; it is readable when positive
    quit: bool,
    phase: Phase,             // where the loop thread is
    batch: seq<nat>,          // functors swapped out and not yet run
    waking: set<nat>,         // functors whose producer has pushed and not yet woken the loop
    loopWaking: Option<nat>,  // the one of these, if any, that the loop thread itself has pushed
    quitting: nat,            // other threads that have set `quit` and not yet woken the loop
    selfQueued: bool,         // the loop thread has queued a functor outside loop(), and it is still pending
    pushed: nat,              // functors pushed so far
    ran: seq<nat>)            // functors run so far, in order
  {
    function Push(): State {
      this.(pending := pending + [pushed], pushed := pushed + 1)
    }

    /** The loop thread goes on with its own work only when it is not about to wake itself. */
    predicate LoopAt(p: Phase) {
      phase == p && loopWaking == None
    }
  }

  datatype Step =
    | StartLoop         // loop() is called
    | ForeignQueue      // another thread pushes a functor
    | Wake(f: nat)      // the producer of `f` writes to the event descriptor
    | LoopQueue         // a handler or a functor queues a functor, or the loop thread does so outside loop()
    | PollReturns
    | ReadEventfd       // the handler of the event descriptor
    | SwapFunctors
    | RunFunctor
    | EndOfTurn         // the functors are done: poll again, unless told to quit
    | ForeignQuit
    | WakeToQuit
    | LoopQuit

  /** A step that is not enabled changes nothing. */
  function Next(s: State, step: Step): State {
    match step
    case StartLoop => if s.LoopAt(Stopped) then s.(phase := AtPoll, quit := false) else s
    case ForeignQueue => s.Push().(waking := s.waking + {s.pushed})
    case Wake(f) =>
      if f !in s.waking then s
      else s.(waking := s.waking - {f}, eventfd := s.eventfd + 1, loopWaking := if s.loopWaking == Some(f) then None else s.loopWaking)
    case LoopQueue =>
      if s.LoopAt(Handling) then s.Push()
      else if s.LoopAt(Stopped) then s.Push().(selfQueued := true)
      else if s.LoopAt(Calling) then s.Push().(waking := s.waking + {s.pushed}, loopWaking := Some(s.pushed))
      else s
    case PollReturns => if s.LoopAt(AtPoll) then s.(phase := Handling) else s
    case ReadEventfd => if s.LoopAt(Handling) then s.(eventfd := 0) else s
    case SwapFunctors => if s.LoopAt(Handling) then s.(phase := Calling, batch := s.pending, pending := [], selfQueued := false) else s
    case RunFunctor =>
      if s.LoopAt(Calling) && s.batch != [] then s.(batch := s.batch[1..], ran := s.ran + [s.batch[0]]) else s
    case EndOfTurn =>
      if s.LoopAt(Calling) && s.batch == [] then s.(phase := if s.quit then Stopped else AtPoll) else s
    case ForeignQuit => s.(quit := true, quitting := s.quitting + 1)
    case WakeToQuit => if s.quitting > 0 then s.(quitting := s.quitting - 1, eventfd := s.eventfd + 1) else s
    case LoopQuit => if s.LoopAt(Handling) || s.LoopAt(Calling) then s.(quit := true) else s
  }

  // ----- what is kept

  /** The functors run, those swapped out and those pending are all that were pushed, in the order of pushing. */
  ghost predicate InOrder(s: State) {
    && |s.ran| + |s.batch| + |s.pending| == s.pushed
    && forall i :: 0 <= i < s.pushed ==> (s.ran + s.batch + s.pending)[i] == i
  }

  /** No functor waits unheard: the descriptor is readable, or the functor's producer is about to write to it. */
  ghost predicate Heard(s: State) {
    forall i :: 0 <= i < |s.pending| ==> s.eventfd > 0 || s.pending[i] in s.waking
  }

  ghost predicate QuitHeard(s: State) {
    s.phase == AtPoll && s.quit ==> s.eventfd > 0 || s.quitting > 0
  }

  ghost predicate Sound(s: State) {
    && (s.phase == AtPoll || s.phase == Calling ==> Heard(s))
    && (s.phase == Stopped ==> (Heard(s) <==> s.eventfd > 0 || !s.selfQueued))
    && (s.phase == Calling ==> !s.selfQueued)
    && QuitHeard(s)
    && (s.phase != Calling ==> s.batch == [])
    && (s.loopWaking.Some? ==> s.phase == Calling && s.loopWaking.value in s.waking)
    && (forall f :: f in s.waking ==> f < s.pushed)
  }

  /** The loop, before it is started. */
  const CREATED: State := State([], 0, false, Stopped, [], {}, None, 0, false, 0, [])

  function After(s: State, steps: seq<Step>): State
    decreases |steps|
  {
    if steps == [] then s else After(Next(s, steps[0]), steps[1..])
  }

  lemma PushKeepsOrder(s: State)
    requires InOrder(s)
    ensures InOrder(s.Push())
  {
    var t := s.Push();
    assert t.ran + t.batch + t.pending == s.ran + s.batch + s.pending + [s.pushed];
  }

  lemma StepKeepsOrder(s: State, step: Step)
    requires InOrder(s) && (s.phase != Calling ==> s.batch == [])
    ensures InOrder(Next(s, step))
  {
    PushKeepsOrder(s);
    var t := Next(s, step);
    if t != s && (step == SwapFunctors || step == RunFunctor) {
      if step == RunFunctor {
        assert s.batch == [s.batch[0]] + s.batch[1..];
      }
      assert t.ran + t.batch + t.pending == s.ran + s.batch + s.pending;
    }
  }

  /** The loop thread has queued nothing before it starts the loop, or another thread has woken the loop since. */
  predicate Allowed(s: State, step: Step) {
    step == StartLoop && s.LoopAt(Stopped) ==> s.eventfd > 0 || !s.selfQueued
  }

  /** A functor that is pushed is heard if its producer is about to wake the loop, and otherwise if the descriptor is readable. */
  lemma PushHeard(s: State, t: State)
    requires t.pending == s.pending + [s.pushed] && t.eventfd == s.eventfd && (t.waking == s.waking || t.waking == s.waking + {s.pushed})
    requires forall i :: 0 <= i < |s.pending| ==> s.pending[i] < s.pushed
    requires forall f :: f in s.waking ==> f < s.pushed
    ensures Heard(t) <==> Heard(s) && (t.eventfd > 0 || s.pushed in t.waking)
  {
    assert t.pending[|s.pending|] == s.pushed;
    assert forall i :: 0 <= i < |s.pending| ==> t.pending[i] == s.pending[i];
  }

  lemma PendingBelow(s: State, i: nat)
    requires InOrder(s) && i < |s.pending|
    ensures s.pending[i] == |s.ran| + |s.batch| + i < s.pushed
  {
    assert s.pending[i] == (s.ran + s.batch + s.pending)[|s.ran| + |s.batch| + i];
  }

  /** The condition is exact. */
  lemma StepKeepsSound(s: State, step: Step)
    requires InOrder(s) && Sound(s)
    ensures Sound(Next(s, step)) <==> Allowed(s, step)
  {
    forall i | 0 <= i < |s.pending| ensures s.pending[i] < s.pushed {
      PendingBelow(s, i);
    }
    hide InOrder;
    if step == ForeignQueue || (step == LoopQueue && Next(s, step) != s) {
      PushHeard(s, Next(s, step));
      hide Heard;
    }
  }

  // ----- whole runs

  ghost predicate Legal(s: State, steps: seq<Step>)
    decreases |steps|
  {
    steps == [] || (Allowed(s, steps[0]) && Legal(Next(s, steps[0]), steps[1..]))
  }

  lemma {:induction false} RunKeepsSound(s: State, steps: seq<Step>)
    requires InOrder(s) && Sound(s) && Legal(s, steps)
    ensures Sound(After(s, steps))
    decreases |steps|
  {
    SoundBatch(s);
    hide Next, Sound, Allowed, InOrder;
    if steps != [] {
      StepKeepsSound(s, steps[0]);
      StepKeepsOrder(s, steps[0]);
      RunKeepsSound(Next(s, steps[0]), steps[1..]);
    }
  }

  lemma SoundBatch(s: State)
    requires Sound(s)
    ensures s.phase != Calling ==> s.batch == []
  {
  }

  lemma StepKeepsBatch(s: State, step: Step)
    requires s.phase != Calling ==> s.batch == []
    ensures var t := Next(s, step); t.phase != Calling ==> t.batch == []
  {
  }

  lemma {:induction false} RunKeepsOrder(s: State, steps: seq<Step>)
    requires InOrder(s) && (s.phase != Calling ==> s.batch == [])
    ensures var t := After(s, steps); InOrder(t) && (t.phase != Calling ==> t.batch == [])
    decreases |steps|
  {
    hide Next, InOrder;
    if steps != [] {
      StepKeepsOrder(s, steps[0]);
      StepKeepsBatch(s, steps[0]);
      RunKeepsOrder(Next(s, steps[0]), steps[1..]);
    }
  }

  /** In every run the functors are run at most once each, in the order in which they were pushed; at poll, those not run are pending. */
  lemma RunInPushOrder(steps: seq<Step>)
    ensures var s := After(CREATED, steps);
            && |s.ran| <= s.pushed
            && (forall i :: 0 <= i < |s.ran| ==> s.ran[i] == i)
            && (s.phase == AtPoll ==> |s.ran| + |s.pending| == s.pushed)
  {
    RunKeepsOrder(CREATED, steps);
    var s := After(CREATED, steps);
    assert forall i :: 0 <= i < |s.ran| ==> (s.ran + s.batch + s.pending)[i] == s.ran[i];
  }

  /** In every such run, a functor that is pending while the loop polls has woken the loop, or is about to; so has a request to quit. */
  lemma NoLostWakeup(steps: seq<Step>, i: nat)
    requires Legal(CREATED, steps) && After(CREATED, steps).phase == AtPoll
    ensures var s := After(CREATED, steps); i < |s.pending| ==> s.eventfd > 0 || s.pending[i] in s.waking
    ensures var s := After(CREATED, steps); s.quit ==> s.eventfd > 0 || s.quitting > 0
  {
    RunKeepsSound(CREATED, steps);
  }

  /** A functor that the loop thread queues before it starts the loop wakes nobody, and a request to quit is forgotten. */
  lemma QueuedBeforeStart(s: State)
    requires s.LoopAt(Stopped) && s.eventfd == 0 && InOrder(s) && forall f :: f in s.waking ==> f < s.pushed
    ensures var t := After(s, [LoopQueue, ForeignQuit, StartLoop]);
            t.phase == AtPoll && t.pending == s.pending + [s.pushed] && t.eventfd == 0 && s.pushed !in t.waking && !t.quit
  {
    var t := Next(s, LoopQueue);
    var u := Next(t, ForeignQuit);
    assert [LoopQueue, ForeignQuit, StartLoop][1..] == [ForeignQuit, StartLoop];
    assert [ForeignQuit, StartLoop][1..] == [StartLoop];
    assert After(u, [StartLoop]) == After(Next(u, StartLoop), []);
  }

  /** Nothing else makes the loop forget a request to quit. */
  lemma QuitForgottenIffStarted(s: State, step: Step)
    requires s.quit
    ensures !Next(s, step).quit <==> step == StartLoop && s.LoopAt(Stopped)
  {
  }

  // ----- what each step is for

  /** Where the loop thread is after a step: around the loop, and out of it exactly at the end of a turn with a request to quit. */
  lemma PhaseIs(s: State, step: Step)
    ensures Next(s, step).phase == (
              if s.loopWaking.Some? then s.phase
              else if s.phase == Stopped && step == StartLoop then AtPoll
              else if s.phase == AtPoll && step == PollReturns then Handling
              else if s.phase == Handling && step == SwapFunctors then Calling
              else if s.phase == Calling && step == EndOfTurn && s.batch == [] then (if s.quit then Stopped else AtPoll)
              else s.phase)
  {
  }

  /** The thread leaves loop() exactly at the end of a turn in which a request to quit is set. */
  lemma LeavesIff(s: State, step: Step)
    requires s.phase != Stopped
    ensures Next(s, step).phase == Stopped <==> step == EndOfTurn && s.LoopAt(Calling) && s.batch == [] && s.quit
  {
  }

  predicate AsksToQuit(step: Step) {
    step == ForeignQuit || step == LoopQuit
  }

  /** A request to quit is set by a call of quit(), from any thread, and by nothing else. */
  lemma QuitSetIff(s: State, step: Step)
    requires !s.quit
    ensures Next(s, step).quit <==> step == ForeignQuit || (step == LoopQuit && (s.LoopAt(Handling) || s.LoopAt(Calling)))
  {
  }

  /** However long it runs, a loop that nobody asks to quit does not stop. */
  lemma {:induction false} LoopsUntilQuit(s: State, steps: seq<Step>)
    requires s.phase != Stopped && !s.quit && forall i :: 0 <= i < |steps| ==> !AsksToQuit(steps[i])
    ensures After(s, steps).phase != Stopped && !After(s, steps).quit
    decreases |steps|
  {
    hide Next;
    if steps != [] {
      LeavesIff(s, steps[0]);
      QuitSetIff(s, steps[0]);
      LoopsUntilQuit(Next(s, steps[0]), steps[1..]);
    }
  }

  /** A request to quit that is made while the loop runs stays until the loop is left, which the end of the turn then does. */
  lemma QuitStays(s: State, steps: seq<Step>)
    requires s.quit && forall i :: 0 <= i < |steps| ==> steps[i] != StartLoop
    ensures var t := After(s, steps); t.quit && (t.LoopAt(Calling) && t.batch == [] ==> Next(t, EndOfTurn).phase == Stopped)
  {
    QuitKept(s, steps);
    PhaseIs(After(s, steps), EndOfTurn);
  }

  lemma {:induction false} QuitKept(s: State, steps: seq<Step>)
    requires s.quit && forall i :: 0 <= i < |steps| ==> steps[i] != StartLoop
    ensures After(s, steps).quit
    decreases |steps|
  {
    hide Next;
    if steps != [] {
      QuitForgottenIffStarted(s, steps[0]);
      QuitKept(Next(s, steps[0]), steps[1..]);
    }
  }

  /** The steps that queue a functor: the loop thread does not while it polls, or is about to wake itself. */
  predicate Queues(s: State, step: Step) {
    step == ForeignQueue || (step == LoopQueue && s.phase != AtPoll && s.loopWaking == None)
  }

  /** Exactly these push a functor, last; it is followed by a wakeup unless the loop thread itself will look at the queue before it polls. */
  lemma PushesIff(s: State, step: Step)
    ensures var t := Next(s, step);
            && t.pushed == s.pushed + (if Queues(s, step) then 1 else 0)
            && (Queues(s, step) ==> t.pending == s.pending + [s.pushed])
            && (Queues(s, step) ==> t.waking == s.waking + if step == ForeignQueue || s.phase == Calling then {s.pushed} else {})
  {
  }

  /** Exactly a functor's turn runs it; the counter of the descriptor counts the wakeups since it was last read. */
  lemma RunsAndWakes(s: State, step: Step)
    ensures var t := Next(s, step);
            && t.ran == s.ran + (if step == RunFunctor && s.LoopAt(Calling) && s.batch != [] then [s.batch[0]] else [])
            && t.eventfd == (
                 if step == ReadEventfd && s.LoopAt(Handling) then 0
                 else if (step.Wake? && step.f in s.waking) || (step == WakeToQuit && s.quitting > 0) then s.eventfd + 1
                 else s.eventfd)
  {
  }

  function QueuedBy(s: State, steps: seq<Step>): nat
    decreases |steps|
  {
    if steps == [] then 0 else (if Queues(s, steps[0]) then 1 else 0) + QueuedBy(Next(s, steps[0]), steps[1..])
  }

  /** In every run, each functor that a thread queues is counted, so that it is run, swapped out or pending. */
  lemma {:induction false} EveryFunctorCounts(s: State, steps: seq<Step>)
    ensures After(s, steps).pushed == s.pushed + QueuedBy(s, steps)
    decreases |steps|
  {
    hide Next, Queues;
    if steps != [] {
      PushesIff(s, steps[0]);
      EveryFunctorCounts(Next(s, steps[0]), steps[1..]);
    }
  }

  /** What may happen while a functor runs: the steps of other threads, and the calls that the functor makes. */
  predicate IsOther(step: Step) {
    step.ForeignQueue? || step.Wake? || step.LoopQueue? || step.ForeignQuit? || step.WakeToQuit? || step.LoopQuit?
  }

  lemma CountsRight(s: State)
    requires InOrder(s)
    ensures |s.ran| + |s.batch| + |s.pending| == s.pushed
  {
  }

  lemma LoopWakes(s: State)
    requires Sound(s) && s.loopWaking.Some?
    ensures s.loopWaking.value in s.waking
  {
  }

  // ----- the object

  class EventLoop {
    var pending: seq<nat>
    var eventfd: nat
    var quit: bool
    var phase: Phase
    var batch: seq<nat>
    var producers: Producers
    var pushed: nat
    ghost var ran: seq<nat>

    ghost function View(): State
      reads this
    {
      State(pending, eventfd, quit, phase, batch, producers.waking, producers.loopWaking, producers.quitting, producers.selfQueued, pushed, ran)
    }

    ghost predicate Valid()
      reads this
    {
      InOrder(View()) && Sound(View())
    }

    constructor ()
      ensures View() == CREATED && Valid()
    {
      pending, eventfd, quit, phase, batch, pushed, ran := [], 0, false, Stopped, [], 0, [];
      producers := Producers({}, None, 0, false);
    }

    /** The critical section of queueInLoop, and the decision that it leads to. */
    method Push(inLoopThread: bool) returns (functor: nat, mustWake: bool)
      requires Valid() && (inLoopThread ==> phase != AtPoll && producers.loopWaking == None)
      modifies this
      ensures Valid() && View() == Next(old(View()), if inLoopThread then LoopQueue else ForeignQueue)
      ensures functor == old(pushed) && (mustWake <==> functor in producers.waking)
    {
      ghost var step := if inLoopThread then LoopQueue else ForeignQueue;
      StepKeepsOrder(View(), step);
      StepKeepsSound(View(), step);
      functor := pushed;
      pending, pushed := pending + [functor], pushed + 1;
      mustWake := !inLoopThread || phase == Calling;
      if phase == Stopped && inLoopThread {
        producers := producers.(selfQueued := true);
      }
      if mustWake {
        producers := producers.(waking := producers.waking + {functor}, loopWaking := if inLoopThread then Some(functor) else producers.loopWaking);
      }
    }

    method Wakeup(functor: nat)
      requires Valid() && functor in producers.waking
      modifies this
      ensures Valid() && View() == Next(old(View()), Wake(functor))
    {
      StepKeepsOrder(View(), Wake(functor));
      StepKeepsSound(View(), Wake(functor));
      eventfd := eventfd + 1;
      producers := producers.(waking := producers.waking - {functor},
                              loopWaking := if producers.loopWaking == Some(functor) then None else producers.loopWaking);
    }

    /** queueInLoop, when no other thread comes in between: the functor is last, and will be heard. */
    method QueueInLoop(inLoopThread: bool) returns (functor: nat)
      requires Valid() && (inLoopThread ==> phase != AtPoll && producers.loopWaking == None)
      modifies this
      ensures Valid() && pending == old(pending) + [functor] && functor == old(pushed)
      ensures !inLoopThread || phase == Calling ==> eventfd == old(eventfd) + 1
      ensures producers.waking == old(producers.waking) && phase == old(phase) && ran == old(ran)
    {
      var mustWake;
      assert old(pushed) !in producers.waking;
      functor, mustWake := Push(inLoopThread);
      if mustWake {
        Wakeup(functor);
      }
    }

    method HandleRead()
      requires Valid() && phase == Handling
      modifies this
      ensures Valid() && View() == Next(old(View()), ReadEventfd)
    {
      StepKeepsOrder(View(), ReadEventfd);
      StepKeepsSound(View(), ReadEventfd);
      eventfd := 0;
    }

    method SwapPending()
      requires Valid() && phase == Handling
      modifies this
      ensures Valid() && View() == Next(old(View()), SwapFunctors) && producers.loopWaking == None
    {
      StepKeepsOrder(View(), SwapFunctors);
      StepKeepsSound(View(), SwapFunctors);
      assert producers.loopWaking == None;
      hide Sound, InOrder;
      phase, batch, pending := Calling, pending, [];
      producers := producers.(selfQueued := false);
    }

    method RunNext()
      requires Valid() && phase == Calling && batch != [] && producers.loopWaking == None
      modifies `batch, `ran
      ensures Valid() && View() == Next(old(View()), RunFunctor)
    {
      StepKeepsOrder(View(), RunFunctor);
      StepKeepsSound(View(), RunFunctor);
      hide Sound, InOrder;
      ran, batch := ran + [batch[0]], batch[1..];
    }

    /** Something that another thread does, or the functor that runs. */
    method Other(step: Step)
      requires Valid() && phase == Calling && IsOther(step)
      modifies this
      ensures Valid() && View() == Next(old(View()), step)
    {
      StepKeepsOrder(View(), step);
      StepKeepsSound(View(), step);
      hide Sound, InOrder;
      match step
      case ForeignQueue =>
        pending, producers := pending + [pushed], producers.(waking := producers.waking + {pushed});
        pushed := pushed + 1;
      case LoopQueue =>
        if producers.loopWaking == None {
          pending, producers := pending + [pushed], producers.(waking := producers.waking + {pushed}, loopWaking := Some(pushed));
          pushed := pushed + 1;
        }
      case Wake(f) =>
        if f in producers.waking {
          Wakeup(f);
        }
      case ForeignQuit => quit, producers := true, producers.(quitting := producers.quitting + 1);
      case WakeToQuit =>
        if producers.quitting > 0 {
          eventfd, producers := eventfd + 1, producers.(quitting := producers.quitting - 1);
        }
      case LoopQuit =>
        if producers.loopWaking == None {
          quit := true;
        }
    }

    /** All that happens while a functor runs; at the end of it the functor has woken the loop if it has queued another. */
    method Meanwhile(steps: seq<Step>)
      requires Valid() && phase == Calling && forall i :: 0 <= i < |steps| ==> IsOther(steps[i])
      modifies this
      ensures Valid() && phase == Calling && batch == old(batch) && ran == old(ran) && producers.loopWaking == None
    {
      hide Sound, InOrder;
      for i := 0 to |steps|
        invariant Valid() && phase == Calling && batch == old(batch) && ran == old(ran)
      {
        Other(steps[i]);
      }
      if producers.loopWaking.Some? {
        LoopWakes(View());
        Wakeup(producers.loopWaking.value);
      }
    }

    /**
     doPendingFunctors, with whatever the functors and other threads do meanwhile: all that was pending is run, in
     order, and what is queued meanwhile is left, in order, for the next turn.
     */
    method DoPendingFunctors(meanwhile: seq<seq<Step>>)
      requires Valid() && phase == Handling
      requires forall k, i :: 0 <= k < |meanwhile| && 0 <= i < |meanwhile[k]| ==> IsOther(meanwhile[k][i])
      modifies this
      ensures Valid() && phase == Calling && batch == [] && producers.loopWaking == None
      ensures ran == old(ran) + old(pending)
      ensures |pending| == pushed - old(pushed) && forall i :: 0 <= i < |pending| ==> pending[i] == old(pushed) + i
    {
      SoundBatch(View());
      CountsRight(View());
      hide Sound, InOrder;
      SwapPending();
      RunBatch(meanwhile);
      CountsRight(View());
      forall i | 0 <= i < |pending| ensures pending[i] == old(pushed) + i {
        PendingBelow(View(), i);
      }
    }

    /** The loop over the functors taken. */
    method RunBatch(meanwhile: seq<seq<Step>>)
      requires Valid() && phase == Calling && producers.loopWaking == None
      requires forall k, i :: 0 <= k < |meanwhile| && 0 <= i < |meanwhile[k]| ==> IsOther(meanwhile[k][i])
      modifies this
      ensures Valid() && phase == Calling && batch == [] && producers.loopWaking == None
      ensures ran == old(ran) + old(batch)
    {
      hide Sound, InOrder;
      var k := 0;
      while batch != []
        invariant Valid() && phase == Calling && producers.loopWaking == None
        invariant ran + batch == old(ran) + old(batch)
        decreases |batch|
      {
        assert ran + batch == ran + [batch[0]] + batch[1..];
        RunNext();
        Meanwhile(if k < |meanwhile| then meanwhile[k] else []);
        k := k + 1;
      }
    }

    /** The end of a turn, and its start: poll, unless told to quit. */
    method EndTurn()
      requires Valid() && phase == Calling && batch == [] && producers.loopWaking == None
      modifies this
      ensures Valid() && View() == Next(old(View()), EndOfTurn)
      ensures phase == if old(quit) then Stopped else AtPoll
    {
      StepKeepsOrder(View(), EndOfTurn);
      StepKeepsSound(View(), EndOfTurn);
      phase := if quit then Stopped else AtPoll;
    }

    method Quit(inLoopThread: bool)
      requires Valid() && (inLoopThread ==> (phase == Handling || phase == Calling) && producers.loopWaking == None)
      modifies this
      ensures Valid() && quit && (!inLoopThread ==> eventfd == old(eventfd) + 1)
      ensures pending == old(pending) && batch == old(batch) && ran == old(ran) && phase == old(phase)
    {
      ghost var step := if inLoopThread then LoopQuit else ForeignQuit;
      StepKeepsOrder(View(), step);
      StepKeepsSound(View(), step);
      quit := true;
      if !inLoopThread {
        ghost var between := producers.(quitting := producers.quitting + 1);
        ghost var s := View().(quitting := between.quitting);
        StepKeepsOrder(s, WakeToQuit);
        StepKeepsSound(s, WakeToQuit);
        eventfd := eventfd + 1;
      }
    }

    method Start()
      requires Valid() && phase == Stopped && Allowed(View(), StartLoop)
      modifies this
      ensures Valid() && View() == Next(old(View()), StartLoop)
    {
      StepKeepsOrder(View(), StartLoop);
      StepKeepsSound(View(), StartLoop);
      phase, quit := AtPoll, false;
    }
  }

  /** What is known of the threads that are between a push, or a request to quit, and the wakeup, and of functors without one. */
  datatype Producers = Producers(waking: set<nat>, loopWaking: Option<nat>, quitting: nat, selfQueued: bool)
}
