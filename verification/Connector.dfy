/**
 The connector (dc/net/connector.cc): it makes a socket, waits for the connection, and tries again after a delay.

 Sockets are numbered in the order in which they are created. A step is a call of the interface, a function from
 the loop's queue, a retry whose delay is over, or an event on the channel.
 */
module Connector {
  import opened Options

  const INIT_RETRY_DELAY: nat := 500
  const MAX_RETRY_DELAY: nat := 30 * 1000

  datatype Link = Disconnected | Connecting | Connected

  datatype Errno =
    | Success | InProgress | Intr | IsConn
    | Again | AddrInUse | ConnRefused | NetUnreach
    | Acces | Perm | AfNoSupport | Already | BadF | Fault | NotSock
    | OtherErrno

  datatype Verdict = Proceed | TryAgain | GiveUp

  function Judge(errno: Errno): Verdict {
    match errno
    case Success | InProgress | Intr | IsConn => Proceed
    case Again | AddrInUse | ConnRefused | NetUnreach => TryAgain
    case _ => GiveUp
  }

  /** A channel waits to write while it is active; then it is removed, and stays until the loop resets it. */
  datatype Channel = Channel(fd: nat, active: bool)

  datatype Functor = StartInLoop | StopInLoop | ResetChannel

  /** What surrounds the connector, and what has happened to its sockets. */
  datatype World = World(
    pending: seq<Functor>,
    timers: nat,              // retries that wait for their delay
    created: nat,             // sockets created
    closed: multiset<nat>,    // how often each was closed
    handed: multiset<nat>,    // how often each was given to the new-connection callback
    scheduled: seq<nat>,      // delays of the retries since construction or the last restart
    gaveUp: bool,             // the last attempt failed for good
    failed: bool)             // an assertion of the source has failed

  datatype State = State(link: Link, wanted: bool, channel: Option<Channel>, delay: nat, world: World)
  {
    function Close(fd: nat): State {
      this.(world := world.(closed := world.closed + multiset{fd}))
    }

    function Fail(): State {
      this.(world := world.(failed := true))
    }

    function Retry(fd: nat): State {
      var s := Close(fd).(link := Disconnected);
      if wanted then
        s.(delay := if 2 * delay < MAX_RETRY_DELAY then 2 * delay else MAX_RETRY_DELAY,
           world := s.world.(timers := world.timers + 1, scheduled := world.scheduled + [delay]))
      else s
    }

    function Waiting(fd: nat): State {
      var s := this.(link := Connecting, channel := Some(Channel(fd, true)));
      if channel.Some? then s.Fail() else s
    }

    function Connect(errno: Errno): State {
      var fd := world.created;
      var s := this.(world := world.(created := fd + 1, gaveUp := Judge(errno) == GiveUp));
      match Judge(errno)
      case Proceed => s.Waiting(fd)
      case TryAgain => s.Retry(fd)
      case GiveUp => s.Close(fd)
    }

    function Begin(errno: Errno): State {
      if link != Disconnected then Fail()
      else if wanted then Connect(errno)
      else this
    }

    function RemoveChannel(): State
      requires channel.Some?
    {
      this.(channel := Some(channel.value.(active := false)), world := world.(pending := world.pending + [ResetChannel]))
    }

    function End(): State {
      if link == Connecting && channel.Some? then RemoveChannel().Retry(channel.value.fd) else this
    }

    function Restart(errno: Errno): State {
      this.(link := Disconnected, delay := INIT_RETRY_DELAY, wanted := true, world := world.(scheduled := [])).Begin(errno)
    }

    /** `broken` is an error of the socket, or a connection to itself. */
    function HandleWrite(broken: bool): State {
      if link == Connecting && channel.Some? then
        var fd := channel.value.fd;
        var s := RemoveChannel();
        if broken then s.Retry(fd)
        else
          var t := s.(link := Connected);
          if wanted then t.(world := t.world.(handed := t.world.handed + multiset{fd})) else t.Close(fd)
      else if link != Disconnected then Fail()
      else this
    }

    /** Channel::handleEventWithGuard: an error first, then a write if the channel still waits for one. */
    function HandleEvent(error: bool, broken: bool): State {
      if channel.None? || !channel.value.active then this
      else
        var s := if error then End() else this;
        if s.channel.Some? && s.channel.value.active then s.HandleWrite(broken) else s
    }

    function Queue(f: Functor): State {
      this.(world := world.(pending := world.pending + [f]))
    }

    function Execute(f: Functor, errno: Errno): State {
      match f
      case StartInLoop => Begin(errno)
      case StopInLoop => End()
      case ResetChannel => this.(channel := None)
    }

    function Dequeue(): State
      requires world.pending != []
    {
      this.(world := world.(pending := world.pending[1..]))
    }
  }

  datatype Step =
    | Start(foreign: bool, errno: Errno)
    | Stop
    | Restart(errno: Errno)
    | RunFunctor(errno: Errno)
    | DelayOver(errno: Errno)
    | Event(error: bool, broken: bool)

  /** A step that is not enabled changes nothing. */
  function Next(s: State, step: Step): State {
    match step
    case Start(foreign, errno) =>
      var t := s.(wanted := true);
      if foreign then t.Queue(StartInLoop) else t.Begin(errno)
    case Stop => s.(wanted := false).Queue(StopInLoop)
    case Restart(errno) => s.Restart(errno)
    case RunFunctor(errno) => if s.world.pending == [] then s else s.Dequeue().Execute(s.world.pending[0], errno)
    case DelayOver(errno) =>
      if s.world.timers == 0 then s else s.(world := s.world.(timers := s.world.timers - 1)).Begin(errno)
    case Event(error, broken) => s.HandleEvent(error, broken)
  }

  function After(s: State, steps: seq<Step>): State
    decreases |steps|
  {
    if steps == [] then s else After(Next(s, steps[0]), steps[1..])
  }

  const CREATED: State := State(Disconnected, false, None, INIT_RETRY_DELAY, World([], 0, 0, multiset{}, multiset{}, [], false, false))

  // ----- sockets

  /** How often the channel holds `fd` as the socket that is connecting. */
  function Held(s: State, fd: nat): nat {
    if s.link == Connecting && s.channel.Some? && s.channel.value.fd == fd then 1 else 0
  }

  /** Each socket that was created is in exactly one place, and once: held while connecting, closed, or handed over. */
  ghost predicate Owned(s: State) {
    forall fd: nat :: Held(s, fd) + s.world.closed[fd] + s.world.handed[fd] == if fd < s.world.created then 1 else 0
  }

  /** The channel is active exactly while connecting, and one that is not is about to be reset, once. */
  ghost predicate ChannelRight(s: State) {
    && (s.link == Connecting <==> s.channel.Some? && s.channel.value.active)
    && multiset(s.world.pending)[ResetChannel] == (if s.channel.Some? && !s.channel.value.active then 1 else 0)
  }

  /** A connector that should connect and has not is going to try, unless the last attempt failed for good. */
  ghost predicate Going(s: State) {
    s.wanted && s.link == Disconnected ==> s.world.gaveUp || s.world.timers > 0 || StartInLoop in s.world.pending
  }

  ghost predicate Sound(s: State) {
    Owned(s) && ChannelRight(s) && Going(s) && !s.world.failed
  }

  /** The assertions at the start and on a second channel. */
  predicate CanBegin(s: State, errno: Errno) {
    s.link == Disconnected && (s.wanted && Judge(errno) == Proceed ==> s.channel.None?)
  }

  predicate Allowed(s: State, step: Step) {
    match step
    case Start(foreign, errno) => foreign || CanBegin(s.(wanted := true), errno)
    case Restart(errno) => s.link != Connecting && CanBegin(s.(wanted := true, link := Disconnected), errno)
    case RunFunctor(errno) => s.world.pending != [] && s.world.pending[0] == StartInLoop ==> CanBegin(s, errno)
    case DelayOver(errno) => s.world.timers > 0 ==> CanBegin(s, errno)
    case _ => true
  }

  lemma BeginKeepsSound(s: State, errno: Errno)
    requires Owned(s) && ChannelRight(s) && !s.world.failed
    ensures Sound(s.Begin(errno)) <==> CanBegin(s, errno)
  {
    var t := s.Begin(errno);
    if CanBegin(s, errno) && s.wanted {
      assert Held(s, s.world.created) + s.world.closed[s.world.created] + s.world.handed[s.world.created] == 0;
    }
  }

  lemma EndKeepsSound(s: State)
    requires Owned(s) && ChannelRight(s) && Going(s) && !s.world.failed
    ensures Sound(s.End()) && s.End().link != Connecting
  {
    if s.link == Connecting {
      assert Held(s, s.channel.value.fd) == 1;
    }
  }

  lemma EventKeepsSound(s: State, error: bool, broken: bool)
    requires Sound(s)
    ensures Sound(s.HandleEvent(error, broken))
  {
    hide State.End;
    if s.link == Connecting {
      EndKeepsSound(s);
      assert Held(s, s.channel.value.fd) == 1;
    }
  }

  lemma FunctorKeepsSound(s: State, errno: Errno)
    requires Sound(s) && s.world.pending != []
    ensures Sound(s.Dequeue().Execute(s.world.pending[0], errno)) <==> (s.world.pending[0] == StartInLoop ==> CanBegin(s, errno))
  {
    hide State.Begin, State.End;
    var f, t := s.world.pending[0], s.Dequeue();
    assert s.world.pending == [f] + t.world.pending;
    assert Held(t, 0) == Held(s, 0);
    match f
    case StartInLoop => BeginKeepsSound(t, errno);
    case StopInLoop => EndKeepsSound(t);
    case ResetChannel =>
  }

  /** The condition is exact. */
  lemma StepKeepsSound(s: State, step: Step)
    requires Sound(s)
    ensures Sound(Next(s, step)) <==> Allowed(s, step)
  {
    hide State.Begin, State.HandleEvent, State.Execute, State.Dequeue;
    match step {
      case Start(foreign, errno) => BeginKeepsSound(s.(wanted := true), errno);
      case Stop =>
      case Restart(errno) => RestartKeepsSound(s, errno);
      case RunFunctor(errno) => if s.world.pending != [] { FunctorKeepsSound(s, errno); }
      case DelayOver(errno) => if s.world.timers > 0 { BeginKeepsSound(s.(world := s.world.(timers := s.world.timers - 1)), errno); }
      case Event(error, broken) => EventKeepsSound(s, error, broken);
    }
  }

  /** Restarting while connecting forgets the socket that is connecting. */
  lemma RestartKeepsSound(s: State, errno: Errno)
    requires Sound(s)
    ensures Sound(s.Restart(errno)) <==> Allowed(s, Restart(errno))
  {
    var t := s.(link := Disconnected, delay := INIT_RETRY_DELAY, wanted := true, world := s.world.(scheduled := []));
    if s.link != Connecting {
      hide State.Begin;
      BeginKeepsSound(t, errno);
    }
  }

  // ----- whole runs

  /** Every step is allowed when it is taken. */
  ghost predicate Legal(s: State, steps: seq<Step>)
    decreases |steps|
  {
    steps == [] || (Allowed(s, steps[0]) && Legal(Next(s, steps[0]), steps[1..]))
  }

  /** A run is sound throughout if and only if each of its steps is allowed. */
  lemma {:induction false} SoundIffLegal(s: State, steps: seq<Step>)
    requires Sound(s)
    ensures Legal(s, steps) <==> forall k :: 0 <= k <= |steps| ==> Sound(After(s, steps[..k]))
    decreases |steps|
  {
    hide Next, Sound, Allowed;
    if steps == [] {
      assert steps[..0] == steps;
    } else {
      var next, rest := Next(s, steps[0]), steps[1..];
      StepKeepsSound(s, steps[0]);
      forall k | 0 <= k <= |rest| ensures After(s, steps[..k + 1]) == After(next, rest[..k]) {
        assert steps[..k + 1][1..] == rest[..k];
      }
      assert After(next, rest[..0]) == next && After(s, steps[..0]) == s;
      if Allowed(s, steps[0]) {
        SoundIffLegal(next, rest);
        forall k | 0 <= k <= |steps| && Legal(s, steps) ensures Sound(After(s, steps[..k])) {
          if k > 0 {
            assert After(s, steps[..(k - 1) + 1]) == After(next, rest[..k - 1]);
          }
        }
        if forall k :: 0 <= k <= |steps| ==> Sound(After(s, steps[..k])) {
          forall k | 0 <= k <= |rest| ensures Sound(After(next, rest[..k])) {
            assert Sound(After(s, steps[..k + 1]));
          }
        }
      } else {
        assert !Sound(After(s, steps[..1]));
      }
    }
  }

  /** In every run of allowed steps each socket is in exactly one place, and no attempt is forgotten. */
  lemma SocketsOwnedOnce(steps: seq<Step>, fd: nat)
    requires Legal(CREATED, steps)
    ensures var s := After(CREATED, steps);
            && !s.world.failed
            && Held(s, fd) + s.world.closed[fd] + s.world.handed[fd] == (if fd < s.world.created then 1 else 0)
            && (s.wanted && s.link == Disconnected ==> s.world.gaveUp || s.world.timers > 0 || StartInLoop in s.world.pending)
  {
    SoundIffLegal(CREATED, steps);
    assert steps[..|steps|] == steps;
  }

  /** Restarting while connecting, when the new attempt does not proceed, leaks the socket: it is in no place any more. */
  lemma RestartLeaks(s: State, errno: Errno)
    requires Sound(s) && s.link == Connecting && Judge(errno) != Proceed
    ensures var t := s.Restart(errno); var fd := s.channel.value.fd;
            !t.world.failed && fd < t.world.created && Held(t, fd) + t.world.closed[fd] + t.world.handed[fd] == 0
  {
    var fd := s.channel.value.fd;
    assert Held(s, fd) == 1;
    assert Held(s, s.world.created) + s.world.closed[s.world.created] + s.world.handed[s.world.created] == 0;
  }

  // ----- delays

  function Power2(k: nat): nat {
    if k == 0 then 1 else 2 * Power2(k - 1)
  }

  /** The delay after `k` retries. */
  function Backoff(k: nat): (r: nat)
    ensures INIT_RETRY_DELAY <= r <= MAX_RETRY_DELAY
  {
    PowerPositive(k);
    if INIT_RETRY_DELAY * Power2(k) < MAX_RETRY_DELAY then INIT_RETRY_DELAY * Power2(k) else MAX_RETRY_DELAY
  }

  lemma PowerPositive(k: nat)
    ensures Power2(k) >= 1
  {
  }

  ghost predicate DelaysRight(s: State) {
    && s.delay == Backoff(|s.world.scheduled|)
    && forall i :: 0 <= i < |s.world.scheduled| ==> s.world.scheduled[i] == Backoff(i)
  }

  lemma RetryKeepsDelays(s: State, fd: nat)
    requires DelaysRight(s)
    ensures DelaysRight(s.Retry(fd))
  {
    assert Power2(|s.world.scheduled| + 1) == 2 * Power2(|s.world.scheduled|);
  }

  lemma BeginKeepsDelays(s: State, errno: Errno)
    requires DelaysRight(s)
    ensures DelaysRight(s.Begin(errno))
  {
    hide State.Retry, Backoff;
    RetryKeepsDelays(s.(world := s.world.(created := s.world.created + 1, gaveUp := false)), s.world.created);
  }

  lemma EndKeepsDelays(s: State)
    requires DelaysRight(s)
    ensures DelaysRight(s.End())
  {
    hide State.Retry, Backoff;
    if s.channel.Some? {
      RetryKeepsDelays(s.RemoveChannel(), s.channel.value.fd);
    }
  }

  lemma EventKeepsDelays(s: State, error: bool, broken: bool)
    requires DelaysRight(s)
    ensures DelaysRight(s.HandleEvent(error, broken))
  {
    hide State.Retry, State.End, Backoff;
    EndKeepsDelays(s);
    var t := if error then s.End() else s;
    if t.channel.Some? {
      RetryKeepsDelays(t.RemoveChannel(), t.channel.value.fd);
    }
  }

  lemma StepKeepsDelays(s: State, step: Step)
    requires DelaysRight(s)
    ensures DelaysRight(Next(s, step))
  {
    hide State.Begin, State.End, State.HandleEvent;
    var renewed := s.(link := Disconnected, delay := INIT_RETRY_DELAY, wanted := true, world := s.world.(scheduled := []));
    match step {
      case Start(_, errno) => BeginKeepsDelays(s.(wanted := true), errno);
      case Stop =>
      case Restart(errno) => BeginKeepsDelays(renewed, errno);
      case RunFunctor(errno) =>
        if s.world.pending != [] {
          BeginKeepsDelays(s.Dequeue(), errno);
          EndKeepsDelays(s.Dequeue());
        }
      case DelayOver(errno) =>
        if s.world.timers > 0 { BeginKeepsDelays(s.(world := s.world.(timers := s.world.timers - 1)), errno); }
      case Event(error, broken) => EventKeepsDelays(s, error, broken);
    }
  }

  lemma {:induction false} RunKeepsDelays(s: State, steps: seq<Step>)
    requires DelaysRight(s)
    ensures DelaysRight(After(s, steps))
    decreases |steps|
  {
    hide Next, DelaysRight;
    if steps != [] {
      StepKeepsDelays(s, steps[0]);
      RunKeepsDelays(Next(s, steps[0]), steps[1..]);
    }
  }

  /** In every run, the delay of each retry since construction or the last restart doubles from 500 ms up to 30 s. */
  lemma DelayDoubles(steps: seq<Step>)
    ensures var s := After(CREATED, steps);
            && s.delay == Backoff(|s.world.scheduled|)
            && forall i :: 0 <= i < |s.world.scheduled| ==> s.world.scheduled[i] == Backoff(i)
  {
    RunKeepsDelays(CREATED, steps);
  }

  // ----- what each step is for

  const PROCEEDS: set<Errno> := {Success, InProgress, Intr, IsConn}
  const RETRIED: set<Errno> := {Again, AddrInUse, ConnRefused, NetUnreach}

  /** An attempt makes a socket. It is waited for, or closed; if closed, another attempt follows after the delay, or none. */
  lemma AttemptOutcome(s: State, errno: Errno)
    requires s.link == Disconnected && s.wanted && s.channel.None?
    ensures var t, fd := s.Begin(errno), s.world.created;
            && t.world.created == fd + 1 && t.world.handed == s.world.handed
            && (errno in PROCEEDS <==> t.link == Connecting)
            && (errno in PROCEEDS ==> t.channel == Some(Channel(fd, true)) && t.world.closed == s.world.closed)
            && (errno !in PROCEEDS ==> t.link == Disconnected && t.channel == None && t.world.closed == s.world.closed + multiset{fd})
            && t.world.timers == s.world.timers + (if errno in RETRIED then 1 else 0)
            && (t.world.gaveUp <==> errno !in PROCEEDS && errno !in RETRIED)
  {
  }

  /** The steps that make an attempt, and the errno that connect() gives then. */
  predicate Begins(s: State, step: Step) {
    match step
    case Start(foreign, _) => !foreign && s.link == Disconnected
    case Restart(_) => true
    case RunFunctor(_) => s.world.pending != [] && s.world.pending[0] == StartInLoop && s.link == Disconnected && s.wanted
    case DelayOver(_) => s.world.timers > 0 && s.link == Disconnected && s.wanted
    case _ => false
  }

  function ErrnoOf(step: Step): Errno {
    match step
    case Start(_, errno) => errno
    case Restart(errno) => errno
    case RunFunctor(errno) => errno
    case DelayOver(errno) => errno
    case _ => OtherErrno
  }

  predicate IsWaiting(s: State) {
    s.channel.Some? && s.channel.value.active
  }

  /** A connection that is made, without an error, while it is wanted. */
  predicate HandsOver(s: State, step: Step) {
    step == Event(false, false) && IsWaiting(s) && s.wanted
  }

  /** An attempt that fails for now, or an event that says so, or a stop that comes too late. */
  predicate Retries(s: State, step: Step) {
    || (Begins(s, step) && ErrnoOf(step) in RETRIED)
    || (step.Event? && (step.error || step.broken) && IsWaiting(s) && s.wanted)
    || (step.RunFunctor? && s.world.pending != [] && s.world.pending[0] == StopInLoop && s.link == Connecting && s.wanted)
  }

  /** How the books of `t` differ from those of `s`: a retry, with its delay, and a channel that is to be reset. */
  ghost predicate Differs(s: State, t: State, retry: bool, reset: bool) {
    && t.wanted == s.wanted
    && t.world.timers == s.world.timers + (if retry then 1 else 0)
    && t.world.scheduled == s.world.scheduled + (if retry then [s.delay] else [])
    && t.world.pending == s.world.pending + (if reset then [ResetChannel] else [])
  }

  lemma BeginEffect(s: State, errno: Errno)
    ensures var t, attempt := s.Begin(errno), s.link == Disconnected && s.wanted;
            && Differs(s, t, attempt && errno in RETRIED, false)
            && t.world.handed == s.world.handed && t.world.created == s.world.created + (if attempt then 1 else 0)
  {
  }

  lemma EndEffect(s: State)
    requires s.link == Connecting ==> s.channel.Some?
    ensures var t := s.End();
            && Differs(s, t, s.link == Connecting && s.wanted, s.link == Connecting)
            && t.world.handed == s.world.handed && t.world.created == s.world.created
            && (s.link == Connecting ==> t.link == Disconnected && t.channel.Some? && !t.channel.value.active)
  {
  }

  lemma EventEffect(s: State, error: bool, broken: bool)
    requires ChannelRight(s)
    ensures var t := s.HandleEvent(error, broken);
            && Differs(s, t, IsWaiting(s) && (error || broken) && s.wanted, IsWaiting(s))
            && t.world.created == s.world.created
            && t.world.handed == s.world.handed + (if HandsOver(s, Event(error, broken)) then multiset{s.channel.value.fd} else multiset{})
            && (HandsOver(s, Event(error, broken)) ==> t.link == Connected)
  {
    if error {
      hide State.End;
      EndEffect(s);
    }
  }

  /** Exactly a connection that is made is handed over: its socket is then neither held nor closed. */
  lemma HandedOverIff(s: State, step: Step)
    requires Sound(s)
    ensures var t := Next(s, step);
            && t.world.handed == s.world.handed + (if HandsOver(s, step) then multiset{s.channel.value.fd} else multiset{})
            && t.world.created == s.world.created + (if Begins(s, step) then 1 else 0)
            && (HandsOver(s, step) ==> t.link == Connected && Held(t, s.channel.value.fd) == 0 && t.world.closed[s.channel.value.fd] == 0)
  {
    if HandsOver(s, step) {
      StepKeepsSound(s, step);
      assert Held(s, s.channel.value.fd) == 1;
      assert Owned(Next(s, step));
    }
    hide State.Begin, State.End, State.HandleEvent, Owned;
    Effects(s, step);
  }

  /** What the parts of a step do, whichever it is. */
  lemma Effects(s: State, step: Step)
    requires ChannelRight(s)
    ensures match step
            case Start(foreign, errno) => foreign || Differs(s.(wanted := true), Next(s, step), Begins(s, step) && errno in RETRIED, false)
            case Stop => true
            case Restart(errno) => Differs(s.(link := Disconnected, delay := INIT_RETRY_DELAY, wanted := true, world := s.world.(scheduled := [])),
                                           Next(s, step), errno in RETRIED, false)
            case RunFunctor(_) => s.world.pending == [] ||
              Differs(s.Dequeue(), Next(s, step), Retries(s, step), s.world.pending[0] == StopInLoop && s.link == Connecting)
            case DelayOver(_) => s.world.timers == 0 ||
              Differs(s.(world := s.world.(timers := s.world.timers - 1)), Next(s, step), Retries(s, step), false)
            case Event(_, _) => Differs(s, Next(s, step), Retries(s, step), IsWaiting(s))
    ensures Next(s, step).world.created == s.world.created + (if Begins(s, step) then 1 else 0)
    ensures Next(s, step).world.handed == s.world.handed + (if HandsOver(s, step) then multiset{s.channel.value.fd} else multiset{})
    ensures HandsOver(s, step) ==> Next(s, step).link == Connected
  {
    hide State.Begin, State.End, State.HandleEvent;
    match step {
      case Start(_, errno) => BeginEffect(s.(wanted := true), errno);
      case Stop =>
      case Restart(errno) =>
        BeginEffect(s.(link := Disconnected, delay := INIT_RETRY_DELAY, wanted := true, world := s.world.(scheduled := [])), errno);
      case RunFunctor(errno) => if s.world.pending != [] { FunctorEffect(s, errno); }
      case DelayOver(errno) => if s.world.timers > 0 { BeginEffect(s.(world := s.world.(timers := s.world.timers - 1)), errno); }
      case Event(error, broken) => EventEffect(s, error, broken);
    }
  }

  lemma FunctorEffect(s: State, errno: Errno)
    requires (s.link == Connecting ==> s.channel.Some?) && s.world.pending != []
    ensures var t := s.Dequeue().Execute(s.world.pending[0], errno);
            && Differs(s.Dequeue(), t, Retries(s, RunFunctor(errno)), s.world.pending[0] == StopInLoop && s.link == Connecting)
            && t.world.handed == s.world.handed && t.world.created == s.world.created + (if Begins(s, RunFunctor(errno)) then 1 else 0)
  {
    hide State.Begin, State.End;
    var d := s.Dequeue();
    match s.world.pending[0] {
      case StartInLoop => BeginEffect(d, errno);
      case StopInLoop => EndEffect(d);
      case ResetChannel =>
    }
  }

  /** When retries are scheduled, and with which delay; a restart starts the delays again. */
  lemma ScheduledIff(s: State, step: Step)
    requires Sound(s)
    ensures var t := Next(s, step);
            && t.world.timers == s.world.timers - (if step.DelayOver? && s.world.timers > 0 then 1 else 0) + (if Retries(s, step) then 1 else 0)
            && t.world.scheduled == (if step.Restart? then [] else s.world.scheduled)
                                    + (if !Retries(s, step) then [] else if step.Restart? then [INIT_RETRY_DELAY] else [s.delay])
  {
    hide State.Begin, State.End, State.HandleEvent, State.Restart, State.Execute, Owned;
    Effects(s, step);
  }

  /** Whether a connection is wanted, and what the loop's queue holds. */
  lemma WantedIs(s: State, step: Step)
    requires Sound(s)
    ensures var t, pending := Next(s, step), s.world.pending;
            && t.wanted == (if step.Start? || step.Restart? then true else if step.Stop? then false else s.wanted)
            && t.world.pending == (
                 match step
                 case Start(foreign, _) => if foreign then pending + [StartInLoop] else pending
                 case Stop => pending + [StopInLoop]
                 case RunFunctor(_) =>
                   if pending == [] then []
                   else pending[1..] + if pending[0] == StopInLoop && s.link == Connecting then [ResetChannel] else []
                 case Event(_, _) => if IsWaiting(s) then pending + [ResetChannel] else pending
                 case _ => pending)
  {
    hide State.Begin, State.End, State.HandleEvent, State.Restart, State.Execute, Owned;
    Effects(s, step);
  }

  /** The socket that is connecting, or that made the connection, is the last one that was created. */
  ghost predicate LastHanded(s: State) {
    && (s.link != Disconnected ==> s.wanted && s.world.created > 0)
    && (s.link == Connecting ==> s.channel.Some? && s.channel.value.fd == s.world.created - 1)
    && (s.link == Connected ==> s.world.handed[s.world.created - 1] == 1)
  }

  lemma StepKeepsLastHanded(s: State, step: Step)
    requires Sound(s) && Allowed(s, step) && LastHanded(s) && step != Stop
    ensures LastHanded(Next(s, step))
  {
    StepKeepsSound(s, step);
    HandedOverIff(s, step);
    WantedIs(s, step);
    LinkAfter(s, step);
    hide Next, Owned, Going;
  }

  /** Where a socket is connecting after an allowed step, and when the connector is connected. */
  lemma LinkAfter(s: State, step: Step)
    requires Sound(s) && Allowed(s, step)
    ensures var t := Next(s, step);
            && (t.link == Connecting ==> t.channel.Some? && if Begins(s, step) then t.channel.value.fd == s.world.created
                                                           else s.link == Connecting && t.channel == s.channel)
            && (t.link == Connected ==> (s.link == Connected && !Begins(s, step)) || (s.link == Connecting && (s.wanted ==> HandsOver(s, step))))
  {
    hide Owned, Going;
  }

  /** In every run of allowed steps without a stop, a connector that is connected has handed over the last socket it created. */
  lemma {:induction false} ConnectedIsHandedOver(s: State, steps: seq<Step>)
    requires Sound(s) && Legal(s, steps) && LastHanded(s) && forall i :: 0 <= i < |steps| ==> steps[i] != Stop
    ensures var t := After(s, steps); t.link == Connected ==> t.world.created > 0 && t.world.handed[t.world.created - 1] == 1
    decreases |steps|
  {
    if steps != [] {
      hide Next, Sound, Allowed, LastHanded;
      StepKeepsSound(s, steps[0]);
      StepKeepsLastHanded(s, steps[0]);
      ConnectedIsHandedOver(Next(s, steps[0]), steps[1..]);
    }
  }

  // ----- stopping

  lemma IdleStep(s: State, step: Step)
    requires !s.wanted && !step.Start? && !step.Restart?
    ensures var t := Next(s, step);
            !t.wanted && t.world.created == s.world.created && t.world.handed == s.world.handed && t.world.timers <= s.world.timers
  {
  }

  /** Once stopped, and until it is started again, it makes no socket, hands none over and schedules no retry. */
  lemma {:induction false} StoppedStaysIdle(s: State, steps: seq<Step>)
    requires !s.wanted && forall i :: 0 <= i < |steps| ==> !steps[i].Start? && !steps[i].Restart?
    ensures var t := After(s, steps);
            !t.wanted && t.world.created == s.world.created && t.world.handed == s.world.handed && t.world.timers <= s.world.timers
    decreases |steps|
  {
    hide Next;
    if steps != [] {
      IdleStep(s, steps[0]);
      StoppedStaysIdle(Next(s, steps[0]), steps[1..]);
    }
  }

  // ----- the object

  class Connector {
    var link: Link
    var wanted: bool
    var channel: Option<Channel>
    var delay: nat
    var world: World

    ghost function View(): State
      reads this
    {
      State(link, wanted, channel, delay, world)
    }

    ghost predicate Valid()
      reads this
    {
      Sound(View()) && DelaysRight(View())
    }

    constructor ()
      ensures View() == CREATED && Valid()
    {
      link, wanted, channel, delay := Disconnected, false, None, INIT_RETRY_DELAY;
      world := World([], 0, 0, multiset{}, multiset{}, [], false, false);
    }

    method Close(fd: nat)
      modifies `world
      ensures View() == old(View()).Close(fd)
    {
      world := world.(closed := world.closed + multiset{fd});
    }

    method Retry(fd: nat)
      modifies `link, `delay, `world
      ensures View() == old(View()).Retry(fd)
    {
      Close(fd);
      link := Disconnected;
      if wanted {
        world := world.(timers := world.timers + 1, scheduled := world.scheduled + [delay]);
        delay := if 2 * delay < MAX_RETRY_DELAY then 2 * delay else MAX_RETRY_DELAY;
      }
    }

    method Connect(errno: Errno)
      requires Judge(errno) == Proceed ==> channel.None?
      modifies `link, `channel, `delay, `world
      ensures View() == old(View()).Connect(errno)
    {
      var fd := world.created;
      world := world.(created := fd + 1, gaveUp := Judge(errno) == GiveUp);
      match Judge(errno)
      case Proceed => link, channel := Connecting, Some(Channel(fd, true));
      case TryAgain => Retry(fd);
      case GiveUp => Close(fd);
    }

    method Begin(errno: Errno)
      requires CanBegin(View(), errno)
      modifies `link, `channel, `delay, `world
      ensures View() == old(View()).Begin(errno)
    {
      hide State.Connect;
      if wanted {
        Connect(errno);
      }
    }

    method RemoveAndResetChannel() returns (fd: nat)
      requires channel.Some?
      modifies `channel, `world
      ensures View() == old(View()).RemoveChannel() && fd == old(channel.value.fd)
    {
      fd := channel.value.fd;
      channel := Some(channel.value.(active := false));
      world := world.(pending := world.pending + [ResetChannel]);
    }

    /** Both stopInLoop and handleError. */
    method End()
      requires link == Connecting ==> channel.Some?
      modifies this
      ensures View() == old(View()).End()
    {
      hide State.Retry;
      if link == Connecting {
        var fd := RemoveAndResetChannel();
        Retry(fd);
      }
    }

    /** The source asserts that the connector is disconnected, if it is not connecting. */
    method HandleWrite(broken: bool)
      requires link == Connecting ==> channel.Some?
      requires link != Connected
      modifies this
      ensures View() == old(View()).HandleWrite(broken)
    {
      hide State.Retry;
      if link == Connecting {
        var fd := RemoveAndResetChannel();
        if broken {
          Retry(fd);
        } else {
          link := Connected;
          if wanted {
            world := world.(handed := world.handed + multiset{fd});
          } else {
            Close(fd);
          }
        }
      }
    }

    method Start(foreign: bool, errno: Errno)
      requires Valid() && Allowed(View(), Step.Start(foreign, errno))
      modifies this
      ensures Valid() && View() == Next(old(View()), Step.Start(foreign, errno))
    {
      StepKeepsSound(View(), Step.Start(foreign, errno));
      StepKeepsDelays(View(), Step.Start(foreign, errno));
      hide Sound, DelaysRight, State.Begin;
      wanted := true;
      if foreign {
        world := world.(pending := world.pending + [StartInLoop]);
      } else {
        Begin(errno);
      }
    }

    method Stop()
      requires Valid()
      modifies this
      ensures Valid() && View() == Next(old(View()), Step.Stop)
    {
      StepKeepsSound(View(), Step.Stop);
      StepKeepsDelays(View(), Step.Stop);
      hide Sound, DelaysRight;
      wanted := false;
      world := world.(pending := world.pending + [StopInLoop]);
    }

    method Restart(errno: Errno)
      requires Valid() && Allowed(View(), Step.Restart(errno))
      modifies this
      ensures Valid() && View() == Next(old(View()), Step.Restart(errno))
    {
      StepKeepsSound(View(), Step.Restart(errno));
      StepKeepsDelays(View(), Step.Restart(errno));
      hide Sound, DelaysRight, State.Begin;
      link, delay, wanted := Disconnected, INIT_RETRY_DELAY, true;
      world := world.(scheduled := []);
      Begin(errno);
    }

    /** One function from the loop's queue. */
    method RunPending(errno: Errno)
      requires Valid() && world.pending != [] && Allowed(View(), RunFunctor(errno))
      modifies this
      ensures Valid() && View() == Next(old(View()), RunFunctor(errno))
    {
      StepKeepsSound(View(), RunFunctor(errno));
      StepKeepsDelays(View(), RunFunctor(errno));
      hide DelaysRight, Owned, Going, State.Begin, State.End;
      var f := world.pending[0];
      world := world.(pending := world.pending[1..]);
      match f
      case StartInLoop => Begin(errno);
      case StopInLoop => End();
      case ResetChannel => channel := None;
    }

    /** The delay of a retry is over. */
    method RunDelayed(errno: Errno)
      requires Valid() && world.timers > 0 && Allowed(View(), DelayOver(errno))
      modifies this
      ensures Valid() && View() == Next(old(View()), DelayOver(errno))
    {
      StepKeepsSound(View(), DelayOver(errno));
      StepKeepsDelays(View(), DelayOver(errno));
      hide Sound, DelaysRight, State.Begin;
      world := world.(timers := world.timers - 1);
      Begin(errno);
    }

    method HandleEvent(error: bool, broken: bool)
      requires Valid() && channel.Some? && channel.value.active
      modifies this
      ensures Valid() && View() == Next(old(View()), Event(error, broken))
    {
      StepKeepsSound(View(), Event(error, broken));
      StepKeepsDelays(View(), Event(error, broken));
      EndKeepsSound(View());
      hide DelaysRight, Owned, Going, State.End, State.HandleWrite;
      if error {
        End();
      }
      if channel.Some? && channel.value.active {
        HandleWrite(broken);
      }
    }
  }
}
