/**
 A connection, its channel and its output buffer (dc/net/tcpConnection.cc, dc/net/channel.cc).

 A step is what one thread does without another one interfering: a call of the interface, by the loop thread or
 by another, with each test of the state and the change it leads to taken together; a function on its way through
 the loop's queue; the report of poll; one of the three parts of the handling of an event. The calls that user
 callbacks make are steps of the loop thread, and may come between any two parts.
 */
module TcpConnection {
  import opened Bytes
  import opened Options

  datatype Link = Connecting | Connected | Disconnecting | Disconnected

  /** The two pollers, which differ in what they do with a channel that has no events. */
  datatype Poller = Poll | Epoll

  datatype Place = Fresh | Registered | Removed

  /** The events of interest, what the poller holds, and whether the kernel may report the channel. */
  datatype Channel = Channel(reading: bool, writing: bool, place: Place, watched: bool)
  {
    predicate HasEvents() {
      reading || writing
    }

    /**
     Channel::update. A channel without events is watched, for hang-ups, if epoll was not watching it, or if it
     is new to poll; otherwise it is switched off.
     */
    function Updated(poller: Poller): Channel {
      this.(place := Registered, watched := HasEvents() || (if poller == Epoll then !watched else place == Fresh))
    }
  }

  /** What the kernel did with the bytes offered to it; it takes no more than there are. */
  datatype Outcome = Wrote(n: nat) | WouldBlock | PeerGone | OtherError
  {
    /** How many of `len` bytes were taken. */
    function Taken(len: nat): (n: nat)
      ensures n <= len
    {
      if Wrote? then (if n < len then n else len) else 0
    }
  }

  datatype Fate = Kept | Lost | GivenUp
  datatype Sent = Sent(message: seq<Byte>, fate: Fate)
  datatype HalfClose = HalfClose(live: bool, left: nat)
  datatype Notice = WriteComplete | HighWater(n: nat)

  /** Functions waiting in the loop's queue. */
  datatype Functor = SendFunctor(message: seq<Byte>) | ShutdownFunctor | ForceCloseFunctor | StartReadFunctor | StopReadFunctor

  /**
   Where the loop is with this channel: not on the list of active channels; on it and still to be handled, where
   `hup` is a hang-up with nothing to read; being handled; handled, while other channels on the list are not.
   */
  datatype Stage = Idle | Reported(hup: bool) | BeforeRead | BeforeWrite | Listed
  {
    /** The channel is on the list of active channels, and it is not the one being handled. */
    predicate Elsewhere() {
      Reported? || Listed?
    }
  }

  /** What surrounds the connection, and what has happened to it. */
  datatype World = World(
    poller: Poller,
    stage: Stage,
    removing: bool,               // the connection callback that connectDestroyed makes is running
    pending: seq<Functor>,
    accepted: seq<Byte>,          // bytes that the kernel has taken
    sends: seq<Sent>,             // messages given to sendInLoop, and what became of each
    notices: seq<Notice>,         // user callbacks queued
    shutdowns: seq<HalfClose>,    // calls of shutdownWrite
    asked: bool,                  // shutdown() has taken effect
    closes: nat,                  // calls of the close callback
    failed: bool)                 // an assertion of the source has failed

  /** The bytes of the messages that were not dropped whole. */
  function Stream(sends: seq<Sent>): seq<Byte> {
    if sends == [] then []
    else
      var last := sends[|sends| - 1];
      Stream(sends[..|sends| - 1]) + if last.fate == Kept then last.message else []
  }

  datatype Connection = Connection(state: Link, isReading: bool, channel: Channel, output: seq<Byte>, highWaterMark: nat, world: World)
  {
    predicate Live() {
      state == Connected || state == Disconnecting
    }

    // ----- channel

    function SetEvents(reading: bool, writing: bool): Connection {
      this.(channel := channel.(reading := reading, writing := writing).Updated(world.poller),
            world := world.(failed := world.failed || (world.poller == Poll && channel.place == Removed)))
    }

    /** Channel::remove and what EventLoop::removeChannel asserts. */
    function RemoveChannel(): Connection {
      this.(channel := channel.(place := Removed, watched := false),
            world := world.(failed := world.failed || channel.HasEvents() || channel.place != Registered || world.stage.Elsewhere()))
    }

    // ----- output

    function Log(message: seq<Byte>, fate: Fate): Connection {
      this.(world := world.(sends := world.sends + [Sent(message, fate)]))
    }

    function Notify(notice: Notice): Connection {
      this.(world := world.(notices := world.notices + [notice]))
    }

    function Accept(bytes: seq<Byte>): Connection {
      this.(world := world.(accepted := world.accepted + bytes))
    }

    function Keep(rest: seq<Byte>): Connection {
      if rest == [] then this
      else
        var n := |output| + |rest|;
        var c := if n >= highWaterMark > |output| then Notify(HighWater(n)) else this;
        var d := c.(output := output + rest);
        if channel.writing then d else d.SetEvents(channel.reading, true)
    }

    function SendInLoop(message: seq<Byte>, outcome: Outcome): Connection {
      if state == Disconnected then Log(message, GivenUp)
      else if channel.writing || output != [] then Log(message, Kept).Keep(message)
      else if outcome == PeerGone then Log(message, Lost)
      else
        var n := outcome.Taken(|message|);
        var c := Log(message, Kept).Accept(message[..n]);
        if n == |message| && outcome.Wrote? then c.Notify(WriteComplete) else c.Keep(message[n..])
    }

    function ShutdownInLoop(): Connection {
      if channel.writing then this
      else this.(world := world.(shutdowns := world.shutdowns + [HalfClose(state != Disconnected, |output|)]))
    }

    function HandleWrite(outcome: Outcome): Connection {
      var n := outcome.Taken(|output|);
      if !channel.writing || n == 0 then this
      else
        var c := Accept(output[..n]).(output := output[n..]);
        if n < |output| then c
        else
          var d := c.SetEvents(channel.reading, false).Notify(WriteComplete);
          if state == Disconnecting then d.ShutdownInLoop() else d
    }

    // ----- closing, reading

    function HandleClose(): Connection {
      this.(state := Disconnected, world := world.(closes := world.closes + 1, failed := world.failed || !Live()))
        .SetEvents(false, false)
    }

    function ForceCloseInLoop(): Connection {
      if Live() then HandleClose() else this
    }

    function StartReadInLoop(): Connection {
      if isReading && channel.reading then this
      else SetEvents(true, channel.writing).(isReading := true)
    }

    function StopReadInLoop(): Connection {
      if !isReading && !channel.reading then this
      else SetEvents(false, channel.writing).(isReading := false)
    }

    function Establish(): Connection {
      if state != Connecting then this.(world := world.(failed := true))
      else this.(state := Connected).SetEvents(true, channel.writing)
    }

    /** A connection that is up goes down first, and calls back before its channel is removed. */
    function Destroy(): Connection {
      if state == Connected then this.(state := Disconnected, world := world.(removing := true)).SetEvents(false, false)
      else RemoveChannel()
    }

    function Remove(): Connection {
      this.(world := world.(removing := false)).RemoveChannel()
    }

    // ----- the loop

    function Execute(f: Functor, outcome: Outcome): Connection {
      match f
      case SendFunctor(message) => SendInLoop(message, outcome)
      case ShutdownFunctor => ShutdownInLoop()
      case ForceCloseFunctor => ForceCloseInLoop()
      case StartReadFunctor => StartReadInLoop()
      case StopReadFunctor => StopReadInLoop()
    }

    function Queue(f: Functor): Connection {
      this.(world := world.(pending := world.pending + [f]))
    }

    /** EventLoop::runInLoop: at once in the loop thread, through the queue from another. */
    function RunInLoop(f: Functor, foreign: bool, outcome: Outcome): Connection {
      if foreign then Queue(f) else Execute(f, outcome)
    }

    function At(stage: Stage): Connection {
      this.(world := world.(stage := stage))
    }
  }

  datatype Call = Send(message: seq<Byte>) | Shutdown | ForceClose | ForceCloseWithDelay | StartRead | StopRead

  datatype Step =
    | UserCall(call: Call, foreign: bool, outcome: Outcome)
    | Establish
    | Destroy
    | Remove                       // the rest of connectDestroyed, after the callback
    | PollReports(hup: bool)
    | CloseStage                   // a hang-up closes the connection
    | ReadStage(end: bool)         // `end` is a read of no bytes
    | WriteStage(outcome: Outcome)
    | EndOfHandling                // the last active channel has been handled
    | RunFunctor(outcome: Outcome)

  function Called(c: Connection, call: Call, foreign: bool, outcome: Outcome): Connection {
    match call
    case Send(message) => if c.state == Connected then c.RunInLoop(SendFunctor(message), foreign, outcome) else c
    case Shutdown =>
      if c.state == Connected then
        c.(state := Disconnecting, world := c.world.(asked := true)).RunInLoop(ShutdownFunctor, foreign, outcome)
      else c
    case ForceClose => if c.Live() then c.(state := Disconnecting).Queue(ForceCloseFunctor) else c
    case ForceCloseWithDelay => if c.Live() then c.(state := Disconnecting) else c  // the timer calls ForceClose
    case StartRead => c.RunInLoop(StartReadFunctor, foreign, outcome)
    case StopRead => c.RunInLoop(StopReadFunctor, foreign, outcome)
  }

  /** A step that is not enabled changes nothing. Reads and writes are dispatched on the events asked for, not on those reported. */
  function Next(c: Connection, step: Step): Connection {
    if c.world.removing && !step.UserCall? && !step.Remove? then c
    else
      match step
      case UserCall(call, foreign, outcome) => Called(c, call, foreign, outcome)
      case Establish => c.Establish()
      case Destroy => c.Destroy()
      case Remove => if c.world.removing then c.Remove() else c
      case PollReports(hup) => if c.world.stage == Idle && c.channel.watched then c.At(Reported(hup)) else c
      case CloseStage =>
        if !c.world.stage.Reported? then c
        else (if c.world.stage.hup then c.HandleClose() else c).At(BeforeRead)
      case ReadStage(end) =>
        if c.world.stage != BeforeRead then c
        else (if c.channel.reading && end then c.HandleClose() else c).At(BeforeWrite)
      case WriteStage(outcome) =>
        if c.world.stage != BeforeWrite then c else c.HandleWrite(outcome).At(Listed)
      case EndOfHandling => if c.world.stage == Listed then c.At(Idle) else c
      case RunFunctor(outcome) =>
        if c.world.stage != Idle || c.world.pending == [] then c
        else c.(world := c.world.(pending := c.world.pending[1..])).Execute(c.world.pending[0], outcome)
  }

  /** A connection as the constructor leaves it. */
  function Created(poller: Poller, highWaterMark: nat): Connection {
    Connection(Connecting, false, Channel(false, false, Fresh, false), [], highWaterMark,
               World(poller, Idle, false, [], [], [], [], [], false, 0, false))
  }

  function After(c: Connection, steps: seq<Step>): Connection
    decreases |steps|
  {
    if steps == [] then c else After(Next(c, steps[0]), steps[1..])
  }

  // ----- what every step keeps

  ghost predicate StreamRight(c: Connection) {
    c.world.accepted + c.output == Stream(c.world.sends)
  }

  /** While the connection is not closed, it waits to write exactly when it has something to write. */
  ghost predicate WritingRight(c: Connection) {
    c.state != Disconnected ==> (c.channel.writing <==> c.output != [])
  }

  ghost predicate HalfClosesRight(c: Connection) {
    && (forall i :: 0 <= i < |c.world.shutdowns| && c.world.shutdowns[i].live ==> c.world.shutdowns[i].left == 0)
    && (c.world.asked ==> c.state == Disconnecting || c.state == Disconnected)
    && (c.world.asked && c.state == Disconnecting && c.output == [] && ShutdownFunctor !in c.world.pending ==> c.world.shutdowns != [])
  }

  lemma StreamExtended(sends: seq<Sent>, sent: Sent)
    ensures Stream(sends + [sent]) == Stream(sends) + if sent.fate == Kept then sent.message else []
  {
    assert (sends + [sent])[..|sends|] == sends;
  }

  /** What is kept goes to the end of the buffer; the callback is queued when that takes it to the mark. */
  lemma KeepAppends(c: Connection, rest: seq<Byte>)
    ensures var d := c.Keep(rest);
            && d.output == c.output + rest && d.world.accepted == c.world.accepted && d.world.sends == c.world.sends && d.state == c.state
            && d.world.stage == c.world.stage && d.world.removing == c.world.removing && d.world.pending == c.world.pending
            && d.world.closes == c.world.closes && d.world.asked == c.world.asked && d.world.shutdowns == c.world.shutdowns
            && d.world.notices == c.world.notices + if |c.output| < c.highWaterMark <= |d.output| then [HighWater(|d.output|)] else []
  {
    assert rest == [] ==> c.output + rest == c.output;
  }

  /** A kept message goes to the end of the stream, however many of its bytes the kernel takes. */
  lemma StreamGrows(c: Connection, d: Connection, message: seq<Byte>, n: nat)
    requires StreamRight(c) && n <= |message| && (n == 0 || c.output == [])
    requires d.world.sends == c.world.sends + [Sent(message, Kept)]
    requires d.world.accepted == c.world.accepted + message[..n] && d.output == c.output + message[n..]
    ensures StreamRight(d)
  {
    StreamExtended(c.world.sends, Sent(message, Kept));
    hide Stream;
    var accepted := c.world.accepted;
    assert message == message[..n] + message[n..];
    if n == 0 {
      assert d.world.accepted == accepted;
      assert accepted + (c.output + message) == accepted + c.output + message;
    } else {
      assert d.output == message[n..] && accepted + c.output == accepted;
      assert accepted + message[..n] + message[n..] == accepted + message;
    }
  }

  lemma SendKeepsStream(c: Connection, message: seq<Byte>, outcome: Outcome)
    requires StreamRight(c)
    ensures StreamRight(c.SendInLoop(message, outcome))
  {
    hide Connection.Keep;
    var d := c.SendInLoop(message, outcome);
    if c.state == Disconnected {
      StreamExtended(c.world.sends, Sent(message, GivenUp));
    } else if c.channel.writing || c.output != [] {
      hide StreamRight;
      KeepAppends(c.Log(message, Kept), message);
      StreamGrows(c, d, message, 0);
    } else if outcome == PeerGone {
      StreamExtended(c.world.sends, Sent(message, Lost));
    } else {
      hide StreamRight;
      var n := outcome.Taken(|message|);
      KeepAppends(c.Log(message, Kept).Accept(message[..n]), message[n..]);
      StreamGrows(c, d, message, n);
    }
  }

  lemma WriteKeepsStream(c: Connection, outcome: Outcome)
    requires StreamRight(c)
    ensures StreamRight(c.HandleWrite(outcome))
  {
    hide Stream;
    var n := outcome.Taken(|c.output|);
    assert c.world.accepted + c.output == c.world.accepted + c.output[..n] + c.output[n..];
  }

  lemma ExecuteKeepsStream(c: Connection, f: Functor, outcome: Outcome)
    requires StreamRight(c)
    ensures StreamRight(c.Execute(f, outcome))
  {
    hide Stream, Connection.SendInLoop;
    if f.SendFunctor? {
      SendKeepsStream(c, f.message, outcome);
    }
  }

  lemma CallKeepsStream(c: Connection, call: Call, foreign: bool, outcome: Outcome)
    requires StreamRight(c)
    ensures StreamRight(Called(c, call, foreign, outcome))
  {
    hide Stream, Connection.Execute;
    match call {
      case Send(message) => ExecuteKeepsStream(c, SendFunctor(message), outcome);
      case Shutdown => ExecuteKeepsStream(c.(state := Disconnecting, world := c.world.(asked := true)), ShutdownFunctor, outcome);
      case StartRead => ExecuteKeepsStream(c, StartReadFunctor, outcome);
      case StopRead => ExecuteKeepsStream(c, StopReadFunctor, outcome);
      case _ =>
    }
  }

  lemma StepKeepsStream(c: Connection, step: Step)
    requires StreamRight(c)
    ensures StreamRight(Next(c, step))
  {
    hide Stream, Called, Connection.Execute, Connection.HandleWrite;
    match step {
      case UserCall(call, foreign, outcome) => CallKeepsStream(c, call, foreign, outcome);
      case WriteStage(outcome) => WriteKeepsStream(c, outcome);
      case RunFunctor(outcome) =>
        if c.world.pending != [] {
          ExecuteKeepsStream(c.(world := c.world.(pending := c.world.pending[1..])), c.world.pending[0], outcome);
        }
      case _ =>
    }
  }

  /** How a message changes what the connection waits for. */
  lemma SendEffect(c: Connection, message: seq<Byte>, outcome: Outcome)
    requires WritingRight(c)
    ensures var d := c.SendInLoop(message, outcome);
            && d.state == c.state && d.world.shutdowns == c.world.shutdowns && d.world.pending == c.world.pending
            && d.world.asked == c.world.asked && (d.output == [] ==> c.output == []) && WritingRight(d)
  {
    hide Stream;
    if c.state != Disconnected && !c.channel.writing && outcome != PeerGone {
      var n := outcome.Taken(|message|);
      KeepAppends(c.Log(message, Kept).Accept(message[..n]), message[n..]);
    }
  }

  /** What is kept about output, whatever is called. */
  ghost predicate OutputRight(c: Connection) {
    WritingRight(c) && HalfClosesRight(c)
  }

  lemma ExecuteKeepsOutput(c: Connection, f: Functor, outcome: Outcome)
    requires WritingRight(c) && (HalfClosesRight(c) || (f == ShutdownFunctor && HalfClosesRight(c.Queue(f))))
    ensures OutputRight(c.Execute(f, outcome))
  {
    hide Connection.SendInLoop;
    if f.SendFunctor? {
      SendEffect(c, f.message, outcome);
    }
  }

  lemma WriteKeepsOutput(c: Connection, outcome: Outcome)
    requires OutputRight(c)
    ensures OutputRight(c.HandleWrite(outcome))
  {
  }

  lemma CallKeepsOutput(c: Connection, call: Call, foreign: bool, outcome: Outcome)
    requires OutputRight(c)
    ensures OutputRight(Called(c, call, foreign, outcome))
  {
    hide Connection.Execute;
    if call.Send? {
      ExecuteKeepsOutput(c, SendFunctor(call.message), outcome);
    } else if call == Shutdown {
      var d := c.(state := Disconnecting, world := c.world.(asked := true));
      assert d.Queue(ShutdownFunctor).world.pending[|c.world.pending|] == ShutdownFunctor;
      if c.state == Connected && !foreign {
        ExecuteKeepsOutput(d, ShutdownFunctor, outcome);
      }
    } else if call == StartRead {
      ExecuteKeepsOutput(c, StartReadFunctor, outcome);
    } else if call == StopRead {
      ExecuteKeepsOutput(c, StopReadFunctor, outcome);
    }
  }

  lemma FunctorKeepsOutput(c: Connection, outcome: Outcome)
    requires OutputRight(c) && c.world.pending != []
    ensures OutputRight(c.(world := c.world.(pending := c.world.pending[1..])).Execute(c.world.pending[0], outcome))
  {
    hide Connection.Execute;
    var d := c.(world := c.world.(pending := c.world.pending[1..]));
    assert c.world.pending == [c.world.pending[0]] + d.world.pending;
    ExecuteKeepsOutput(d, c.world.pending[0], outcome);
  }

  lemma StepKeepsOutput(c: Connection, step: Step)
    requires OutputRight(c)
    ensures OutputRight(Next(c, step))
  {
    hide Called, Connection.Execute, Connection.HandleWrite;
    match step {
      case UserCall(call, foreign, outcome) => CallKeepsOutput(c, call, foreign, outcome);
      case WriteStage(outcome) => WriteKeepsOutput(c, outcome);
      case RunFunctor(outcome) => if c.world.pending != [] { FunctorKeepsOutput(c, outcome); }
      case _ =>
    }
  }

  // ----- what the steps keep that are allowed

  /** Only a connection that is up is watched; it is closed once, and no assertion fails. */
  ghost predicate Settled(c: Connection) {
    && (c.channel.watched && !c.world.removing ==> c.Live())
    && (c.world.stage.Reported? ==> c.Live())
    && (c.world.removing ==> c.state == Disconnected && c.channel.place == Registered && !c.world.stage.Elsewhere())
    && (c.channel.HasEvents() ==> c.channel.watched)
    && (c.Live() ==> c.channel.place == Registered && (c.channel.watched ==> c.channel.HasEvents()) && (c.isReading ==> c.channel.reading))
    && c.world.closes <= (if c.state == Disconnected then 1 else 0)
    && !c.world.failed
    && (c.channel.place == Removed ==> c.state == Disconnected)
    && (c.state == Connecting <==> c.channel.place == Fresh)
    && (c.state == Connecting ==> !c.isReading && forall f :: f in c.world.pending ==> f.StartReadFunctor? || f.StopReadFunctor?)
  }

  /** Closing a channel that has no events makes epoll watch it again. */
  predicate CanClose(c: Connection) {
    c.world.poller == Poll || c.channel.HasEvents()
  }

  predicate CanExecute(c: Connection, f: Functor) {
    match f
    case ForceCloseFunctor => c.Live() ==> CanClose(c)
    case StartReadFunctor => c.Live() || c.world.removing
    case StopReadFunctor => c.Live() || c.world.removing || !c.isReading || (c.world.poller == Poll && c.channel.place != Removed)
    case _ => true
  }

  predicate Allowed(c: Connection, step: Step) {
    if c.world.removing && !step.UserCall? then step == Remove ==> !c.channel.HasEvents()
    else
      match step
      case UserCall(StartRead, foreign, _) => foreign || CanExecute(c, StartReadFunctor)
      case UserCall(StopRead, foreign, _) => foreign || CanExecute(c, StopReadFunctor)
      case Establish => c.state == Connecting
      case Destroy => (c.state == Connected || c.state == Disconnected) && c.channel.place == Registered && !c.world.stage.Elsewhere()
      case CloseStage => c.world.stage == Reported(true) ==> CanClose(c)
      case RunFunctor(_) => c.world.stage == Idle && c.world.pending != [] ==> CanExecute(c, c.world.pending[0])
      case _ => true
  }

  lemma SendKeepsSettled(c: Connection, message: seq<Byte>, outcome: Outcome)
    requires WritingRight(c) && Settled(c) && c.state != Connecting
    ensures Settled(c.SendInLoop(message, outcome))
  {
  }

  lemma ExecuteKeepsSettled(c: Connection, f: Functor, outcome: Outcome)
    requires WritingRight(c) && Settled(c)
    requires c.state == Connecting ==> f.StartReadFunctor? || f.StopReadFunctor?
    requires f.ForceCloseFunctor? ==> !c.world.stage.Reported?
    ensures Settled(c.Execute(f, outcome)) <==> CanExecute(c, f)
  {
    hide Connection.SendInLoop;
    if f.SendFunctor? {
      SendKeepsSettled(c, f.message, outcome);
    }
  }

  lemma WriteKeepsSettled(c: Connection, outcome: Outcome)
    requires WritingRight(c) && Settled(c)
    ensures var d := c.HandleWrite(outcome); Settled(d) && d.world.stage == c.world.stage && d.world.removing == c.world.removing
  {
  }

  lemma CallKeepsSettled(c: Connection, call: Call, foreign: bool, outcome: Outcome)
    requires WritingRight(c) && Settled(c)
    ensures Settled(Called(c, call, foreign, outcome)) <==> Allowed(c, UserCall(call, foreign, outcome))
  {
    hide Connection.Execute;
    if call.Send? && c.state == Connected {
      ExecuteKeepsSettled(c, SendFunctor(call.message), outcome);
    } else if call == Shutdown && c.state == Connected {
      ExecuteKeepsSettled(c.(state := Disconnecting, world := c.world.(asked := true)), ShutdownFunctor, outcome);
    } else if call == StartRead {
      ExecuteKeepsSettled(c, StartReadFunctor, outcome);
    } else if call == StopRead {
      ExecuteKeepsSettled(c, StopReadFunctor, outcome);
    }
  }

  /** The condition is exact. */
  lemma StepKeepsSettled(c: Connection, step: Step)
    requires WritingRight(c) && Settled(c)
    ensures Settled(Next(c, step)) <==> Allowed(c, step)
  {
    hide Called, Connection.Execute, Connection.HandleWrite;
    match step {
      case UserCall(call, foreign, outcome) => CallKeepsSettled(c, call, foreign, outcome);
      case WriteStage(outcome) => WriteKeepsSettled(c, outcome);
      case RunFunctor(outcome) =>
        if c.world.stage == Idle && c.world.pending != [] {
          var d := c.(world := c.world.(pending := c.world.pending[1..]));
          ExecuteKeepsSettled(d, c.world.pending[0], outcome);
        }
      case _ =>
    }
  }

  // ----- whole runs

  /** Every step is allowed when it is taken. */
  ghost predicate Legal(c: Connection, steps: seq<Step>)
    decreases |steps|
  {
    steps == [] || (Allowed(c, steps[0]) && Legal(Next(c, steps[0]), steps[1..]))
  }

  function Rank(state: Link): nat {
    match state
    case Connecting => 0
    case Connected => 1
    case Disconnecting => 2
    case Disconnected => 3
  }

  lemma SendKeepsState(c: Connection, message: seq<Byte>, outcome: Outcome)
    ensures var d := c.SendInLoop(message, outcome); d.state == c.state && d.world.stage == c.world.stage && d.world.removing == c.world.removing
  {
    hide Connection.Keep;
    var n := outcome.Taken(|message|);
    KeepAppends(c.Log(message, Kept), message);
    KeepAppends(c.Log(message, Kept).Accept(message[..n]), message[n..]);
  }

  lemma StepMovesForward(c: Connection, step: Step)
    ensures Rank(c.state) <= Rank(Next(c, step).state)
  {
    hide Connection.SendInLoop;
    forall d: Connection, message, outcome {
      SendKeepsState(d, message, outcome);
    }
  }

  /** The state only moves forward, whatever the run; so a connection that is down stays down. */
  lemma {:induction false} OnlyForward(c: Connection, steps: seq<Step>)
    ensures Rank(c.state) <= Rank(After(c, steps).state)
    ensures c.state == Disconnected ==> After(c, steps).state == Disconnected
    decreases |steps|
  {
    hide Next;
    if steps != [] {
      StepMovesForward(c, steps[0]);
      OnlyForward(Next(c, steps[0]), steps[1..]);
    }
  }

  lemma {:induction false} RunKeepsOutput(c: Connection, steps: seq<Step>)
    requires StreamRight(c) && OutputRight(c)
    ensures StreamRight(After(c, steps)) && OutputRight(After(c, steps))
    decreases |steps|
  {
    hide Next, StreamRight, OutputRight;
    if steps != [] {
      StepKeepsStream(c, steps[0]);
      StepKeepsOutput(c, steps[0]);
      RunKeepsOutput(Next(c, steps[0]), steps[1..]);
    }
  }

  /**
   In every run, with any partial writes, errors and interleavings: the bytes the kernel has taken and those in the
   buffer are the messages that were not dropped whole, in order; while the connection is not down it waits to
   write exactly when the buffer is not empty; and it is half-closed only with an empty buffer, and is half-closed
   once the buffer is empty if that was asked for.
   */
  lemma OutputConserved(poller: Poller, mark: nat, steps: seq<Step>)
    ensures var c := After(Created(poller, mark), steps);
            && c.world.accepted + c.output == Stream(c.world.sends)
            && (c.state != Disconnected ==> (c.channel.writing <==> c.output != []))
            && (forall i :: 0 <= i < |c.world.shutdowns| && c.world.shutdowns[i].live ==> c.world.shutdowns[i].left == 0)
            && (c.world.asked && c.state == Disconnecting && c.output == [] && ShutdownFunctor !in c.world.pending
                ==> c.world.shutdowns != [])
  {
    RunKeepsOutput(Created(poller, mark), steps);
  }

  /** A run keeps the connection settled throughout if and only if each of its steps is allowed. */
  lemma {:induction false} SettledIffLegal(c: Connection, steps: seq<Step>)
    requires OutputRight(c) && Settled(c)
    ensures Legal(c, steps) <==> forall k :: 0 <= k <= |steps| ==> Settled(After(c, steps[..k]))
    decreases |steps|
  {
    hide Next, OutputRight, Settled, Allowed;
    if steps == [] {
      assert steps[..0] == steps;
    } else {
      assert WritingRight(c) by { OutputIsWriting(c); }
      var next, rest := Next(c, steps[0]), steps[1..];
      StepKeepsSettled(c, steps[0]);
      StepKeepsOutput(c, steps[0]);
      forall k | 0 <= k <= |rest| ensures After(c, steps[..k + 1]) == After(next, rest[..k]) {
        assert steps[..k + 1][1..] == rest[..k];
      }
      assert After(next, rest[..0]) == next;
      assert After(c, steps[..0]) == c;
      if Allowed(c, steps[0]) {
        SettledIffLegal(next, rest);
        forall k | 0 <= k <= |steps| && Legal(c, steps) ensures Settled(After(c, steps[..k])) {
          if k > 0 {
            assert After(c, steps[..(k - 1) + 1]) == After(next, rest[..k - 1]);
          }
        }
        if forall k :: 0 <= k <= |steps| ==> Settled(After(c, steps[..k])) {
          forall k | 0 <= k <= |rest| ensures Settled(After(next, rest[..k])) {
            assert Settled(After(c, steps[..k + 1]));
          }
        }
      } else {
        assert !Settled(After(c, steps[..1]));
      }
    }
  }

  lemma OutputIsWriting(c: Connection)
    requires OutputRight(c)
    ensures WritingRight(c)
  {
  }

  /** In every run of allowed steps no assertion fails, the connection is closed at most once, and it is down when its channel is removed. */
  lemma ClosedOnce(poller: Poller, mark: nat, steps: seq<Step>)
    requires Legal(Created(poller, mark), steps)
    ensures var c := After(Created(poller, mark), steps);
            && !c.world.failed && c.world.closes <= 1
            && (c.world.closes == 1 || c.channel.place == Removed ==> c.state == Disconnected)
  {
    SettledIffLegal(Created(poller, mark), steps);
    assert steps[..|steps|] == steps;
  }

  // ----- what goes wrong otherwise

  /** A hang-up on a connection that is not up, but watched, closes it against the assertion. */
  lemma WatchedWhenDown(c: Connection)
    requires c.channel.watched && !c.world.removing && !c.Live() && c.world.stage == Idle
    ensures var d := After(c, [PollReports(true), CloseStage]);
            d.world.failed && d.world.closes == c.world.closes + 1
  {
    var d := Next(c, PollReports(true));
    assert [PollReports(true), CloseStage][1..] == [CloseStage];
    assert After(d, [CloseStage]) == After(Next(d, CloseStage), []);
  }

  /** With epoll, closing a connection that has stopped reading and has nothing to write lets a hang-up close it again. */
  lemma ClosedTwice(c: Connection)
    requires Settled(c) && c.Live() && c.world.stage == Idle && c.world.poller == Epoll && !c.channel.HasEvents()
    ensures var d := After(c.HandleClose(), [PollReports(true), CloseStage]);
            d.world.closes == c.world.closes + 2 && d.world.failed
  {
    WatchedWhenDown(c.HandleClose());
  }

  /** Such a connection can come about: one that stops reading is then forced to close. */
  lemma ClosedTwiceFromStart(mark: nat)
    ensures var idle := After(Created(Epoll, mark), [Establish, UserCall(StopRead, false, WouldBlock), UserCall(ForceClose, false, WouldBlock)]);
            && Settled(idle) && idle.Live() && idle.world.stage == Idle && !idle.channel.HasEvents()
            && Next(idle, RunFunctor(WouldBlock)) == idle.(world := idle.world.(pending := [])).HandleClose()
  {
    var stop, force := UserCall(StopRead, false, WouldBlock), UserCall(ForceClose, false, WouldBlock);
    var a := Next(Created(Epoll, mark), Establish);
    var b := Next(a, stop);
    var d := Next(b, force);
    assert [Establish, stop, force][1..] == [stop, force];
    assert [stop, force][1..] == [force];
    assert After(b, [force]) == After(d, []);
    assert d.world.pending == [ForceCloseFunctor];
  }

  /** Starting to read when the connection is not up does the same, and so, with epoll, does stopping. */
  lemma ReadingWhenDown(c: Connection)
    requires Settled(c) && !c.Live() && c.world.stage == Idle && !c.world.removing
    ensures After(c.StartReadInLoop(), [PollReports(true), CloseStage]).world.failed
    ensures c.isReading && c.world.poller == Epoll ==> After(c.StopReadInLoop(), [PollReports(true), CloseStage]).world.failed
  {
    WatchedWhenDown(c.StartReadInLoop());
    if c.isReading && c.world.poller == Epoll {
      WatchedWhenDown(c.StopReadInLoop());
    }
  }

  /** Destroying a connection that is shutting down leaves it so; with events left, or on the list and not being handled, the assertion fails. */
  lemma DestroyedWhileDisconnecting(c: Connection)
    requires Settled(c) && c.state == Disconnecting
    ensures var d := Next(c, Destroy);
            && d.state == Disconnecting && d.channel.place == Removed
            && (d.world.failed <==> c.channel.HasEvents() || c.world.stage.Elsewhere())
  {
    assert c.channel.place == Registered;
  }

  /**
   Destroying any connection while it is on the list of active channels and another one is being handled fails
   the assertion of the loop, although it was handled before.
   */
  lemma DestroyedWhileListed(c: Connection)
    requires Settled(c) && c.world.stage.Elsewhere()
    ensures After(c, [Destroy, Remove]).world.failed
  {
    var d := Next(c, Destroy);
    assert [Destroy, Remove][1..] == [Remove];
    assert After(d, [Remove]) == After(Next(d, Remove), []);
  }

  // ----- what a message does

  /** Exactly which messages are dropped; a dropped one leaves no byte behind. */
  lemma FateOfMessage(c: Connection, message: seq<Byte>, outcome: Outcome)
    requires WritingRight(c)
    ensures var d, n := c.SendInLoop(message, outcome), |c.world.sends|;
            && |d.world.sends| == n + 1 && d.world.sends[..n] == c.world.sends && d.world.sends[n].message == message
            && (d.world.sends[n].fate == GivenUp <==> c.state == Disconnected)
            && (d.world.sends[n].fate == Lost <==> c.state != Disconnected && c.output == [] && outcome == PeerGone)
            && (d.world.sends[n].fate != Kept ==> d.world.accepted == c.world.accepted && d.output == c.output)
  {
    hide Connection.Keep;
    var k := outcome.Taken(|message|);
    KeepAppends(c.Log(message, Kept), message);
    KeepAppends(c.Log(message, Kept).Accept(message[..k]), message[k..]);
  }

  /** The high-water callback is queued exactly when the buffer crosses the mark, and write-complete exactly when a write leaves nothing. */
  lemma NoticesOfMessage(c: Connection, message: seq<Byte>, outcome: Outcome)
    requires WritingRight(c) && c.state != Disconnected
    ensures var d := c.SendInLoop(message, outcome);
            d.world.notices == c.world.notices
              + (if |c.output| < c.highWaterMark <= |d.output| then [HighWater(|d.output|)] else [])
              + (if c.output == [] && outcome.Wrote? && d.output == [] then [WriteComplete] else [])
  {
    hide Connection.Keep;
    var n := outcome.Taken(|message|);
    KeepAppends(c.Log(message, Kept), message);
    KeepAppends(c.Log(message, Kept).Accept(message[..n]), message[n..]);
  }

  lemma NoticesOfWrite(c: Connection, outcome: Outcome)
    requires WritingRight(c) && StreamRight(c) && c.state != Disconnected
    ensures var d := c.HandleWrite(outcome);
            && d.world.notices == c.world.notices + (if c.output != [] && d.output == [] then [WriteComplete] else [])
            && (d.output == [] ==> d.world.accepted == Stream(d.world.sends))
            && (c.output != [] && d.output == [] && c.state == Disconnecting ==> |d.world.shutdowns| == |c.world.shutdowns| + 1)
  {
    WriteKeepsStream(c, outcome);
    hide Stream;
  }

  // ----- what the kernel takes

  /** A message goes to the kernel as far as it takes it, and the rest into the buffer. */
  lemma SendTakes(c: Connection, message: seq<Byte>, k: nat)
    requires c.state != Disconnected && !c.channel.writing && c.output == [] && k <= |message|
    ensures var d := c.SendInLoop(message, Wrote(k));
            d.world.accepted == c.world.accepted + message[..k] && d.output == message[k..]
  {
    hide Connection.Keep;
    KeepAppends(c.Log(message, Kept).Accept(message[..k]), message[k..]);
  }

  /** A message that cannot be written now goes into the buffer, behind what is there; nothing is offered to the kernel if it is not empty. */
  lemma SendWaits(c: Connection, message: seq<Byte>, outcome: Outcome)
    requires c.state != Disconnected && (c.channel.writing || c.output != [] || outcome == WouldBlock || outcome == OtherError)
    ensures var d := c.SendInLoop(message, outcome);
            d.world.accepted == c.world.accepted && d.output == c.output + message
  {
    hide Connection.Keep;
    KeepAppends(c.Log(message, Kept), message);
    KeepAppends(c.Log(message, Kept).Accept([]), message);
    assert message[..0] == [] && message[0..] == message && c.world.accepted + [] == c.world.accepted;
  }

  /** The kernel takes what it takes from the front of the buffer, and nothing if it fails. */
  lemma WriteTakes(c: Connection, k: nat)
    requires c.channel.writing && k <= |c.output|
    ensures var d := c.HandleWrite(Wrote(k));
            d.world.accepted == c.world.accepted + c.output[..k] && d.output == c.output[k..]
    ensures forall outcome :: outcome in {WouldBlock, PeerGone, OtherError} ==> c.HandleWrite(outcome) == c
  {
    hide Channel.Updated;
    assert c.world.accepted + [] == c.world.accepted;
  }

  /** How many bytes a step offers to the kernel, if it makes a write call. */
  function Offered(c: Connection, step: Step): Option<nat> {
    match step
    case UserCall(Send(message), false, _) => if c.state == Connected && !c.channel.writing && c.output == [] then Some(|message|) else None
    case WriteStage(_) => if !c.world.removing && c.world.stage == BeforeWrite && c.channel.writing then Some(|c.output|) else None
    case RunFunctor(_) =>
      if !c.world.removing && c.world.stage == Idle && c.world.pending != [] && c.world.pending[0].SendFunctor?
         && c.state != Disconnected && !c.channel.writing && c.output == []
      then Some(|c.world.pending[0].message|)
      else None
    case _ => None
  }

  function OutcomeOf(step: Step): Outcome {
    match step
    case UserCall(_, _, outcome) => outcome
    case WriteStage(outcome) => outcome
    case RunFunctor(outcome) => outcome
    case _ => WouldBlock
  }

  /** What the write call of a step returns, if it makes one and that succeeds. */
  function Returned(c: Connection, step: Step): nat {
    if Offered(c, step).Some? && OutcomeOf(step).Wrote? then OutcomeOf(step).n else 0
  }

  /** A write call returns no more than it was offered. */
  predicate Plausible(c: Connection, step: Step) {
    Offered(c, step).Some? ==> Returned(c, step) <= Offered(c, step).value
  }

  ghost predicate PlausibleRun(c: Connection, steps: seq<Step>)
    decreases |steps|
  {
    steps == [] || (Plausible(c, steps[0]) && PlausibleRun(Next(c, steps[0]), steps[1..]))
  }

  function TotalReturned(c: Connection, steps: seq<Step>): nat
    decreases |steps|
  {
    if steps == [] then 0 else Returned(c, steps[0]) + TotalReturned(Next(c, steps[0]), steps[1..])
  }

  lemma SendReturned(c: Connection, message: seq<Byte>, outcome: Outcome)
    requires outcome.Wrote? && c.state != Disconnected && !c.channel.writing && c.output == [] ==> outcome.n <= |message|
    ensures |c.SendInLoop(message, outcome).world.accepted| == |c.world.accepted| +
              if outcome.Wrote? && c.state != Disconnected && !c.channel.writing && c.output == [] then outcome.n else 0
  {
    if c.state != Disconnected {
      if c.channel.writing || c.output != [] || outcome == WouldBlock || outcome == OtherError {
        SendWaits(c, message, outcome);
      } else if outcome.Wrote? {
        SendTakes(c, message, outcome.n);
      }
    }
  }

  lemma WriteReturned(c: Connection, outcome: Outcome)
    requires outcome.Wrote? && c.channel.writing ==> outcome.n <= |c.output|
    ensures |c.HandleWrite(outcome).world.accepted| == |c.world.accepted| + if outcome.Wrote? && c.channel.writing then outcome.n else 0
  {
    if c.channel.writing {
      WriteTakes(c, if outcome.Wrote? then outcome.n else 0);
    }
  }

  lemma ExecuteReturned(c: Connection, f: Functor, outcome: Outcome)
    requires f.SendFunctor? && outcome.Wrote? && c.state != Disconnected && !c.channel.writing && c.output == [] ==> outcome.n <= |f.message|
    ensures |c.Execute(f, outcome).world.accepted| == |c.world.accepted| +
              if f.SendFunctor? && outcome.Wrote? && c.state != Disconnected && !c.channel.writing && c.output == [] then outcome.n else 0
  {
    hide Connection.SendInLoop;
    if f.SendFunctor? {
      SendReturned(c, f.message, outcome);
    }
  }

  lemma CallReturned(c: Connection, call: Call, foreign: bool, outcome: Outcome)
    requires Plausible(c, UserCall(call, foreign, outcome))
    ensures |Called(c, call, foreign, outcome).world.accepted| == |c.world.accepted| + Returned(c, UserCall(call, foreign, outcome))
  {
    hide Connection.Execute;
    match call {
      case Send(message) => if c.state == Connected && !foreign { ExecuteReturned(c, SendFunctor(message), outcome); }
      case Shutdown => ExecuteReturned(c.(state := Disconnecting, world := c.world.(asked := true)), ShutdownFunctor, outcome);
      case StartRead => ExecuteReturned(c, StartReadFunctor, outcome);
      case StopRead => ExecuteReturned(c, StopReadFunctor, outcome);
      case _ =>
    }
  }

  lemma StepReturned(c: Connection, step: Step)
    requires Plausible(c, step)
    ensures |Next(c, step).world.accepted| == |c.world.accepted| + Returned(c, step)
  {
    hide Called, Connection.Execute, Connection.HandleWrite;
    match step {
      case UserCall(call, foreign, outcome) => CallReturned(c, call, foreign, outcome);
      case WriteStage(outcome) =>
        if !c.world.removing && c.world.stage == BeforeWrite { WriteReturned(c, outcome); }
      case RunFunctor(outcome) =>
        if !c.world.removing && c.world.stage == Idle && c.world.pending != [] {
          ExecuteReturned(c.(world := c.world.(pending := c.world.pending[1..])), c.world.pending[0], outcome);
        }
      case _ =>
    }
  }

  /** In every run, the bytes counted as taken are as many as the write calls that were made have returned. */
  lemma {:induction false} AcceptedIsReturned(c: Connection, steps: seq<Step>)
    requires PlausibleRun(c, steps)
    ensures |After(c, steps).world.accepted| == |c.world.accepted| + TotalReturned(c, steps)
    decreases |steps|
  {
    hide Next, Plausible, Returned;
    if steps != [] {
      StepReturned(c, steps[0]);
      AcceptedIsReturned(Next(c, steps[0]), steps[1..]);
    }
  }

  // ----- what the calls reach

  /** The messages that are on their way to the kernel or past it, wherever they are. */
  function SentMessages(sends: seq<Sent>): multiset<seq<Byte>> {
    if sends == [] then multiset{} else SentMessages(sends[..|sends| - 1]) + multiset{sends[|sends| - 1].message}
  }

  function QueuedMessages(pending: seq<Functor>): multiset<seq<Byte>> {
    if pending == [] then multiset{}
    else (if pending[0].SendFunctor? then multiset{pending[0].message} else multiset{}) + QueuedMessages(pending[1..])
  }

  function Known(c: Connection): multiset<seq<Byte>> {
    SentMessages(c.world.sends) + QueuedMessages(c.world.pending)
  }

  /** The message of a call that the connection accepts. */
  function Submitted(c: Connection, step: Step): multiset<seq<Byte>> {
    match step
    case UserCall(Send(message), _, _) => if c.state == Connected then multiset{message} else multiset{}
    case _ => multiset{}
  }

  lemma {:induction false} QueuedLast(pending: seq<Functor>, f: Functor)
    ensures QueuedMessages(pending + [f]) == QueuedMessages(pending) + if f.SendFunctor? then multiset{f.message} else multiset{}
  {
    if pending == [] {
      assert QueuedMessages([f][1..]) == multiset{};
    } else {
      assert (pending + [f])[1..] == pending[1..] + [f];
      QueuedLast(pending[1..], f);
    }
  }

  lemma SendLogs(c: Connection, message: seq<Byte>, outcome: Outcome)
    ensures var d := c.SendInLoop(message, outcome);
            SentMessages(d.world.sends) == SentMessages(c.world.sends) + multiset{message} && d.world.pending == c.world.pending
  {
    hide Connection.SendInLoop;
    SendAppends(c, message, outcome);
    var d := c.SendInLoop(message, outcome);
    assert d.world.sends[..|d.world.sends| - 1] == c.world.sends;
  }

  lemma SendAppends(c: Connection, message: seq<Byte>, outcome: Outcome)
    ensures var d := c.SendInLoop(message, outcome);
            d.world.pending == c.world.pending && exists fate :: d.world.sends == c.world.sends + [Sent(message, fate)]
  {
    hide Connection.Keep;
    var n := outcome.Taken(|message|);
    KeepAppends(c.Log(message, Kept), message);
    KeepAppends(c.Log(message, Kept).Accept(message[..n]), message[n..]);
    var d := c.SendInLoop(message, outcome);
    var fate := if c.state == Disconnected then GivenUp
                else if !c.channel.writing && c.output == [] && outcome == PeerGone then Lost else Kept;
    assert d.world.sends == c.world.sends + [Sent(message, fate)];
  }

  lemma StepSubmits(c: Connection, step: Step)
    ensures Known(Next(c, step)) == Known(c) + Submitted(c, step)
  {
    hide SentMessages, QueuedMessages, Connection.SendInLoop, Connection.HandleWrite;
    match step {
      case UserCall(call, foreign, outcome) => CallSubmits(c, call, foreign, outcome);
      case WriteStage(outcome) => WriteKeepsKnown(c, outcome);
      case RunFunctor(outcome) =>
        if !c.world.removing && c.world.stage == Idle && c.world.pending != [] {
          FunctorSubmits(c, outcome);
        }
      case _ =>
    }
  }

  lemma WriteKeepsKnown(c: Connection, outcome: Outcome)
    ensures var d := c.HandleWrite(outcome); d.world.sends == c.world.sends && d.world.pending == c.world.pending
  {
  }

  lemma ExecuteSubmits(c: Connection, f: Functor, outcome: Outcome)
    ensures Known(c.Execute(f, outcome)) == Known(c) + if f.SendFunctor? then multiset{f.message} else multiset{}
  {
    hide SentMessages, QueuedMessages, Connection.SendInLoop;
    if f.SendFunctor? {
      SendLogs(c, f.message, outcome);
    }
  }

  lemma CallSubmits(c: Connection, call: Call, foreign: bool, outcome: Outcome)
    ensures Known(Called(c, call, foreign, outcome)) == Known(c) + Submitted(c, UserCall(call, foreign, outcome))
  {
    hide SentMessages, QueuedMessages, Connection.Execute;
    forall f { QueuedLast(c.world.pending, f); }
    match call {
      case Send(message) => ExecuteSubmits(c, SendFunctor(message), outcome);
      case Shutdown => ExecuteSubmits(c.(state := Disconnecting, world := c.world.(asked := true)), ShutdownFunctor, outcome);
      case StartRead => ExecuteSubmits(c, StartReadFunctor, outcome);
      case StopRead => ExecuteSubmits(c, StopReadFunctor, outcome);
      case _ =>
    }
  }

  lemma FunctorSubmits(c: Connection, outcome: Outcome)
    requires c.world.pending != []
    ensures Known(c.(world := c.world.(pending := c.world.pending[1..])).Execute(c.world.pending[0], outcome)) == Known(c)
  {
    var d := c.(world := c.world.(pending := c.world.pending[1..]));
    assert QueuedMessages(c.world.pending) ==
      (if c.world.pending[0].SendFunctor? then multiset{c.world.pending[0].message} else multiset{}) + QueuedMessages(d.world.pending);
    hide SentMessages, QueuedMessages, Connection.Execute;
    ExecuteSubmits(d, c.world.pending[0], outcome);
  }

  function AllSubmitted(c: Connection, steps: seq<Step>): multiset<seq<Byte>>
    decreases |steps|
  {
    if steps == [] then multiset{} else Submitted(c, steps[0]) + AllSubmitted(Next(c, steps[0]), steps[1..])
  }

  /** In every run, each message of a call of send() on a connected connection is in the queue or has reached sendInLoop, and no other. */
  lemma {:induction false} EveryMessageReaches(c: Connection, steps: seq<Step>)
    ensures Known(After(c, steps)) == Known(c) + AllSubmitted(c, steps)
    decreases |steps|
  {
    hide Next, Submitted, Known;
    if steps != [] {
      StepSubmits(c, steps[0]);
      EveryMessageReaches(Next(c, steps[0]), steps[1..]);
    }
  }

  /** The queue is first in, first out: functions leave it in front, and what a call queues goes behind. */
  lemma QueueIs(c: Connection, step: Step)
    ensures var pending, next := c.world.pending, Next(c, step).world.pending;
            match step
            case RunFunctor(_) => next == if !c.world.removing && c.world.stage == Idle && pending != [] then pending[1..] else pending
            case UserCall(Send(message), true, _) => next == if c.state == Connected then pending + [SendFunctor(message)] else pending
            case UserCall(Shutdown, true, _) => next == if c.state == Connected then pending + [ShutdownFunctor] else pending
            case UserCall(ForceClose, _, _) => next == if c.Live() then pending + [ForceCloseFunctor] else pending
            case UserCall(StartRead, true, _) => next == pending + [StartReadFunctor]
            case UserCall(StopRead, true, _) => next == pending + [StopReadFunctor]
            case _ => next == pending
  {
    hide Connection.SendInLoop, Connection.HandleWrite;
    match step {
      case UserCall(call, _, outcome) => if call.Send? { SendAppends(c, call.message, outcome); }
      case WriteStage(outcome) => WriteKeepsKnown(c, outcome);
      case RunFunctor(outcome) =>
        if c.world.pending != [] && c.world.pending[0].SendFunctor? {
          SendAppends(c.(world := c.world.(pending := c.world.pending[1..])), c.world.pending[0].message, outcome);
        }
      case _ =>
    }
  }

  // ----- what changes the state

  /** A hang-up, the end of input on a channel that reads, and a forced close of a connection that is up. */
  predicate Closing(c: Connection, step: Step) {
    && !c.world.removing
    && match step
       case CloseStage => c.world.stage == Reported(true)
       case ReadStage(end) => end && c.world.stage == BeforeRead && c.channel.reading
       case RunFunctor(_) => c.world.stage == Idle && c.world.pending != [] && c.world.pending[0] == ForceCloseFunctor && c.Live()
       case _ => false
  }

  /** Exactly these steps call the close callback, once; the connection is then down and has no events of interest. */
  lemma ClosesIff(c: Connection, step: Step)
    ensures var d := Next(c, step);
            && d.world.closes == c.world.closes + (if Closing(c, step) then 1 else 0)
            && (Closing(c, step) ==> d.state == Disconnected && !d.channel.HasEvents())
  {
    hide Connection.SendInLoop, Connection.HandleWrite;
    match step {
      case UserCall(call, _, outcome) => if call.Send? { SendKeepsCloses(c, call.message, outcome); }
      case WriteStage(outcome) => WriteKeepsCloses(c, outcome);
      case RunFunctor(outcome) =>
        if c.world.pending != [] && c.world.pending[0].SendFunctor? {
          SendKeepsCloses(c.(world := c.world.(pending := c.world.pending[1..])), c.world.pending[0].message, outcome);
        }
      case _ =>
    }
  }

  lemma SendKeepsCloses(c: Connection, message: seq<Byte>, outcome: Outcome)
    ensures var d := c.SendInLoop(message, outcome); d.world.closes == c.world.closes && d.state == c.state && d.world.asked == c.world.asked
  {
    hide Connection.Keep;
    var n := outcome.Taken(|message|);
    KeepAppends(c.Log(message, Kept), message);
    KeepAppends(c.Log(message, Kept).Accept(message[..n]), message[n..]);
  }

  lemma WriteKeepsCloses(c: Connection, outcome: Outcome)
    ensures var d := c.HandleWrite(outcome); d.world.closes == c.world.closes && d.state == c.state && d.world.asked == c.world.asked
  {
  }

  predicate IsStop(call: Call) {
    call == Shutdown || call == ForceClose || call == ForceCloseWithDelay
  }

  /** Every change of the state, and the one call that asks for a half-close. */
  lemma StateIs(c: Connection, step: Step)
    ensures var d := Next(c, step);
            && d.state == (
                 if Closing(c, step) || (step == Destroy && c.state == Connected && !c.world.removing) then Disconnected
                 else if step.UserCall? && IsStop(step.call) && c.Live() then Disconnecting
                 else if step == Establish && c.state == Connecting && !c.world.removing then Connected
                 else c.state)
            && d.world.asked == (c.world.asked || (step.UserCall? && step.call == Shutdown && c.state == Connected))
  {
    hide Connection.SendInLoop, Connection.HandleWrite;
    match step {
      case UserCall(call, _, outcome) => if call.Send? { SendKeepsCloses(c, call.message, outcome); }
      case WriteStage(outcome) => WriteKeepsCloses(c, outcome);
      case RunFunctor(outcome) =>
        if c.world.pending != [] && c.world.pending[0].SendFunctor? {
          SendKeepsCloses(c.(world := c.world.(pending := c.world.pending[1..])), c.world.pending[0].message, outcome);
        }
      case _ =>
    }
  }

  /** A request to shut down that runs while the channel does not wait to write, or a write that ends the waiting of one that is shutting down. */
  predicate HalfClosing(c: Connection, step: Step) {
    match step
    case UserCall(Shutdown, false, _) => c.state == Connected && !c.channel.writing
    case RunFunctor(_) =>
      !c.world.removing && c.world.stage == Idle && c.world.pending != [] && c.world.pending[0] == ShutdownFunctor && !c.channel.writing
    case WriteStage(outcome) =>
      && !c.world.removing && c.world.stage == BeforeWrite && c.channel.writing && c.state == Disconnecting
      && outcome.Wrote? && outcome.n >= |c.output| > 0
    case _ => false
  }

  /** Exactly these steps half-close the connection. */
  lemma HalfClosesIff(c: Connection, step: Step)
    ensures |Next(c, step).world.shutdowns| == |c.world.shutdowns| + if HalfClosing(c, step) then 1 else 0
  {
    hide Called, Connection.Execute, Connection.HandleWrite;
    match step {
      case UserCall(call, foreign, outcome) => CallHalfCloses(c, call, foreign, outcome);
      case WriteStage(outcome) => WriteHalfCloses(c, outcome);
      case RunFunctor(outcome) =>
        if c.world.pending != [] {
          ExecuteHalfCloses(c.(world := c.world.(pending := c.world.pending[1..])), c.world.pending[0], outcome);
        }
      case _ =>
    }
  }

  lemma ExecuteHalfCloses(c: Connection, f: Functor, outcome: Outcome)
    ensures |c.Execute(f, outcome).world.shutdowns| == |c.world.shutdowns| + if f == ShutdownFunctor && !c.channel.writing then 1 else 0
  {
    hide Connection.SendInLoop;
    if f.SendFunctor? {
      SendKeepsShutdowns(c, f.message, outcome);
    }
  }

  lemma CallHalfCloses(c: Connection, call: Call, foreign: bool, outcome: Outcome)
    ensures |Called(c, call, foreign, outcome).world.shutdowns| ==
            |c.world.shutdowns| + if HalfClosing(c, UserCall(call, foreign, outcome)) then 1 else 0
  {
    hide Connection.Execute;
    match call {
      case Send(message) => ExecuteHalfCloses(c, SendFunctor(message), outcome);
      case Shutdown => ExecuteHalfCloses(c.(state := Disconnecting, world := c.world.(asked := true)), ShutdownFunctor, outcome);
      case StartRead => ExecuteHalfCloses(c, StartReadFunctor, outcome);
      case StopRead => ExecuteHalfCloses(c, StopReadFunctor, outcome);
      case _ =>
    }
  }

  lemma SendKeepsShutdowns(c: Connection, message: seq<Byte>, outcome: Outcome)
    ensures c.SendInLoop(message, outcome).world.shutdowns == c.world.shutdowns
  {
    hide Connection.Keep;
    var n := outcome.Taken(|message|);
    KeepAppends(c.Log(message, Kept), message);
    KeepAppends(c.Log(message, Kept).Accept(message[..n]), message[n..]);
  }

  lemma WriteHalfCloses(c: Connection, outcome: Outcome)
    ensures |c.HandleWrite(outcome).world.shutdowns| == |c.world.shutdowns| +
              if c.channel.writing && c.state == Disconnecting && outcome.Wrote? && outcome.n >= |c.output| > 0 then 1 else 0
  {
    var n := outcome.Taken(|c.output|);
    if c.channel.writing && 0 < n == |c.output| {
      var d := c.Accept(c.output[..n]).(output := c.output[n..]).SetEvents(c.channel.reading, false).Notify(WriteComplete);
      assert d.world.shutdowns == c.world.shutdowns && !d.channel.writing;
      hide Connection.SetEvents, Connection.Notify, Connection.Accept;
      assert c.HandleWrite(outcome) == if c.state == Disconnecting then d.ShutdownInLoop() else d;
    }
  }

  /** Whether the channel reads after a call that starts or stops reading, or after the connection is established. */
  lemma ReadingIs(c: Connection, outcome: Outcome)
    ensures var d := Next(c, UserCall(StartRead, false, outcome)); d.channel.reading && d.isReading && d.channel.writing == c.channel.writing
    ensures var d := Next(c, UserCall(StopRead, false, outcome)); !d.channel.reading && !d.isReading && d.channel.writing == c.channel.writing
    ensures c.state == Connecting && !c.world.removing ==> Next(c, Establish).channel.reading
  {
  }

  // ----- the object

  lemma {:induction false} RunInTwo(c: Connection, a: seq<Step>, b: seq<Step>)
    ensures After(c, a + b) == After(After(c, a), b)
    ensures Legal(c, a + b) <==> Legal(c, a) && Legal(After(c, a), b)
    decreases |a|
  {
    hide Next, Allowed;
    if a == [] {
      assert a + b == b;
    } else {
      assert (a + b)[1..] == a[1..] + b;
      RunInTwo(Next(c, a[0]), a[1..], b);
    }
  }

  ghost predicate Valid(c: Connection) {
    StreamRight(c) && OutputRight(c) && Settled(c)
  }

  lemma StepKeepsValid(c: Connection, step: Step)
    requires Valid(c) && Allowed(c, step)
    ensures Valid(Next(c, step))
  {
    hide Next, StreamRight, HalfClosesRight, Settled, Allowed;
    StepKeepsStream(c, step);
    StepKeepsOutput(c, step);
    StepKeepsSettled(c, step);
  }

  lemma ValidClosedOnce(c: Connection)
    requires Valid(c)
    ensures c.world.closes <= 1
  {
  }

  /** The parts of the handling of an event, with the calls that callbacks make in between. */
  function Handled(onClose: seq<Step>, end: bool, onRead: seq<Step>, outcome: Outcome): seq<Step> {
    [CloseStage] + (onClose + ([ReadStage(end)] + (onRead + [WriteStage(outcome)])))
  }

  lemma SingleStep(c: Connection, step: Step)
    ensures After(c, [step]) == Next(c, step) && (Legal(c, [step]) <==> Allowed(c, step))
  {
    assert [step][1..] == [];
    assert After(Next(c, step), []) == Next(c, step);
  }

  /** The handling of an event, part by part; calls do not change its stage. */
  lemma SplitHandling(c: Connection, onClose: seq<Step>, end: bool, onRead: seq<Step>, outcome: Outcome)
    requires c.world.stage.Reported? && !c.world.removing
    requires forall i :: 0 <= i < |onClose| ==> onClose[i].UserCall?
    requires forall i :: 0 <= i < |onRead| ==> onRead[i].UserCall?
    ensures var c1 := Next(c, CloseStage);
            var c2 := After(c1, onClose);
            var c3 := Next(c2, ReadStage(end));
            var c4 := After(c3, onRead);
            && After(c, Handled(onClose, end, onRead, outcome)) == Next(c4, WriteStage(outcome))
            && (Legal(c, Handled(onClose, end, onRead, outcome)) ==> Allowed(c, CloseStage) && Legal(c1, onClose) && Legal(c3, onRead))
            && c2.world.stage == BeforeRead && c4.world.stage == BeforeWrite && !c2.world.removing && !c4.world.removing
            && Next(c4, WriteStage(outcome)).world.stage == Listed
  {
    StageOfHandling(c, end, outcome);
    hide Next, Allowed;
    var c1 := Next(c, CloseStage);
    var c2 := After(c1, onClose);
    var c3 := Next(c2, ReadStage(end));
    var c4 := After(c3, onRead);
    var last := [WriteStage(outcome)];
    RunInTwo(c, [CloseStage], onClose + ([ReadStage(end)] + (onRead + last)));
    SingleStep(c, CloseStage);
    RunInTwo(c1, onClose, [ReadStage(end)] + (onRead + last));
    RunInTwo(c2, [ReadStage(end)], onRead + last);
    SingleStep(c2, ReadStage(end));
    RunInTwo(c3, onRead, last);
    SingleStep(c4, WriteStage(outcome));
    CallsKeepStage(c1, onClose);
    StageOfHandling(c2, end, outcome);
    CallsKeepStage(c3, onRead);
    StageOfHandling(c4, end, outcome);
  }

  lemma StageOfHandling(c: Connection, end: bool, outcome: Outcome)
    requires !c.world.removing
    ensures !Next(c, CloseStage).world.removing && !Next(c, ReadStage(end)).world.removing
    ensures c.world.stage.Reported? ==> Next(c, CloseStage).world.stage == BeforeRead
    ensures c.world.stage == BeforeRead ==> Next(c, ReadStage(end)).world.stage == BeforeWrite
    ensures c.world.stage == BeforeWrite ==> Next(c, WriteStage(outcome)).world.stage == Listed
  {
    hide Connection.HandleWrite;
  }

  lemma {:induction false} CallsKeepStage(c: Connection, calls: seq<Step>)
    requires forall i :: 0 <= i < |calls| ==> calls[i].UserCall?
    ensures var d := After(c, calls).world; d.stage == c.world.stage && d.removing == c.world.removing
    decreases |calls|
  {
    hide Next;
    if calls != [] {
      CallKeepsStage(c, calls[0]);
      CallsKeepStage(Next(c, calls[0]), calls[1..]);
    }
  }

  lemma CallKeepsStage(c: Connection, step: Step)
    requires step.UserCall?
    ensures var d := Next(c, step).world; d.stage == c.world.stage && d.removing == c.world.removing
  {
    hide Connection.SendInLoop;
    if step.call.Send? {
      SendKeepsState(c, step.call.message, step.outcome);
    }
  }

  /** connectDestroyed, with the calls that the connection callback makes in between. */
  function Destroyed(calls: seq<Step>): seq<Step> {
    [Destroy] + (calls + [Remove])
  }

  lemma SplitDestroyed(c: Connection, calls: seq<Step>)
    ensures var d := Next(c, Destroy);
            && After(c, Destroyed(calls)) == Next(After(d, calls), Remove)
            && (Legal(c, Destroyed(calls)) <==> Allowed(c, Destroy) && Legal(d, calls) && Allowed(After(d, calls), Remove))
  {
    hide Next, Allowed;
    RunInTwo(c, [Destroy], calls + [Remove]);
    SingleStep(c, Destroy);
    RunInTwo(Next(c, Destroy), calls, [Remove]);
    SingleStep(After(Next(c, Destroy), calls), Remove);
  }

  class TcpConnection {
    var state: Link
    var isReading: bool
    var channel: Channel
    var output: seq<Byte>
    const highWaterMark: nat
    var world: World

    ghost function View(): Connection
      reads this
    {
      Connection(state, isReading, channel, output, highWaterMark, world)
    }

    constructor (poller: Poller, mark: nat)
      ensures View() == Created(poller, mark) && Valid(View())
    {
      state, isReading, channel, output := Connecting, false, Channel(false, false, Fresh, false), [];
      highWaterMark := mark;
      world := World(poller, Idle, false, [], [], [], [], [], false, 0, false);
    }

    method UpdateChannel(reading: bool, writing: bool)
      modifies `channel, `world
      ensures View() == old(View()).SetEvents(reading, writing)
    {
      world := world.(failed := world.failed || (world.poller == Poll && channel.place == Removed));
      channel := channel.(reading := reading, writing := writing).Updated(world.poller);
    }

    /** The last part of sendInLoop. */
    method Keep(rest: seq<Byte>)
      modifies `channel, `output, `world
      ensures View() == old(View()).Keep(rest)
    {
      if |rest| > 0 {
        var oldLen := |output|;
        if oldLen + |rest| >= highWaterMark && oldLen < highWaterMark {
          world := world.(notices := world.notices + [HighWater(oldLen + |rest|)]);
        }
        output := output + rest;
        if !channel.writing {
          UpdateChannel(channel.reading, true);
        }
      }
    }

    method SendInLoop(message: seq<Byte>, outcome: Outcome)
      modifies `channel, `output, `world
      ensures View() == old(View()).SendInLoop(message, outcome)
    {
      hide Connection.Keep;
      if state == Disconnected {
        world := world.(sends := world.sends + [Sent(message, GivenUp)]);
        return;
      }
      var written, fault := 0, false;
      var direct := !channel.writing && |output| == 0;
      if direct {
        written, fault := outcome.Taken(|message|), outcome.PeerGone?;
      }
      world := world.(sends := world.sends + [Sent(message, if fault then Lost else Kept)]);
      if !fault {
        if direct {
          world := world.(accepted := world.accepted + message[..written]);
        }
        if direct && outcome.Wrote? && written == |message| {
          world := world.(notices := world.notices + [WriteComplete]);
        } else {
          assert written == 0 ==> message[written..] == message;
          Keep(message[written..]);
        }
      }
    }

    method ShutdownInLoop()
      modifies `world
      ensures View() == old(View()).ShutdownInLoop()
    {
      if !channel.writing {
        world := world.(shutdowns := world.shutdowns + [HalfClose(state != Disconnected, |output|)]);
      }
    }

    method HandleWrite(outcome: Outcome)
      modifies `channel, `output, `world
      ensures View() == old(View()).HandleWrite(outcome)
    {
      var n := outcome.Taken(|output|);
      if channel.writing && n > 0 {
        world := world.(accepted := world.accepted + output[..n]);
        output := output[n..];
        if |output| == 0 {
          UpdateChannel(channel.reading, false);
          world := world.(notices := world.notices + [WriteComplete]);
          if state == Disconnecting {
            ShutdownInLoop();
          }
        }
      }
    }

    /** The source asserts that the connection is up. */
    method HandleClose()
      requires View().Live()
      modifies `state, `channel, `world
      ensures View() == old(View()).HandleClose()
    {
      state := Disconnected;
      UpdateChannel(false, false);
      world := world.(closes := world.closes + 1);
    }

    method Execute(f: Functor, outcome: Outcome)
      modifies this
      ensures View() == old(View()).Execute(f, outcome)
    {
      match f
      case SendFunctor(message) => SendInLoop(message, outcome);
      case ShutdownFunctor => ShutdownInLoop();
      case ForceCloseFunctor =>
        if state == Connected || state == Disconnecting {
          HandleClose();
        }
      case StartReadFunctor =>
        if !isReading || !channel.reading {
          UpdateChannel(true, channel.writing);
          isReading := true;
        }
      case StopReadFunctor =>
        if isReading || channel.reading {
          UpdateChannel(false, channel.writing);
          isReading := false;
        }
    }

    method RunInLoop(f: Functor, foreign: bool, outcome: Outcome)
      modifies this
      ensures View() == old(View()).RunInLoop(f, foreign, outcome)
    {
      if foreign {
        world := world.(pending := world.pending + [f]);
      } else {
        Execute(f, outcome);
      }
    }

    /** The interface, as any thread may call it. */
    method Perform(call: Call, foreign: bool, outcome: Outcome)
      requires Valid(View()) && Allowed(View(), UserCall(call, foreign, outcome))
      modifies this
      ensures View() == Next(old(View()), UserCall(call, foreign, outcome)) && Valid(View())
    {
      hide Valid, Allowed, Connection.RunInLoop;
      StepKeepsValid(View(), UserCall(call, foreign, outcome));
      match call
      case Send(message) =>
        if state == Connected {
          RunInLoop(SendFunctor(message), foreign, outcome);
        }
      case Shutdown =>
        if state == Connected {
          state, world := Disconnecting, world.(asked := true);
          RunInLoop(ShutdownFunctor, foreign, outcome);
        }
      case ForceClose =>
        if state == Connected || state == Disconnecting {
          state := Disconnecting;
          world := world.(pending := world.pending + [ForceCloseFunctor]);
        }
      case ForceCloseWithDelay =>
        if state == Connected || state == Disconnecting {
          state := Disconnecting;
        }
      case StartRead => RunInLoop(StartReadFunctor, foreign, outcome);
      case StopRead => RunInLoop(StopReadFunctor, foreign, outcome);
    }

    method ConnectEstablished()
      requires Valid(View()) && state == Connecting
      modifies this
      ensures View() == Next(old(View()), Establish) && Valid(View())
    {
      StepKeepsValid(View(), Establish);
      hide Valid, Allowed;
      state := Connected;
      UpdateChannel(true, channel.writing);
    }

    /** `calls` are what the connection callback does, if there is one. */
    method ConnectDestroyed(calls: seq<Step>)
      requires Valid(View()) && !world.removing && Legal(View(), Destroyed(calls))
      requires forall i :: 0 <= i < |calls| ==> calls[i].UserCall?
      requires state != Connected ==> calls == []
      modifies this
      ensures View() == After(old(View()), Destroyed(calls)) && Valid(View()) && state == Disconnected && channel.place == Removed
    {
      SplitDestroyed(View(), calls);
      StepKeepsValid(View(), Destroy);
      if state == Connected {
        CallsKeepStage(Next(View(), Destroy), calls);
        GoDown();
        RunCallback(calls);
        RemoveAfterCallback();
      } else {
        RemoveChannel();
      }
    }

    method GoDown()
      requires state == Connected && !world.removing && Valid(View()) && Allowed(View(), Destroy)
      modifies `state, `channel, `world
      ensures View() == Next(old(View()), Destroy) && Valid(View())
    {
      StepKeepsValid(View(), Destroy);
      hide Valid;
      state, world := Disconnected, world.(removing := true);
      UpdateChannel(false, false);
    }

    /** Channel::remove, with its assertion and that of the loop. */
    method RemoveChannel()
      requires !channel.HasEvents() && channel.place == Registered && !world.stage.Elsewhere()
      modifies `channel
      ensures View() == old(View()).RemoveChannel()
    {
      channel := channel.(place := Removed, watched := false);
    }

    method RemoveAfterCallback()
      requires world.removing && Valid(View()) && Allowed(View(), Remove)
      modifies `channel, `world
      ensures View() == Next(old(View()), Remove) && Valid(View()) && state == Disconnected && channel.place == Removed
    {
      StepKeepsValid(View(), Remove);
      assert state == Disconnected && channel.place == Registered && !world.stage.Elsewhere();
      hide Valid;
      world := world.(removing := false);
      RemoveChannel();
    }

    /** One function from the loop's queue. */
    method RunPending(outcome: Outcome)
      requires Valid(View()) && world.stage == Idle && !world.removing && world.pending != [] && Allowed(View(), RunFunctor(outcome))
      modifies this
      ensures View() == Next(old(View()), RunFunctor(outcome)) && Valid(View())
    {
      hide Valid, Allowed, Connection.Execute;
      StepKeepsValid(View(), RunFunctor(outcome));
      var f := world.pending[0];
      world := world.(pending := world.pending[1..]);
      Execute(f, outcome);
    }

    method RunCallback(calls: seq<Step>)
      requires Valid(View()) && Legal(View(), calls) && forall i :: 0 <= i < |calls| ==> calls[i].UserCall?
      modifies this
      ensures View() == After(old(View()), calls) && Valid(View())
      decreases |calls|
    {
      hide Next, Allowed, Valid;
      if calls != [] {
        Perform(calls[0].call, calls[0].foreign, calls[0].outcome);
        RunCallback(calls[1..]);
      }
    }

    method ClosePart()
      requires Valid(View()) && Allowed(View(), CloseStage) && world.stage.Reported? && !world.removing
      modifies this
      ensures View() == Next(old(View()), CloseStage) && Valid(View())
    {
      StepKeepsValid(View(), CloseStage);
      if world.stage.hup {
        HandleClose();
      }
      world := world.(stage := BeforeRead);
    }

    method ReadPart(end: bool)
      requires Valid(View()) && world.stage == BeforeRead && !world.removing
      modifies this
      ensures View() == Next(old(View()), ReadStage(end)) && Valid(View())
    {
      StepKeepsValid(View(), ReadStage(end));
      if channel.reading && end {
        HandleClose();
      }
      world := world.(stage := BeforeWrite);
    }

    method WritePart(outcome: Outcome)
      requires Valid(View()) && world.stage == BeforeWrite && !world.removing
      modifies this
      ensures View() == Next(old(View()), WriteStage(outcome)) && Valid(View())
    {
      StepKeepsValid(View(), WriteStage(outcome));
      hide Valid, Connection.HandleWrite;
      if channel.writing {
        HandleWrite(outcome);
      }
      world := world.(stage := Listed);
    }

    /** The loop has handled the last active channel. */
    method LeaveList()
      requires Valid(View()) && world.stage == Listed && !world.removing
      modifies this
      ensures View() == Next(old(View()), EndOfHandling) && Valid(View())
    {
      StepKeepsValid(View(), EndOfHandling);
      hide Valid;
      world := world.(stage := Idle);
    }

    /** Channel::handleEventWithGuard, with the calls that the callbacks make on closing and on reading. */
    method HandleEventWithGuard(onClose: seq<Step>, end: bool, onRead: seq<Step>, outcome: Outcome)
      requires Valid(View()) && world.stage.Reported? && !world.removing
      requires forall i :: 0 <= i < |onClose| ==> onClose[i].UserCall?
      requires forall i :: 0 <= i < |onRead| ==> onRead[i].UserCall?
      requires Legal(View(), Handled(onClose, end, onRead, outcome))
      modifies this
      ensures View() == After(old(View()), Handled(onClose, end, onRead, outcome)) && Valid(View())
      ensures world.stage == Listed && world.closes <= 1
    {
      hide Valid, Next, Allowed;
      SplitHandling(View(), onClose, end, onRead, outcome);
      ClosePart();
      RunCallback(onClose);
      ReadPart(end);
      RunCallback(onRead);
      WritePart(outcome);
      ValidClosedOnce(View());
    }
  }
}
