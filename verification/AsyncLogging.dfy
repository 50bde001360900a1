/**
 The asynchronous log (dc/base/asyncLogging.cc): threads append under a lock, and a backend thread takes the
 full buffers away, writes them, and brings two of them back as spares.

 Each method below is one step that is atomic with respect to the others: the bodies of the two critical
 sections, and the backend's work between them, which touches nothing that the other threads see. Any
 interleaving of the threads is a sequence of these steps.
 */
module AsyncLogging {
  import opened Options
  import LogStream

  const LARGE_BUFFER: nat := 4000 * 1000

  /** A buffer, which has an identity so that one held twice would be noticed. */
  datatype Buffer = Buffer(id: nat, data: seq<char>)
  {
    predicate Valid() {
      |data| < LARGE_BUFFER
    }

    function Avail(): int {
      LARGE_BUFFER - |data|
    }

    /** FixedBuffer::append: what does not fit is not copied. */
    function Append(line: seq<char>): Buffer {
      this.(data := LogStream.Appended(data, LARGE_BUFFER, line))
    }
  }

  // ----- bytes and identities of sequences of buffers

  function Concat(lines: seq<seq<char>>): seq<char> {
    if lines == [] then [] else Concat(lines[..|lines| - 1]) + lines[|lines| - 1]
  }

  function Data(buffers: seq<Buffer>): seq<char> {
    if buffers == [] then [] else Data(buffers[..|buffers| - 1]) + buffers[|buffers| - 1].data
  }

  lemma SplitLast<T>(a: seq<T>, b: seq<T>)
    requires b != []
    ensures b == b[..|b| - 1] + [b[|b| - 1]] && a + b == a + b[..|b| - 1] + [b[|b| - 1]]
  {
  }

  lemma {:induction false} DataConcat(a: seq<Buffer>, b: seq<Buffer>)
    ensures Data(a + b) == Data(a) + Data(b)
    decreases |b|
  {
    if b == [] {
      assert a + b == a;
    } else {
      var front, last := b[..|b| - 1], b[|b| - 1];
      DataConcat(a, front);
      hide Data;
      SplitLast(a, b);
      DataSnoc(a + front, last);
      DataSnoc(front, last);
    }
  }

  lemma {:induction false} ConcatConcat(a: seq<seq<char>>, b: seq<seq<char>>)
    ensures Concat(a + b) == Concat(a) + Concat(b)
    decreases |b|
  {
    if b == [] {
      assert a + b == a;
    } else {
      var front, last := b[..|b| - 1], b[|b| - 1];
      ConcatConcat(a, front);
      hide Concat;
      SplitLast(a, b);
      ConcatSnoc(a + front, last);
      ConcatSnoc(front, last);
    }
  }

  lemma DataSnoc(buffers: seq<Buffer>, b: Buffer)
    ensures Data(buffers + [b]) == Data(buffers) + b.data
  {
    assert (buffers + [b])[..|buffers|] == buffers;
  }

  lemma ConcatSnoc(lines: seq<seq<char>>, line: seq<char>)
    ensures Concat(lines + [line]) == Concat(lines) + line
  {
    assert (lines + [line])[..|lines|] == lines;
  }

  lemma EmptyData()
    ensures Data([]) == [] && Concat([]) == []
  {
  }

  /** How often the buffer with identity `id` is held. */
  function Count(buffers: seq<Buffer>, id: nat): nat {
    if buffers == [] then 0 else Count(buffers[..|buffers| - 1], id) + Has(buffers[|buffers| - 1], id)
  }

  function Has(b: Buffer, id: nat): nat {
    if b.id == id then 1 else 0
  }

  function Holds(b: Option<Buffer>, id: nat): nat {
    if b.Some? then Has(b.value, id) else 0
  }

  lemma CountSnoc(buffers: seq<Buffer>, b: Buffer, id: nat)
    ensures Count(buffers + [b], id) == Count(buffers, id) + Has(b, id)
  {
    assert (buffers + [b])[..|buffers|] == buffers;
  }

  lemma {:induction false} CountPrefix(buffers: seq<Buffer>, k: nat, id: nat)
    requires k <= |buffers|
    ensures Count(buffers[..k], id) <= Count(buffers, id)
    decreases |buffers|
  {
    if k == |buffers| {
      assert buffers[..k] == buffers;
    } else {
      assert buffers[..|buffers| - 1][..k] == buffers[..k];
      CountPrefix(buffers[..|buffers| - 1], k, id);
    }
  }

  /** What happened to a stretch of the log: written to the file, or dropped. A notice stands for what is dropped. */
  datatype Piece = Written(data: seq<char>) | Dropped(data: seq<char>) | Notice(text: seq<char>)
  {
    function OfLog(): seq<char> {
      if Notice? then [] else data
    }

    function OfFile(): seq<char> {
      if Dropped? then [] else if Written? then data else text
    }
  }

  /** The bytes of the log that the pieces account for ... */
  function Accounted(trace: seq<Piece>): seq<char> {
    if trace == [] then [] else Accounted(trace[..|trace| - 1]) + trace[|trace| - 1].OfLog()
  }

  /** ... and those that the file has received. */
  function Output(trace: seq<Piece>): seq<char> {
    if trace == [] then [] else Output(trace[..|trace| - 1]) + trace[|trace| - 1].OfFile()
  }

  datatype Phase = AtTop | Swapped | Writing | Exited

  /** The shared state, the backend's own, and what is known of the run so far. */
  datatype State = State(
    current: Option<Buffer>, next: Option<Buffer>, buffers: seq<Buffer>,
    newBuffer1: Option<Buffer>, newBuffer2: Option<Buffer>, toWrite: seq<Buffer>, written: nat,
    phase: Phase, running: bool, output: seq<char>,
    nextId: nat,                // identity that `new` gives out next
    messages: seq<seq<char>>,   // lines accepted, in order
    taken: nat,                 // how many of them had been accepted at the last swap
    trace: seq<Piece>,
    excess: seq<char>)          // dropped in this cycle, and not in the trace yet
  {
    // ----- what is kept

    /** Lines accepted before the last swap are in the trace, in the batch or in the excess ... */
    ghost predicate PastConserved() {
      && taken <= |messages| && written <= |toWrite|
      && Accounted(trace) + (Data(toWrite[written..]) + excess) == Concat(messages[..taken])
      && Output(trace) == output
    }

    /** ... and those accepted since are in the buffers. */
    ghost predicate RestConserved() {
      taken <= |messages| && current.Some? && Data(buffers) + current.value.data == Concat(messages[taken..])
    }

    ghost function Owners(id: nat): nat {
      Holds(current, id) + Holds(next, id) + Count(buffers, id) + Holds(newBuffer1, id) + Holds(newBuffer2, id) + Count(toWrite, id)
    }

    /** No buffer is held twice. */
    ghost predicate OwnedOnce() {
      forall id: nat :: Owners(id) <= 1 && (Owners(id) > 0 ==> id < nextId)
    }

    /** The buffers that the source's assertions ask for are there when they are asked for, and the spares are empty. */
    ghost predicate Supplied() {
      && current.Some?
      && (next.Some? ==> next.value.data == [])
      && (next.None? ==> buffers != [])
      && (phase == AtTop || phase == Exited ==>
           && newBuffer1.Some? && newBuffer1.value.data == []
           && newBuffer2.Some? && newBuffer2.value.data == []
           && toWrite == [] && excess == [])
      && (phase == Swapped || phase == Writing ==>
           && newBuffer1.None? && toWrite != []
           && (newBuffer2.None? ==> |toWrite| >= 2)
           && (newBuffer2.Some? ==> newBuffer2.value.data == []))
      && (phase == Swapped ==> excess == [] && written == 0)
    }

    ghost predicate Valid() {
      PastConserved() && RestConserved() && OwnedOnce() && Supplied()
    }

    // ----- the steps

    /** append() */
    function Appended(line: seq<char>): State
      requires current.Some?
    {
      if current.value.Avail() > |line| then
        this.(current := Some(current.value.Append(line)), messages := messages + [line])
      else
        var spare := if next.Some? then next.value else Buffer(nextId, []);
        this.(buffers := buffers + [current.value], current := Some(spare.Append(line)), next := None,
              nextId := if next.Some? then nextId else nextId + 1,
              messages := if |line| < LARGE_BUFFER then messages + [line] else messages)
    }

    /** The backend's critical section, entered when the wait ends or times out. */
    function SwappedOut(): State
      requires current.Some? && phase == AtTop
    {
      this.(toWrite := buffers + [current.value], buffers := [], current := newBuffer1, newBuffer1 := None,
            next := if next.Some? then next else newBuffer2,
            newBuffer2 := if next.Some? then newBuffer2 else None,
            written := 0, taken := |messages|, phase := Swapped)
    }

    /** A batch of more than 25 buffers keeps its first two; a notice goes to the file for the others. */
    function Begun(notice: seq<char>): State
      requires phase == Swapped
    {
      if |toWrite| > 25 then
        this.(toWrite := toWrite[..2], excess := Data(toWrite[2..]), output := output + notice,
              trace := trace + [Notice(notice)], phase := Writing)
      else this.(phase := Writing)
    }

    function WroteOne(): State
      requires phase == Writing && written < |toWrite|
    {
      var data := toWrite[written].data;
      this.(output := output + data, trace := trace + [Written(data)], written := written + 1)
    }

    /** The spares that were given away are replaced by buffers of the written batch, emptied. */
    function Recycled(): State
      requires phase == Writing && written == |toWrite| && newBuffer1.None? && toWrite != []
      requires newBuffer2.None? ==> |toWrite| >= 2
    {
      var batch := if |toWrite| > 2 then toWrite[..2] else toWrite;
      var first, rest := batch[|batch| - 1].(data := []), batch[..|batch| - 1];
      this.(newBuffer1 := Some(first),
            newBuffer2 := if newBuffer2.Some? then newBuffer2 else Some(rest[|rest| - 1].(data := [])),
            toWrite := [], written := 0, phase := AtTop,
            trace := if excess != [] then trace + [Dropped(excess)] else trace, excess := [])
    }
  }

  // ----- every step keeps it

  lemma AppendConserves(s: State, line: seq<char>)
    requires s.RestConserved() && s.Supplied()
    ensures s.Appended(line).RestConserved()
  {
    hide Data, Concat, Accounted, Output;
    EmptyData();
    var t := s.Appended(line);
    var rest := s.messages[s.taken..];
    DataSnoc(s.buffers, s.current.value);
    if |line| < LARGE_BUFFER {
      assert t.messages == s.messages + [line];
      assert t.messages[t.taken..] == rest + [line];
      ConcatSnoc(rest, line);
      if t.buffers == s.buffers {
        Associate(Data(s.buffers), s.current.value.data, line);
      } else {
        assert t.current.value.data == [] + line == line;
      }
    }
  }

  lemma Associate(a: seq<char>, b: seq<char>, c: seq<char>)
    ensures a + b + c == a + (b + c)
  {
  }

  lemma AppendKeepsPast(s: State, line: seq<char>)
    requires s.PastConserved() && s.current.Some?
    ensures s.Appended(line).PastConserved()
  {
    hide Data, Concat, Accounted, Output;
    EmptyData();
    var t := s.Appended(line);
    assert t.messages[..t.taken] == s.messages[..s.taken];
  }

  lemma SwapConserves(s: State)
    requires s.PastConserved() && s.RestConserved() && s.Supplied() && s.phase == AtTop
    ensures s.SwappedOut().PastConserved() && s.SwappedOut().RestConserved()
  {
    hide Data, Concat, Accounted, Output;
    EmptyData();
    var t := s.SwappedOut();
    DataSnoc(s.buffers, s.current.value);
    assert t.toWrite[t.written..] == t.toWrite;
    assert s.toWrite[s.written..] == [];
    assert s.messages[..s.taken] + s.messages[s.taken..] == s.messages == s.messages[..t.taken];
    ConcatConcat(s.messages[..s.taken], s.messages[s.taken..]);
    assert t.messages[t.taken..] == [];
  }

  lemma TraceSnoc(trace: seq<Piece>, p: Piece)
    ensures Accounted(trace + [p]) == Accounted(trace) + p.OfLog()
    ensures Output(trace + [p]) == Output(trace) + p.OfFile()
  {
    assert (trace + [p])[..|trace|] == trace;
  }

  lemma BeginConserves(s: State, notice: seq<char>)
    requires s.PastConserved() && s.Supplied() && s.phase == Swapped
    ensures s.Begun(notice).PastConserved()
  {
    hide Data, Concat, Accounted, Output;
    EmptyData();
    var t := s.Begun(notice);
    if |s.toWrite| > 25 {
      TraceSnoc(s.trace, Notice(notice));
      assert Accounted(t.trace) == Accounted(s.trace);
      DataConcat(s.toWrite[..2], s.toWrite[2..]);
      assert s.toWrite[..2] + s.toWrite[2..] == s.toWrite == s.toWrite[s.written..];
      assert t.toWrite[t.written..] == s.toWrite[..2];
      assert Data(s.toWrite) + s.excess == Data(s.toWrite[..2]) + t.excess;
    }
  }

  lemma WriteConserves(s: State)
    requires s.PastConserved() && s.phase == Writing && s.written < |s.toWrite|
    ensures s.WroteOne().PastConserved()
  {
    hide Data, Concat, Accounted, Output;
    EmptyData();
    var t := s.WroteOne();
    var b := s.toWrite[s.written];
    TraceSnoc(s.trace, Written(b.data));
    var left := t.toWrite[t.written..];
    assert s.toWrite[s.written..] == [b] + left;
    DataConcat([b], left);
    DataSnoc([], b);
    assert [] + [b] == [b];
    assert Data(s.toWrite[s.written..]) + s.excess == b.data + (Data(left) + s.excess);
    Associate(Accounted(s.trace), b.data, Data(left) + s.excess);
  }

  lemma RecycleConserves(s: State)
    requires s.PastConserved() && s.Supplied() && s.phase == Writing && s.written == |s.toWrite|
    ensures s.Recycled().PastConserved()
  {
    hide Data, Concat, Accounted, Output;
    EmptyData();
    var t := s.Recycled();
    assert s.toWrite[s.written..] == t.toWrite[t.written..] == [];
    TraceSnoc(s.trace, Dropped(s.excess));
    assert Data([]) + s.excess == s.excess;
    assert Accounted(t.trace) == Accounted(s.trace) + s.excess;
    assert Accounted(t.trace) + (Data([]) + []) == Accounted(t.trace);
  }

  lemma AppendOwns(s: State, line: seq<char>)
    requires s.OwnedOnce() && s.Supplied()
    ensures s.Appended(line).OwnedOnce()
  {
    hide Count;
    var t := s.Appended(line);
    forall id: nat ensures t.Owners(id) <= 1 && (t.Owners(id) > 0 ==> id < t.nextId) {
      CountSnoc(s.buffers, s.current.value, id);
      assert s.Owners(id) <= 1 && (s.Owners(id) > 0 ==> id < s.nextId);
    }
  }

  lemma SwapOwns(s: State)
    requires s.OwnedOnce() && s.Supplied() && s.phase == AtTop
    ensures s.SwappedOut().OwnedOnce()
  {
    hide Count;
    var t := s.SwappedOut();
    forall id: nat ensures t.Owners(id) <= 1 && (t.Owners(id) > 0 ==> id < t.nextId) {
      CountSnoc(s.buffers, s.current.value, id);
      assert s.Owners(id) <= 1 && (s.Owners(id) > 0 ==> id < s.nextId);
    }
  }

  lemma BeginOwns(s: State, notice: seq<char>)
    requires s.OwnedOnce() && s.phase == Swapped
    ensures s.Begun(notice).OwnedOnce()
  {
    var t := s.Begun(notice);
    forall id: nat ensures t.Owners(id) <= 1 && (t.Owners(id) > 0 ==> id < t.nextId) {
      if |s.toWrite| > 25 {
        CountPrefix(s.toWrite, 2, id);
      }
      assert s.Owners(id) <= 1 && (s.Owners(id) > 0 ==> id < s.nextId);
    }
  }

  lemma RecycleOwns(s: State)
    requires s.OwnedOnce() && s.Supplied() && s.phase == Writing && s.written == |s.toWrite|
    ensures s.Recycled().OwnedOnce()
  {
    var t := s.Recycled();
    var batch := if |s.toWrite| > 2 then s.toWrite[..2] else s.toWrite;
    forall id: nat ensures t.Owners(id) <= 1 && (t.Owners(id) > 0 ==> id < t.nextId) {
      if |s.toWrite| > 2 {
        CountPrefix(s.toWrite, 2, id);
      }
      assert Count(batch, id) <= Count(s.toWrite, id);
      assert s.Owners(id) <= 1 && (s.Owners(id) > 0 ==> id < s.nextId);
    }
  }

  // ----- runs

  datatype Step = DoAppend(line: seq<char>) | Backend(notice: seq<char>) | Stop

  /** The next step of whichever thread moves; the backend's depends on where it is. */
  function Next(s: State, step: Step): State
    requires s.Valid()
  {
    match step
    case DoAppend(line) => s.Appended(line)
    case Stop => s.(running := false)
    case Backend(notice) =>
      match s.phase
      case AtTop => if s.running then s.SwappedOut() else s.(phase := Exited)
      case Swapped => s.Begun(notice)
      case Writing => if s.written < |s.toWrite| then s.WroteOne() else s.Recycled()
      case Exited => s
  }

  lemma StepKeepsValid(s: State, step: Step)
    requires s.Valid()
    ensures Next(s, step).Valid()
  {
    hide Data, Concat, Accounted, Output, Count;
    match step
    case DoAppend(line) =>
      AppendKeepsPast(s, line);
      AppendConserves(s, line);
      AppendOwns(s, line);
    case Stop =>
      assert forall id: nat :: Next(s, step).Owners(id) == s.Owners(id);
    case Backend(notice) =>
      BackendKeepsValid(s, notice);
  }

  lemma BackendKeepsValid(s: State, notice: seq<char>)
    requires s.Valid()
    ensures Next(s, Backend(notice)).Valid()
  {
    hide Data, Concat, Accounted, Output, Count;
    match s.phase
    case AtTop =>
      if s.running {
        SwapConserves(s);
        SwapOwns(s);
      } else {
        assert forall id: nat :: Next(s, Backend(notice)).Owners(id) == s.Owners(id);
      }
    case Swapped =>
      BeginConserves(s, notice);
      BeginOwns(s, notice);
    case Writing =>
      if s.written < |s.toWrite| {
        WriteConserves(s);
        assert forall id: nat :: s.WroteOne().Owners(id) == s.Owners(id);
      } else {
        RecycleConserves(s);
        RecycleOwns(s);
      }
    case Exited =>
  }

  const INITIAL: State :=
    State(Some(Buffer(0, [])), Some(Buffer(1, [])), [], Some(Buffer(2, [])), Some(Buffer(3, [])), [], 0,
          AtTop, true, [], 4, [], 0, [], [])

  lemma InitialIsValid()
    ensures INITIAL.Valid()
  {
    assert INITIAL.messages[..0] == INITIAL.messages[0..] == [];
    assert INITIAL.toWrite[0..] == [];
  }

  /** The state after a sequence of steps; it is valid, whatever the interleaving. */
  ghost function Run(steps: seq<Step>): (s: State)
    ensures s.Valid()
  {
    InitialIsValid();
    if steps == [] then INITIAL
    else
      var s := Run(steps[..|steps| - 1]);
      StepKeepsValid(s, steps[|steps| - 1]);
      Next(s, steps[|steps| - 1])
  }

  /** The lines that are appended in the course of the steps and are short enough to be kept. */
  function Accepted(steps: seq<Step>): seq<seq<char>> {
    if steps == [] then []
    else
      var before, step := Accepted(steps[..|steps| - 1]), steps[|steps| - 1];
      if step.DoAppend? && |step.line| < LARGE_BUFFER then before + [step.line] else before
  }

  lemma {:induction false} MessagesAreAccepted(steps: seq<Step>)
    ensures Run(steps).messages == Accepted(steps)
  {
    hide State.PastConserved, State.RestConserved, State.OwnedOnce;
    if steps != [] {
      MessagesAreAccepted(steps[..|steps| - 1]);
      var s, step := Run(steps[..|steps| - 1]), steps[|steps| - 1];
      assert step.DoAppend? ==> Next(s, step).messages == if |step.line| < LARGE_BUFFER then s.messages + [step.line] else s.messages;
      assert !step.DoAppend? ==> Next(s, step).messages == s.messages;
    }
  }

  /**
   In every run, what the trace accounts for, what is being written or about to be dropped, and what is in the
   buffers is, in this order, exactly what was appended; the file holds what the trace says was written; and the
   trace is that of the batches taken, so that only the later buffers of a long batch are dropped.
   */
  lemma NothingLostOrReordered(steps: seq<Step>)
    ensures var s := Run(steps);
            && s.current.Some?
            && Accounted(s.trace) + (Data(s.toWrite[s.written..]) + s.excess) + (Data(s.buffers) + s.current.value.data) == Concat(Accepted(steps))
            && s.output == Output(s.trace) && TraceRight(s, BatchesOf(steps))
  {
    OverloadRule(steps);
    hide TraceRight, BatchesOf;
    hide Data, Concat, Accounted, Output, Accepted, Count;
    var s := Run(steps);
    MessagesAreAccepted(steps);
    ConcatConcat(s.messages[..s.taken], s.messages[s.taken..]);
    assert s.messages == s.messages[..s.taken] + s.messages[s.taken..];
  }

  /** When the backend has stopped, what is not in the trace is exactly what was appended after its last swap. */
  lemma UnwrittenAtStop(steps: seq<Step>)
    requires Run(steps).phase == Exited
    ensures var s := Run(steps);
            && s.taken <= |Accepted(steps)|
            && Accounted(s.trace) == Concat(Accepted(steps)[..s.taken])
            && Data(s.buffers) + s.current.value.data == Concat(Accepted(steps)[s.taken..])
  {
    var s := Run(steps);
    MessagesAreAccepted(steps);
    assert s.toWrite[s.written..] == [];
    assert Accounted(s.trace) + (Data([]) + []) == Accounted(s.trace);
  }

  // ----- the overload rule

  function WrittenPieces(buffers: seq<Buffer>): seq<Piece> {
    if buffers == [] then [] else WrittenPieces(buffers[..|buffers| - 1]) + [Written(buffers[|buffers| - 1].data)]
  }

  /** What becomes of a batch: written whole, or, if it has more than 25 buffers, a notice and its first two. */
  function BatchTrace(batch: seq<Buffer>, notice: seq<char>): seq<Piece> {
    if |batch| <= 25 then WrittenPieces(batch)
    else [Notice(notice)] + WrittenPieces(batch[..2]) + if Data(batch[2..]) != [] then [Dropped(Data(batch[2..]))] else []
  }

  /** How much of that is in the trace when `written` buffers have been written. */
  function PartTrace(batch: seq<Buffer>, notice: seq<char>, written: nat): seq<Piece>
    requires written <= |Kept(batch)|
  {
    (if |batch| <= 25 then [] else [Notice(notice)]) + WrittenPieces(Kept(batch)[..written])
  }

  /** The buffers of a batch that are written. */
  function Kept(batch: seq<Buffer>): seq<Buffer> {
    if |batch| <= 25 then batch else batch[..2]
  }

  /** A batch as it was taken away, and the notice that would go to the file for it. */
  datatype Batch = Batch(buffers: seq<Buffer>, notice: seq<char>)

  /** The batches of a run: those that are done with, in order, and the one that was taken last. */
  datatype Batches = Batches(finished: seq<Batch>, last: Batch)

  ghost function NextBatches(b: Batches, s: State, step: Step): Batches
    requires s.Valid()
  {
    if !step.Backend? then b
    else
      match s.phase
      case AtTop => if s.running then b.(last := Batch(s.SwappedOut().toWrite, [])) else b
      case Swapped => b.(last := b.last.(notice := step.notice))
      case Writing => if s.written < |s.toWrite| then b else b.(finished := b.finished + [b.last])
      case Exited => b
  }

  ghost function BatchesOf(steps: seq<Step>): Batches {
    if steps == [] then Batches([], Batch([], []))
    else NextBatches(BatchesOf(steps[..|steps| - 1]), Run(steps[..|steps| - 1]), steps[|steps| - 1])
  }

  function Traces(batches: seq<Batch>): seq<Piece> {
    if batches == [] then []
    else
      var last := batches[|batches| - 1];
      Traces(batches[..|batches| - 1]) + BatchTrace(last.buffers, last.notice)
  }

  /** The trace of a state is that of the batches, given what has become of the last one. */
  ghost predicate TraceRight(s: State, b: Batches) {
    match s.phase
    case Swapped => s.toWrite == b.last.buffers && s.trace == Traces(b.finished)
    case Writing =>
      && s.toWrite == Kept(b.last.buffers) && s.written <= |s.toWrite|
      && s.excess == (if |b.last.buffers| <= 25 then [] else Data(b.last.buffers[2..]))
      && s.trace == Traces(b.finished) + PartTrace(b.last.buffers, b.last.notice, s.written)
    case _ => s.trace == Traces(b.finished)
  }

  lemma WroteOneTrace(s: State, b: Batches)
    requires s.phase == Writing && TraceRight(s, b) && s.written < |s.toWrite|
    ensures TraceRight(s.WroteOne(), b)
  {
    var kept := Kept(b.last.buffers);
    assert kept[..s.written + 1][..s.written] == kept[..s.written];
  }

  lemma TracesSnoc(batches: seq<Batch>, b: Batch)
    ensures Traces(batches + [b]) == Traces(batches) + BatchTrace(b.buffers, b.notice)
  {
    assert (batches + [b])[..|batches|] == batches;
  }

  /** A batch whose buffers have all been written has its whole trace, but for what was dropped. */
  lemma PartIsWhole(b: Batch)
    ensures var dropped := if |b.buffers| <= 25 then [] else Data(b.buffers[2..]);
            BatchTrace(b.buffers, b.notice) == PartTrace(b.buffers, b.notice, |Kept(b.buffers)|) + if dropped != [] then [Dropped(dropped)] else []
  {
    hide Data, WrittenPieces;
    var kept := Kept(b.buffers);
    assert kept[..|kept|] == kept;
  }

  lemma RecycledTrace(s: State, b: Batches)
    requires s.Valid() && s.phase == Writing && TraceRight(s, b) && s.written == |s.toWrite|
    ensures TraceRight(s.Recycled(), b.(finished := b.finished + [b.last]))
  {
    hide Data, Traces, PartTrace, BatchTrace, Kept, State.PastConserved, State.RestConserved, State.OwnedOnce;
    TracesSnoc(b.finished, b.last);
    PartIsWhole(b.last);
    var t := s.Recycled();
    assert t.trace == s.trace + if s.excess != [] then [Dropped(s.excess)] else [];
    assert t.trace == Traces(b.finished) + BatchTrace(b.last.buffers, b.last.notice);
  }

  lemma BegunTrace(s: State, b: Batches, notice: seq<char>)
    requires s.Valid() && s.phase == Swapped && TraceRight(s, b)
    ensures TraceRight(s.Begun(notice), b.(last := b.last.(notice := notice)))
  {
    hide Data, State.PastConserved, State.RestConserved, State.OwnedOnce;
    assert Kept(s.toWrite)[..0] == [];
  }

  lemma StepKeepsTrace(s: State, b: Batches, step: Step)
    requires s.Valid() && TraceRight(s, b)
    ensures TraceRight(Next(s, step), NextBatches(b, s, step))
  {
    hide Data, Kept, Traces, PartTrace, State.PastConserved, State.RestConserved, State.OwnedOnce;
    if step.Backend? {
      match s.phase
      case AtTop =>
      case Swapped => BegunTrace(s, b, step.notice);
      case Writing =>
        if s.written < |s.toWrite| {
          WroteOneTrace(s, b);
        } else {
          RecycledTrace(s, b);
        }
      case Exited =>
    }
  }

  /** For every interleaving, the trace is that of the batches taken, each whole or cut down according to its size. */
  lemma {:induction false} OverloadRule(steps: seq<Step>)
    ensures TraceRight(Run(steps), BatchesOf(steps))
  {
    hide State.Valid, Next, NextBatches;
    if steps != [] {
      var front := steps[..|steps| - 1];
      OverloadRule(front);
      hide TraceRight;
      StepKeepsTrace(Run(front), BatchesOf(front), steps[|steps| - 1]);
    }
  }

  // ----- what the rule comes to

  lemma {:induction false} PiecesInFull(buffers: seq<Buffer>)
    ensures Output(WrittenPieces(buffers)) == Accounted(WrittenPieces(buffers)) == Data(buffers)
  {
    if buffers != [] {
      var front, pieces := buffers[..|buffers| - 1], WrittenPieces(buffers);
      PiecesInFull(front);
      assert pieces[..|pieces| - 1] == WrittenPieces(front);
    }
  }

  lemma {:induction false} OutputConcat(a: seq<Piece>, b: seq<Piece>)
    ensures Output(a + b) == Output(a) + Output(b)
    decreases |b|
  {
    if b == [] {
      assert a + b == a && Output(b) == [];
    } else {
      var front, last := b[..|b| - 1], b[|b| - 1];
      OutputConcat(a, front);
      hide Output, Piece.OfFile;
      SplitLast(a, b);
      TraceSnoc(a + front, last);
      TraceSnoc(front, last);
      Associate(Output(a), Output(front), last.OfFile());
    }
  }

  lemma {:induction false} AccountedConcat(a: seq<Piece>, b: seq<Piece>)
    ensures Accounted(a + b) == Accounted(a) + Accounted(b)
    decreases |b|
  {
    if b == [] {
      assert a + b == a && Accounted(b) == [];
    } else {
      var front, last := b[..|b| - 1], b[|b| - 1];
      AccountedConcat(a, front);
      hide Accounted, Piece.OfLog;
      SplitLast(a, b);
      TraceSnoc(a + front, last);
      TraceSnoc(front, last);
      Associate(Accounted(a), Accounted(front), last.OfLog());
    }
  }

  /** What a batch leaves in the file: all of it, or the notice and its first two buffers. */
  function FileOf(b: Batch): seq<char> {
    (if |b.buffers| <= 25 then [] else b.notice) + Data(Kept(b.buffers))
  }

  function FileOfAll(batches: seq<Batch>): seq<char> {
    if batches == [] then [] else FileOfAll(batches[..|batches| - 1]) + FileOf(batches[|batches| - 1])
  }

  lemma OutputOfPart(b: Batch, written: nat)
    requires written <= |Kept(b.buffers)|
    ensures Output(PartTrace(b.buffers, b.notice, written)) == (if |b.buffers| <= 25 then [] else b.notice) + Data(Kept(b.buffers)[..written])
  {
    var mark := if |b.buffers| <= 25 then [] else [Notice(b.notice)];
    OutputConcat(mark, WrittenPieces(Kept(b.buffers)[..written]));
    PiecesInFull(Kept(b.buffers)[..written]);
    assert Output(mark) == if |b.buffers| <= 25 then [] else b.notice by {
      assert mark != [] ==> mark[..0] == [];
    }
  }

  lemma OutputOfOne(p: Piece)
    ensures Output([p]) == p.OfFile() && Accounted([p]) == p.OfLog()
  {
    TraceSnoc([], p);
    assert [] + [p] == [p];
  }

  /** A batch is accounted for in full; a long one reaches the file as a notice and its first two buffers. */
  lemma OutputOfBatch(b: Batch)
    ensures Output(BatchTrace(b.buffers, b.notice)) == FileOf(b)
    ensures Accounted(BatchTrace(b.buffers, b.notice)) == Data(b.buffers)
  {
    PiecesInFull(Kept(b.buffers));
    if |b.buffers| <= 25 {
      assert [] + Data(b.buffers) == Data(b.buffers);
    } else {
      OutputOfLong(b);
    }
  }

  lemma OutputOfLong(b: Batch)
    requires |b.buffers| > 25
    ensures Output(BatchTrace(b.buffers, b.notice)) == b.notice + Data(b.buffers[..2])
    ensures Accounted(BatchTrace(b.buffers, b.notice)) == Data(b.buffers)
  {
    hide Output, Accounted, Data, WrittenPieces;
    var first, lost := b.buffers[..2], Data(b.buffers[2..]);
    var written := [Notice(b.notice)] + WrittenPieces(first);
    OutputConcat([Notice(b.notice)], WrittenPieces(first));
    AccountedConcat([Notice(b.notice)], WrittenPieces(first));
    OutputOfOne(Notice(b.notice));
    PiecesInFull(first);
    assert Output(written) == b.notice + Data(first);
    assert Accounted(written) == [] + Data(first) == Data(first);
    DataSplit(b.buffers);
    if lost == [] {
      assert BatchTrace(b.buffers, b.notice) == written + [] == written;
      assert Data(first) + lost == Data(first);
    } else {
      assert BatchTrace(b.buffers, b.notice) == written + [Dropped(lost)];
      OutputConcat(written, [Dropped(lost)]);
      AccountedConcat(written, [Dropped(lost)]);
      OutputOfOne(Dropped(lost));
      assert Output(written) + [] == Output(written);
    }
  }

  lemma DataSplit(buffers: seq<Buffer>)
    requires |buffers| >= 2
    ensures Data(buffers) == Data(buffers[..2]) + Data(buffers[2..])
  {
    assert buffers == buffers[..2] + buffers[2..];
    DataConcat(buffers[..2], buffers[2..]);
  }

  lemma {:induction false} OutputOfTraces(batches: seq<Batch>)
    ensures Output(Traces(batches)) == FileOfAll(batches)
  {
    if batches != [] {
      var front, last := batches[..|batches| - 1], batches[|batches| - 1];
      OutputOfTraces(front);
      OutputConcat(Traces(front), BatchTrace(last.buffers, last.notice));
      OutputOfBatch(last);
    }
  }

  /**
   For every interleaving, the file holds the batches in order, each whole or, if it had more than 25 buffers, as a
   notice and its first two; then what has been written so far of the batch that the backend is writing.
   */
  lemma FileOfRun(steps: seq<Step>)
    ensures var s, b := Run(steps), BatchesOf(steps);
            && (s.phase == Writing ==> s.written <= |Kept(b.last.buffers)|)
            && s.output == FileOfAll(b.finished) +
                 if s.phase != Writing then []
                 else (if |b.last.buffers| <= 25 then [] else b.last.notice) + Data(Kept(b.last.buffers)[..s.written])
  {
    var s, b := Run(steps), BatchesOf(steps);
    OverloadRule(steps);
    OutputOfTraces(b.finished);
    hide Output, Data, FileOfAll, Traces, Kept;
    if s.phase == Writing {
      OutputConcat(Traces(b.finished), PartTrace(b.last.buffers, b.last.notice, s.written));
      OutputOfPart(b.last, s.written);
    }
  }

  // ----- without overload

  predicate Small(b: Batches) {
    |b.last.buffers| <= 25 && forall i :: 0 <= i < |b.finished| ==> |b.finished[i].buffers| <= 25
  }

  predicate AllWritten(trace: seq<Piece>) {
    forall i :: 0 <= i < |trace| ==> trace[i].Written?
  }

  lemma {:induction false} WrittenInFull(trace: seq<Piece>)
    requires AllWritten(trace)
    ensures Output(trace) == Accounted(trace)
  {
    if trace != [] {
      WrittenInFull(trace[..|trace| - 1]);
    }
  }

  lemma {:induction false} PiecesAreWritten(buffers: seq<Buffer>)
    ensures AllWritten(WrittenPieces(buffers))
  {
    if buffers != [] {
      PiecesAreWritten(buffers[..|buffers| - 1]);
    }
  }

  lemma {:induction false} SmallIsWritten(batches: seq<Batch>)
    requires forall i :: 0 <= i < |batches| ==> |batches[i].buffers| <= 25
    ensures AllWritten(Traces(batches))
  {
    if batches != [] {
      SmallIsWritten(batches[..|batches| - 1]);
      PiecesAreWritten(batches[|batches| - 1].buffers);
    }
  }

  lemma SmallTraceIsWritten(s: State, b: Batches)
    requires TraceRight(s, b) && Small(b)
    ensures AllWritten(s.trace)
  {
    hide Traces, WrittenPieces, Data;
    SmallIsWritten(b.finished);
    if s.phase == Writing {
      PiecesAreWritten(Kept(b.last.buffers)[..s.written]);
    }
  }

  /** As long as no swap has taken more than 25 buffers, the file is a prefix of what was appended. */
  lemma FileIsPrefix(steps: seq<Step>)
    requires Small(BatchesOf(steps))
    ensures Run(steps).output <= Concat(Accepted(steps))
  {
    hide *;
    OverloadRule(steps);
    SmallTraceIsWritten(Run(steps), BatchesOf(steps));
    NothingLostOrReordered(steps);
    WrittenInFull(Run(steps).trace);
  }

  // ----- what each step is for

  /** A line goes into the current buffer if it fits with a byte to spare; only if not, that buffer is given up for the next one. */
  lemma AppendFills(s: State, line: seq<char>)
    requires s.current.Some? && s.Supplied()
    ensures var t := s.Appended(line);
            if |s.current.value.data| + |line| < 4000 * 1000 then
              t.current == Some(s.current.value.(data := s.current.value.data + line)) && t.buffers == s.buffers && t.next == s.next
            else
              && t.buffers == s.buffers + [s.current.value] && t.next == None
              && t.current.Some? && t.current.value.data == (if |line| < 4000 * 1000 then line else [])
  {
  }

  /** Whenever a running backend is at the top of its loop it takes all there is, full buffers or not; once stopped it exits. */
  lemma SwapTakesAll(s: State, notice: seq<char>)
    requires s.Valid() && s.phase == AtTop
    ensures var t := Next(s, Backend(notice));
            if s.running then
              && t.phase == Swapped && t.taken == |s.messages| && t.buffers == []
              && t.toWrite == s.buffers + [s.current.value] && t.current.Some? && t.current.value.data == []
            else t.phase == Exited && t == s.(phase := Exited)
  {
  }

  /** The backend runs until it is told to stop. */
  lemma RunsUntilStopped(s: State, step: Step)
    requires s.Valid()
    ensures Next(s, step).running <==> s.running && step != Stop
    ensures s.phase != Exited && Next(s, step).phase == Exited ==> !s.running && s.phase == AtTop
  {
    hide Data, Concat, Accounted, Output, Count, State.PastConserved, State.RestConserved, State.OwnedOnce;
  }

  lemma StepKeepsTaken(s: State, step: Step)
    requires s.Valid()
    ensures s.taken <= Next(s, step).taken
  {
    hide Data, Concat, Accounted, Output, Count, State.RestConserved, State.OwnedOnce;
  }

  lemma {:induction false} TakenGrows(steps: seq<Step>, k: nat)
    requires k <= |steps|
    ensures Run(steps[..k]).taken <= Run(steps).taken
    decreases |steps|
  {
    hide State.Valid, Next;
    if k == |steps| {
      assert steps[..k] == steps;
    } else {
      var front := steps[..|steps| - 1];
      assert front[..k] == steps[..k];
      TakenGrows(front, k);
      StepKeepsTaken(Run(front), steps[|steps| - 1]);
    }
  }

  lemma {:induction false} AcceptedGrows(steps: seq<Step>, k: nat)
    requires k <= |steps|
    ensures Accepted(steps[..k]) <= Accepted(steps)
    decreases |steps|
  {
    if k == |steps| {
      assert steps[..k] == steps;
    } else {
      var front := steps[..|steps| - 1];
      assert front[..k] == steps[..k];
      AcceptedGrows(front, k);
    }
  }

  /** After a whole cycle of a running backend, all that was appended before its swap is written, or accounted for as dropped. */
  lemma CycleAccountsForAll(steps: seq<Step>, k: nat)
    requires k < |steps| && steps[k].Backend? && Run(steps[..k]).phase == AtTop && Run(steps[..k]).running
    requires Run(steps).phase == AtTop || Run(steps).phase == Exited
    ensures Concat(Accepted(steps[..k])) <= Accounted(Run(steps).trace)
  {
    hide *;
    var s := Run(steps);
    TakenAtSwap(steps, k);
    TakenGrows(steps, k + 1);
    MessagesAreAccepted(steps);
    AcceptedGrows(steps, k);
    AccountedAtTop(s);
    assert Accepted(steps[..k]) <= s.messages[..s.taken];
    ConcatOfPrefix(Accepted(steps[..k]), s.messages[..s.taken]);
  }

  lemma TakenAtSwap(steps: seq<Step>, k: nat)
    requires k < |steps| && steps[k].Backend? && Run(steps[..k]).phase == AtTop && Run(steps[..k]).running
    ensures Run(steps[..k + 1]).taken == |Accepted(steps[..k])|
  {
    assert steps[..k + 1][..k] == steps[..k] && steps[..k + 1][k] == steps[k];
    MessagesAreAccepted(steps[..k]);
    SwapTakesAll(Run(steps[..k]), steps[k].notice);
    hide Accepted, Next, State.Valid;
  }

  lemma ConcatOfPrefix(a: seq<seq<char>>, b: seq<seq<char>>)
    requires a <= b
    ensures Concat(a) <= Concat(b)
  {
    hide Concat;
    assert b == a + b[|a|..];
    ConcatConcat(a, b[|a|..]);
  }

  lemma AccountedAtTop(s: State)
    requires s.Valid() && (s.phase == AtTop || s.phase == Exited)
    ensures s.taken <= |s.messages| && Accounted(s.trace) == Concat(s.messages[..s.taken])
  {
    EmptyData();
    hide Data, Concat, Accounted, Output, Count, State.RestConserved, State.OwnedOnce;
    assert s.toWrite[s.written..] == [];
    assert Accounted(s.trace) + ([] + []) == Accounted(s.trace);
  }

  // ----- the backend's work on its own

  function WroteRest(s: State): (t: State)
    requires s.phase == Writing && s.written <= |s.toWrite|
    ensures t.written == |t.toWrite| && t.toWrite == s.toWrite && t.phase == Writing
    ensures t.newBuffer1 == s.newBuffer1 && t.newBuffer2 == s.newBuffer2 && t.excess == s.excess
    decreases |s.toWrite| - s.written
  {
    if s.written == |s.toWrite| then s else WroteRest(s.WroteOne())
  }

  lemma {:induction false} TraceOfRest(s: State, before: seq<Piece>)
    requires s.phase == Writing && s.written <= |s.toWrite| && s.trace == before + WrittenPieces(s.toWrite[..s.written])
    ensures WroteRest(s).trace == before + WrittenPieces(s.toWrite)
    decreases |s.toWrite| - s.written
  {
    if s.written == |s.toWrite| {
      assert s.toWrite[..s.written] == s.toWrite;
    } else {
      assert s.toWrite[..s.written + 1][..s.written] == s.toWrite[..s.written];
      TraceOfRest(s.WroteOne(), before);
    }
  }

  /** The backend's work on a batch, from the swap to the top of its loop, has exactly that effect. */
  lemma WholeBatch(s: State, notice: seq<char>)
    requires s.Valid() && s.phase == Swapped
    ensures var t := WroteRest(s.Begun(notice)).Recycled();
            && t.trace == s.trace + BatchTrace(s.toWrite, notice)
            && t.newBuffer1.Some? && t.newBuffer1.value.data == [] && t.newBuffer2.Some? && t.newBuffer2.value.data == []
            && t.phase == AtTop
  {
    hide Data, Concat, Accounted, Output, Count, State.PastConserved, State.RestConserved, State.OwnedOnce;
    var b := s.Begun(notice);
    assert b.toWrite[..b.written] == [] && WrittenPieces([]) == [];
    TraceOfRest(b, b.trace);
    var t := WroteRest(b);
    assert t.trace == b.trace + WrittenPieces(b.toWrite);
    assert t.Recycled().trace == if b.excess != [] then t.trace + [Dropped(b.excess)] else t.trace;
  }

  // ----- the object

  /** The local variables of the backend's thread, and what is known of the run so far. */
  datatype Locals = Locals(newBuffer1: Option<Buffer>, newBuffer2: Option<Buffer>, toWrite: seq<Buffer>, written: nat,
                           phase: Phase, output: seq<char>)
  datatype History = History(messages: seq<seq<char>>, taken: nat, trace: seq<Piece>, excess: seq<char>)

  class AsyncLogging {
    var current: Option<Buffer>
    var next: Option<Buffer>
    var buffers: seq<Buffer>
    var running: bool
    var nextId: nat
    var backend: Locals
    ghost var history: History

    ghost function View(): State
      reads this
    {
      State(current, next, buffers, backend.newBuffer1, backend.newBuffer2, backend.toWrite, backend.written, backend.phase,
            running, backend.output, nextId, history.messages, history.taken, history.trace, history.excess)
    }

    constructor ()
      ensures View() == INITIAL
    {
      current, next, buffers, running, nextId := Some(Buffer(0, [])), Some(Buffer(1, [])), [], true, 4;
      backend := Locals(Some(Buffer(2, [])), Some(Buffer(3, [])), [], 0, AtTop, []);
      history := History([], 0, [], []);
    }

    method Append(line: seq<char>)
      requires current.Some?
      modifies `current, `next, `buffers, `nextId, `history
      ensures View() == old(View()).Appended(line)
    {
      if current.value.Avail() > |line| {
        current := Some(current.value.Append(line));
      } else {
        buffers := buffers + [current.value];
        if next.Some? {
          current, next := next, None;
        } else {
          current, nextId := Some(Buffer(nextId, [])), nextId + 1;
        }
        current := Some(current.value.Append(line));
      }
      history := history.(messages := if |line| < LARGE_BUFFER then history.messages + [line] else history.messages);
    }

    /** The backend's critical section. */
    method TakeBuffers()
      requires current.Some? && backend.phase == AtTop
      modifies `current, `next, `buffers, `backend, `history
      ensures View() == old(View()).SwappedOut()
    {
      buffers := buffers + [current.value];
      current := backend.newBuffer1;
      backend := backend.(newBuffer1 := None, toWrite := buffers, written := 0, phase := Swapped);
      buffers := [];
      if next.None? {
        next := backend.newBuffer2;
        backend := backend.(newBuffer2 := None);
      }
      history := history.(taken := |history.messages|);
    }

    /** The rest of a turn of the backend's loop. */
    method WriteBatch(notice: seq<char>)
      requires View().Supplied() && backend.phase == Swapped
      modifies `backend, `history
      ensures View() == WroteRest(old(View()).Begun(notice)).Recycled()
    {
      hide Data, Concat, Accounted, Output, Count;
      ghost var s := View().Begun(notice);
      var batch, file := backend.toWrite, backend.output;
      if |batch| > 25 {
        file := file + notice;
        batch := batch[..2];
      }
      file := WriteAll(s, batch, file);
      s := WroteRest(s);
      var spare1, spare2 := Refill(backend.newBuffer2, batch);
      backend := Locals(Some(spare1), Some(spare2), [], 0, AtTop, file);
      history := history.(trace := s.Recycled().trace, excess := []);
    }
  }

  /** The loop that writes a batch to the file. */
  method WriteAll(ghost s: State, batch: seq<Buffer>, file: seq<char>) returns (output: seq<char>)
    requires s.phase == Writing && s.toWrite == batch && s.written == 0 && s.output == file
    ensures WroteRest(s) == s.(written := |batch|, output := output, trace := WroteRest(s).trace)
  {
    output := file;
    ghost var t := s;
    for i := 0 to |batch|
      invariant t == s.(written := i, output := output, trace := t.trace)
      invariant WroteRest(t) == WroteRest(s)
    {
      output := output + batch[i].data;
      t := t.WroteOne();
    }
  }

  /** The spares come from the written batch, each from a different buffer of it. */
  method Refill(newBuffer2: Option<Buffer>, toWrite: seq<Buffer>) returns (spare1: Buffer, spare2: Buffer)
    requires toWrite != [] && (newBuffer2.None? ==> |toWrite| >= 2)
    ensures spare1 == toWrite[if |toWrite| >= 2 then 1 else 0].(data := [])
    ensures spare2 == if newBuffer2.Some? then newBuffer2.value else toWrite[0].(data := [])
  {
    var batch := if |toWrite| > 2 then toWrite[..2] else toWrite;
    spare1 := batch[|batch| - 1].(data := []);
    batch := batch[..|batch| - 1];
    if newBuffer2.Some? {
      spare2 := newBuffer2.value;
    } else {
      spare2 := batch[|batch| - 1].(data := []);
    }
  }
}
