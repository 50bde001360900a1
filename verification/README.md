# A model of the dc reactor library

The library is an event-driven TCP server framework in C++: an event loop with timers and queued functors over `poll` or `epoll`, connections with buffered output, a retrying connector, an HTTP request parser, and below that an asynchronous log, an integer formatter, a calendar and a time-zone table.
This project models its stateful and arithmetical parts in Dafny, one module per component, and proves what holds of every input, every run and every interleaving of threads.

`dafny verify dfyconfig.toml` checks everything.

## How it is modelled

- An object that the library updates in place is a class. Where its runs interleave with other threads, with callbacks or with the kernel, the same object is also a value (`View()`, `State()`) and its operations are functions on that value: each method ensures that it moves the value as its function does, and the theorems about runs are lemmas about sequences of those functions.
- A system call is a parameter that stands for its result: how many bytes a write took, which errno `connect` gave, what a read delivered, what time it is. Every result is allowed.
- A thread's work is a sequence of atomic steps: a critical section, one write to the event descriptor, a test of a connection's state together with the change it leads to. User callbacks are arbitrary sequences of calls of the interface.
- Addresses, sockets, functors and log buffers have identities, so that using one twice, or after it was deleted, would be visible.
- An assertion in the source is a precondition of the method that models it; in the machines for connections and connectors, where it depends on the run whether it holds, it sets a flag `failed`, and the condition under which the flag stays clear is proved exact.

| file | component |
|---|---|
| `Options.dfy` | optional values, shared |
| `Date.dfy`, `TimeZone.dfy`, `Arithmetic.dfy` | dc/base/date.cc, dc/base/timeZone.cc |
| `LogStream.dfy` | dc/base/logStream.cc, dc/base/logStream.h |
| `AsyncLogging.dfy` | dc/base/asyncLogging.cc |
| `Buffer.dfy` | dc/net/buffer.h, dc/net/buffer.cc |
| `Http.dfy` | dc/net/http/httpContext.cc, dc/net/http/httpRequest.h |
| `Pollers.dfy` | dc/net/poller/pollPoller.cc, dc/net/poller/epollPoller.cc |
| `TimerQueue.dfy` | dc/net/timerQueue.cc, dc/net/timer.cc |
| `EventLoop.dfy` | dc/net/eventLoop.cc |
| `TcpConnection.dfy` | dc/net/tcpConnection.cc, dc/net/channel.cc |
| `Connector.dfy` | dc/net/connector.cc |

## Where the code does not do what it promises

The model follows the code. Each of these has a lemma, or a contract, that says exactly when the promise is kept.

- A connection can be closed twice. `EpollPoller::updateChannel` adds a channel that it is not watching even if the channel has no events (dc/net/poller/epollPoller.cc:96-112), and `epoll` reports hang-ups on it all the same. So closing a connection that has stopped reading and has nothing to write makes it watched again, and a hang-up before it is destroyed runs `handleClose` a second time (`ClosedTwice`, `ClosedTwiceFromStart`). `startRead` on a connection that is down has the same effect, and so has `stopRead` with `epoll` (`ReadingWhenDown`). `SettledIffLegal` gives the exact condition.
- `connectDestroyed` handles only `kConnected` (dc/net/tcpConnection.cc:304). From the destructor of the server (dc/net/tcpServer.cc:38) it may meet `kDisconnecting`, and then fails an assertion or leaves the connection in that state (`DestroyedWhileDisconnecting`). Whatever the state, it fails an assertion of the loop (dc/net/eventLoop.cc:202-205) if the destructor is called while another channel is being handled and this one is on the list of active channels, even if it was handled before (`DestroyedWhileListed`). `SettledIffLegal` covers these too.
- `Connector::restart` while connecting, if the new attempt does not proceed, forgets the socket that is connecting without failing any assertion (`RestartLeaks`).
- A functor that the loop thread queues before `loop()` wakes nobody, and a `quit()` before it is forgotten (`QueuedBeforeStart`); `StepKeepsSound` and `QuitForgottenIffStarted` say exactly when.
- A time whose local time is repeated at the first or the last transition of a zone may be lost: neither choice of `postTransition` gives it back (`RoundTripUnlessLost`, `LostExample`).
- The assertion at dc/base/timeZone.cc:324 says the opposite of what lines 317-320 establish. The model leaves it out and proves that the search never returns the first transition (`UpperBoundIsPastBegin`), so that the assertion fails whenever it is reached and the following lines are right.
- The assertion in `getExpired` reads the entry behind the last one (dc/net/timerQueue.cc:185) if and only if the queue is empty, and holds otherwise (`PastTheEndIffEmpty`, `GetExpired`). Cancelling makes that possible (`EmptyExpiryIsReachable`). The model then goes on as if nothing had been read.
- `peekInt16`, and with it `readInt16`, copies four bytes (dc/net/buffer.h:281-282), which overruns the vector if and only if fewer are left in it (`PeekInt16`, `ReadInt16`, `PeekInt16Overruns`).
- `setMethod` does not know the name of `kHead` (dc/net/http/httpRequest.h:38-63), which `methodString` prints, so a HEAD request is refused (`MethodNames`).
- `PollPoller::removeChannel` leaves its index in the removed channel, which therefore cannot be registered again; `EpollPoller` allows it (`RemoveChannel` of the two classes).
- `parseRequest` does not return when it is entered in `kGotAll` or `kExpectBody` (dc/net/http/httpContext.cc:101-104), and returns otherwise, whatever the input (`StuckIff`, `ReturnsIff`). The method asks for one of the other two states.

## Model

The main theorems come first; the steps that they rest on, and the operations, follow by component.

| member | source | states |
|---|---|---|
| `TcpConnection.OutputConserved` | dc/net/tcpConnection.cc:133-209 | in every run, with any partial writes, errors and interleavings, the bytes taken by the kernel and those in the buffer are the messages not dropped whole, in order; while not disconnected it is writing exactly if the buffer is not empty; it is half-closed only with an empty buffer, and a shutdown that was asked for is not forgotten |
| `TcpConnection.AcceptedIsReturned` | dc/net/tcpConnection.cc:145-188 | in every run the bytes that count as taken are as many as the write calls that were made returned |
| `TcpConnection.SendTakes` | dc/net/tcpConnection.cc:145-186 | of a message offered to the kernel, the bytes it takes are taken, and exactly the rest is buffered |
| `TcpConnection.SendWaits` | dc/net/tcpConnection.cc:145-186 | a message behind others, or that cannot be written now, is buffered whole, behind what is there |
| `TcpConnection.WriteTakes` | dc/net/tcpConnection.cc:334-368 | of the buffer, exactly the bytes that the kernel takes leave it, in front; an error leaves it as it is |
| `TcpConnection.EveryMessageReaches` | dc/net/tcpConnection.cc:74-131 | in every run the messages in the queue and those that have reached sendInLoop are those of the calls of send on a connected connection, each as often |
| `TcpConnection.HalfClosesIff` | dc/net/tcpConnection.cc:190-209 | exactly which steps half-close the connection |
| `TcpConnection.SettledIffLegal` | dc/net/tcpConnection.cc:211-380 | a whole run does so throughout if and only if every step is allowed |
| `TcpConnection.ClosedOnce` | dc/net/tcpConnection.cc:370-380 | so in every run of allowed steps no assertion fails, the close callback is called at most once, however hang-up, end of input and forced close coincide, and the connection is disconnected when its channel is removed |
| `TcpConnection.ClosesIff` | dc/net/tcpConnection.cc:313-380 | a hang-up, the end of input on a channel that reads, and a forced close of a connection that is up call the close callback, once, and leave the connection down without events; no other step does |
| `TcpConnection.StateIs` | dc/net/tcpConnection.cc:190-311 | every change of the state, step by step, and that shutdown on a connected connection is remembered |
| `TcpConnection.QueueIs` | dc/net/tcpConnection.cc:74-289 | what each call puts into the queue, behind what is there, and that functions leave it in front |
| `TcpConnection.ReadingIs` | dc/net/tcpConnection.cc:262-299 | after starting, stopping or being established the channel reads or does not, and waits to write as before |
| `TcpConnection.OnlyForward` | dc/net/tcpConnection.cc:190-236 | in every run the state only moves forward, and disconnected is final |
| `TcpConnection.StepKeepsSettled` | dc/net/tcpConnection.cc:211-380 | a step keeps the connection settled (watched only while up, closed at most once, no assertion failed) if and only if it is allowed |
| `TcpConnection.FateOfMessage` | dc/net/tcpConnection.cc:133-188 | a message is given up exactly if disconnected, and dropped exactly if the buffer is empty and the peer is gone; neither leaves a byte behind |
| `TcpConnection.NoticesOfMessage` | dc/net/tcpConnection.cc:148-179 | the high-water callback is queued exactly when the buffer crosses the mark, with its new size; write-complete exactly when a direct write leaves nothing |
| `TcpConnection.NoticesOfWrite` | dc/net/tcpConnection.cc:334-368 | write-complete is queued exactly when the buffer becomes empty, all bytes are then in the kernel, and a connection that is shutting down is half-closed then |
| `TcpConnection.ClosedTwice` | dc/net/tcpConnection.cc:370-380 | with epoll, every connection closed without events of interest can be closed again by a hang-up |
| `TcpConnection.ClosedTwiceFromStart` | dc/net/tcpConnection.cc:277-289 | a connection that stops reading and is forced to close is one |
| `TcpConnection.ReadingWhenDown` | dc/net/tcpConnection.cc:262-289 | starting to read, or with epoll stopping, on a connection that is not up leads to the same failure |
| `TcpConnection.DestroyedWhileDisconnecting` | dc/net/tcpConnection.cc:301-311 | destroying a connection that is shutting down leaves it so, and fails an assertion exactly if it has events or is on the list of active channels while another channel is handled |
| `TcpConnection.DestroyedWhileListed` | dc/net/eventLoop.cc:198-207 | destroying a connection that is on the list of active channels, handled or not, while another one is handled fails the assertion |
| `TimerQueue.TimerQueue.Run` | dc/net/timerQueue.cc:131-252 | over any run of additions, cancellations and expiries with any callbacks the books stay right, no timer is stranded, and no deleted timer is run; a timer cancelled anywhere, callbacks included, is deleted, and is not run any more if it was queued, and at most once more if it was in flight |
| `TimerQueue.TimerQueue.HandleRead` | dc/net/timerQueue.cc:161-177 | runs exactly the timers that have expired, once each and in order; any timer queued before, expired or not, that a callback cancels is deleted in the end |
| `TimerQueue.TimerQueue.CancelledByCallback` | dc/net/timerQueue.cc:141-177 | a queued timer that a callback cancels is never run after that batch, at most once in it, and not at all if it has not expired |
| `TimerQueue.TimerQueue.CancelledNeverRuns` | dc/net/timerQueue.cc:141-159 | a timer cancelled while queued is not run again in any run |
| `TimerQueue.PastTheEndIffEmpty` | dc/net/timerQueue.cc:184-185 | for all queues and times, the assertion reads past the end exactly if the queue is empty, and holds otherwise |
| `TimerQueue.EmptyExpiryIsReachable` | dc/net/timerQueue.cc:179-186 | an expiry can find the queue empty, and the assertion then reads past the end |
| `AsyncLogging.NothingLostOrReordered` | dc/base/asyncLogging.cc:31-140 | for every interleaving, what was written or dropped, the rest of the batch, the full buffers and the current one are the appended lines in order; the file has what was written, and the notices; and only the buffers of a batch of more than 25 that follow the first two are dropped |
| `AsyncLogging.OverloadRule` | dc/base/asyncLogging.cc:81-136 | for every interleaving the trace is the sequence of the batches taken: each of up to 25 buffers written whole, each longer one a notice, its first two buffers, and the loss of exactly the others; then the part of the current one that is written |
| `AsyncLogging.FileOfRun` | dc/base/asyncLogging.cc:81-136 | for every interleaving, the bytes of the file, batch by batch |
| `AsyncLogging.UnwrittenAtStop` | dc/base/asyncLogging.cc:64-140 | when the backend has stopped, what is not accounted for is exactly what was appended after its last swap |
| `AsyncLogging.FileIsPrefix` | dc/base/asyncLogging.cc:64-140 | while no swap has taken more than 25 buffers, the file is a prefix of what was appended |
| `AsyncLogging.CycleAccountsForAll` | dc/base/asyncLogging.cc:75-138 | after a whole cycle of a running backend all that was appended before its swap is written or accounted for as dropped |
| `AsyncLogging.SwapTakesAll` | dc/base/asyncLogging.cc:75-94 | a running backend at the top takes all there is, full buffers or not; a stopped one exits |
| `AsyncLogging.Run` | dc/base/asyncLogging.cc:75-135 | so every reachable state satisfies the recycling assertions, with empty spares |
| `AsyncLogging.StepKeepsValid` | dc/base/asyncLogging.cc:31-140 | every step of every thread conserves the bytes, holds no buffer twice, and has the buffers that the assertions ask for |
| `EventLoop.NoLostWakeup` | dc/net/eventLoop.cc:150-160 | whenever the loop polls with a functor pending, the event descriptor is readable or the functor's producer is about to write to it; likewise for a request to quit |
| `EventLoop.RunInPushOrder` | dc/net/eventLoop.cc:241-254 | in every run each functor is run at most once, in push order, and at poll those not run are pending |
| `EventLoop.StepKeepsSound` | dc/net/eventLoop.cc:95-254 | every step keeps functors and requests to quit heard, if and only if, when `loop()` is called, the loop thread has queued nothing outside it or the event descriptor is readable |
| `EventLoop.QueuedBeforeStart` | dc/net/eventLoop.cc:95-103 | otherwise: a functor queued before the start is not heard, and a request to quit is forgotten |
| `EventLoop.QuitForgottenIffStarted` | dc/net/eventLoop.cc:95-103 | a request to quit is cleared by the start of the loop and by nothing else |
| `EventLoop.LeavesIff` | dc/net/eventLoop.cc:103-125 | the thread leaves loop() exactly at the end of a turn in which a request to quit is set |
| `EventLoop.LoopsUntilQuit` | dc/net/eventLoop.cc:103-134 | in every run without a request to quit the loop does not stop |
| `EventLoop.QuitStays` | dc/net/eventLoop.cc:103-134 | a request to quit stays, and the end of the turn then leaves the loop |
| `EventLoop.QuitSetIff` | dc/net/eventLoop.cc:127-134 | a request to quit is set by a call of quit and by nothing else |
| `EventLoop.PhaseIs` | dc/net/eventLoop.cc:95-125 | the way of the loop thread, step by step: poll, handlers, functors, and poll again or out |
| `EventLoop.PushesIff` | dc/net/eventLoop.cc:150-160 | exactly which steps queue a functor, last, and after which of them the loop is woken |
| `EventLoop.EveryFunctorCounts` | dc/net/eventLoop.cc:150-160 | in every run each functor that is queued counts among those run, swapped out or pending |
| `EventLoop.RunsAndWakes` | dc/net/eventLoop.cc:221-254 | exactly its turn runs a functor; the descriptor counts the wakeups since it was last read |
| `Connector.SocketsOwnedOnce` | dc/net/connector.cc:30-208 | in every such run each socket created is in exactly one place, once: held by the channel while connecting, closed, or handed over; and a connector that should connect is connecting, connected, about to try or has failed for good |
| `Connector.HandedOverIff` | dc/net/connector.cc:140-171 | a step hands a socket over exactly if it is an event without error on the waiting channel, while wanted; the socket is then neither held nor closed; and exactly the attempts create sockets |
| `Connector.ConnectedIsHandedOver` | dc/net/connector.cc:140-171 | in every run of allowed steps without a stop, a connector that is connected has handed over the last socket it created |
| `Connector.AttemptOutcome` | dc/net/connector.cc:66-123 | by the errno of connect: waited for, closed and tried again, or closed for good |
| `Connector.ScheduledIff` | dc/net/connector.cc:192-208 | exactly which steps schedule a retry, with which delay, and that a restart starts the delays again |
| `Connector.WantedIs` | dc/net/connector.cc:30-64 | whether a connection is wanted, and what is in the queue, after each step |
| `Connector.SoundIffLegal` | dc/net/connector.cc:30-208 | a whole run does so throughout if and only if every step is allowed |
| `Connector.StepKeepsSound` | dc/net/connector.cc:30-208 | a step keeps sockets, channel and attempts right if and only if the assertions at its start hold and it does not restart while connecting |
| `Connector.RestartLeaks` | dc/net/connector.cc:105-112 | otherwise: a restart while connecting leaks the socket without failing an assertion |
| `Connector.DelayDoubles` | dc/net/connector.cc:192-208 | in every run the delay after k retries since construction or restart is min(500 * 2^k, 30000) ms, and the i-th retry was scheduled with that of i |
| `Connector.StoppedStaysIdle` | dc/net/connector.cc:49-64 | once stopped and until started again, no socket is created or handed over and no retry is scheduled |
| `TimeZone.RoundTripUnlessLost` | dc/base/timeZone.cc:288-381 | for transitions whose windows do not meet, a time converted to local time and back is the same time for some `postTransition`, if and only if the clocks do not already show the local time of the first or last transition while it is still to come |
| `TimeZone.LostExample` | dc/base/timeZone.cc:313-381 | a zone and a time that is lost |
| `TimeZone.EarliestAndLatest` | dc/base/timeZone.cc:313-381 | a local time that is shown is converted to the earliest time that shows it, or with `postTransition` to the latest, among those not lost |
| `TimeZone.UnambiguousLocalTime` | dc/base/timeZone.cc:313-381 | a local time that is shown once is converted to the time it is shown at, for both choices |
| `TimeZone.SkippedIffInGap` | dc/base/timeZone.cc:313-381 | a local time is never shown exactly if it lies in the window of a transition to a larger offset |
| `TimeZone.SkippedConversions` | dc/base/timeZone.cc:331-354 | a skipped local time is converted with the offset before the transition to a time after it, or with `postTransition` with the offset after it to a time before it; the clocks then show it later, or earlier, by the width of the gap |
| `TimeZone.SkippedAtFirst` | dc/base/timeZone.cc:317-320 | at the first transition both choices convert a skipped local time with the offset before it |
| `TimeZone.CalendarRoundTrip` | dc/base/timeZone.cc:412-442 | the round trip of `toLocalTime` and `fromLocalTime` through the calendar, with the same exact condition |
| `TimeZone.TimeRoundTrip` | dc/base/timeZone.cc:269-286 | `fromUtcTime(BreakTime(t)) == t` for all times in range, negative and positive, and the fields are valid |
| `TimeZone.DateTimeRoundTrip` | dc/base/timeZone.cc:449-455 | conversely, a valid broken-down time is recovered field by field |
| `Http.ChunkingIsIrrelevant` | dc/net/http/httpContext.cc:51-107 | so does parsing any number of pieces |
| `Http.ParseInTwo` | dc/net/http/httpContext.cc:51-107 | parsing a part and then the rest gives the verdict, state, request and bytes of parsing all at once; after the end, what follows is left untouched |
| `Http.ReturnsIff` | dc/net/http/httpContext.cc:51-107 | the loop returns if and only if it is entered in one of those two, for every request and input |
| `Http.StuckIff` | dc/net/http/httpContext.cc:55-105 | a turn of the loop changes nothing exactly in the states for a body and for the end |
| `Http.TurnsParse` | dc/net/http/httpContext.cc:55-105 | in the other two the turns end, and come to the outcome of the specification |
| `Http.RequestLineAccepts` | dc/net/http/httpContext.cc:7-48 | accepted are exactly the lines of a known method, a target without spaces, and HTTP/1.0 or HTTP/1.1, separated by single spaces |
| `Http.RequestLineOf` | dc/net/http/httpContext.cc:7-48 | an accepted line sets the fields as the specification has it; `RequestLineSets` says what they are |
| `Http.RequestRoundTrip` | dc/net/http/httpContext.cc:51-107 | a request of any method but HEAD, with a path, a query and header fields, written out, is parsed back to them, and what follows it is left |
| `Http.RequestLineSets` | dc/net/http/httpContext.cc:7-48 | an accepted line sets the method and the version of those names; its target is cut at the first question mark, which begins the query, and without one is all path and leaves the query as it was |
| `Http.TargetOf` | dc/net/http/httpContext.cc:18-27 | a path without question mark and a query that begins with one are recovered from the target they make |
| `Http.OnRequestLine` | dc/net/http/httpContext.cc:57-78 | a complete request line that is accepted leads to the header fields; one that is not stops the parser and is not consumed |
| `Http.OnHeader` | dc/net/http/httpContext.cc:79-88 | a complete line with a colon sets the field before it to what follows, trimmed, and is consumed |
| `Http.OnOtherLine` | dc/net/http/httpContext.cc:89-95 | a complete line without a colon, empty or not, ends the request and is consumed |
| `Http.NoLine` | dc/net/http/httpContext.cc:59-99 | without a complete line nothing changes |
| `Http.MethodNames` | dc/net/http/httpRequest.h:38-93 | every method except HEAD is known by the name it is printed with, and no other name is known |
| `Http.HeadersRoundTrip` | dc/net/http/httpContext.cc:79-100 | header fields written out are parsed back to the same map |
| `Pollers.RunBoth` | dc/net/poller/epollPoller.cc:90-151 | given the same calls for as long as the assertions of both allow, both pollers hold the same channels and watch the same descriptors for the same events |
| `Pollers.SwapRemoveKeepsBijection` | dc/net/poller/pollPoller.cc:91-107 | so does moving the last slot into the one given up |
| `Pollers.ActiveOnce` | dc/net/poller/pollPoller.cc:109-126 | no channel is reported twice |
| `Pollers.ActiveExactly` | dc/net/poller/pollPoller.cc:109-126 | every slot with events has an entry with its channel and those events, every entry is that of a slot, and there are as many as poll counted |
| `Pollers.PollWatchesInterest` | dc/net/poller/pollPoller.cc:44-77 | the slots that are switched on are exactly the registered channels with events |
| `Pollers.EpollWatchesInterest` | dc/net/poller/epollPoller.cc:90-131 | the kernel watches, for some event, exactly the registered channels with events |
| `Date.DateRoundTrip` | dc/base/date.cc:20-42 | every valid proleptic-Gregorian date from 1 March -4800 whose day number is at most 536838867, the last that converts back without overflow, survives conversion to its day number and back, in 32-bit arithmetic |
| `Date.DayNumberRoundTrip` | dc/base/date.cc:29-42 | every day number from -32044 to the last one without overflow survives conversion to a date, which is a calendar date, and back |
| `Date.NextDayIsNextNumber` | dc/base/date.cc:20-27 | the calendar's next day has the next number, over months, leap years and centuries |
| `Date.LastYearIsExact` | dc/base/date.cc:20-27 | the last year without 32-bit overflow is exact: the following one overflows |
| `Date.LastDayNumberIsExact` | dc/base/date.cc:29-42 | 536838867 is exact: up to it every intermediate result of the conversion fits 32 bits, and after it one does not |
| `LogStream.LogStream.PutAll` | dc/base/logStream.cc:203-273 | any sequence of insertions stays in bounds and leaves what fitted, in order |
| `LogStream.DecimalRoundTrip` | dc/base/logStream.cc:28-48 | the decimal image of any integer reads back to it and is canonical, with a sign only when negative |
| `LogStream.DecimalIsUnique` | dc/base/logStream.cc:28-48 | every canonical decimal numeral is the image of the number it reads as |
| `LogStream.DecimalLength` | dc/base/logStream.cc:28-48 | at most 20 characters for every signed or unsigned 64-bit value |
| `Bytes.IntRoundTrip` | dc/net/buffer.h:213-235 | a signed integer of any width survives the trip through its bytes in network order |
| `Bytes.BytesRoundTrip` | dc/net/buffer.h:264-290 | and the bytes survive the trip through the integer |
| `Bytes.ByteAt` | dc/net/buffer.h:213-230 | byte i of n has the weight 256 to the power n - 1 - i: the first is the most significant |
| `Bytes.FirstIsMostSignificant` | dc/net/buffer.h:264-284 | conversely, the first byte read has the largest weight |
| `Buffers.Buffer.MakeSpace` | dc/net/buffer.h:346-362 | keeps the contents and makes enough room; the branch that moves the bytes always moves them down, in place, and does not grow the vector |
| `Buffers.Buffer.PeekInt16` | dc/net/buffer.h:278-284 | stays inside the vector exactly if four bytes are left in it, and then gives the 16-bit integer |
| `Buffers.PeekInt16Overruns` | dc/net/buffer.h:278-284 | a buffer with a 16-bit integer in it whose peek overruns |
| `Date.EpochDayNumber` | dc/base/date.cc:44 | 1 January 1970 has the number 2440588 |
| `TimeZone.FloorOfTrunc` | dc/base/timeZone.cc:269-280 | the adjustment of C++'s truncated quotient and remainder gives the day that contains the time, also before 1970 |
| `TimeZone.Data.AddTransition` | dc/base/timeZone.cc:43-47 | fails exactly when the local time does not exist; otherwise adds the transition, last and with its local time, and keeps every other |
| `TimeZone.UpperBoundUtc` | dc/base/timeZone.cc:297-308 | the first transition later than the given UTC time |
| `TimeZone.UpperBoundLocal` | dc/base/timeZone.cc:322-329 | the first transition later than the given local time |
| `TimeZone.UpperBoundIsPastBegin` | dc/base/timeZone.cc:317-325 | the search does not return the first transition, so stepping back from it is safe |
| `TimeZone.ConversionsRead` | dc/base/timeZone.cc:313-381 | both conversions of a local time that is shown at some time show that local time too |
| `LogStream.NumeralIsCanonical` | dc/base/logStream.cc:28-66 | a numeral has its number as value and no leading zero, in base 10 and 16 |
| `LogStream.DigitsOfTable` | dc/base/logStream.cc:22-26 | the digits are those of the table |
| `LogStream.CanonicalIsNumeral` | dc/base/logStream.cc:28-66 | it is the only canonical one |
| `LogStream.HexLength` | dc/base/logStream.cc:50-66 | at most 16 digits for every address |
| `LogStream.Reverse` | dc/base/logStream.cc:46 | reverses a part of the array in place and leaves the rest alone |
| `LogStream.WriteDigits` | dc/base/logStream.cc:31-39 | the do-while loop leaves the digits of the magnitude, last one first, also for the minimum of the type |
| `LogStream.Convert` | dc/base/logStream.cc:28-48 | leaves the decimal image and a terminator in the array, changes nothing else, and returns its length |
| `LogStream.ConvertHex` | dc/base/logStream.cc:50-66 | the same in base 16 |
| `LogStream.FixedBuffer.Append` | dc/base/logStream.h:30-37 | appends if there is a byte to spare, otherwise changes nothing |
| `LogStream.FixedBuffer.Add` | dc/base/logStream.h:47 | takes in the bytes written behind the contents |
| `LogStream.FixedBuffer.Reset` | dc/base/logStream.h:49 | empties the buffer |
| `LogStream.Inserted` | dc/base/logStream.cc:203-211 | whatever is inserted, the contents stay shorter than the buffer |
| `LogStream.LogStream.FormatInteger` | dc/base/logStream.cc:203-211 | with 48 bytes of room appends the decimal image, in bounds; otherwise changes nothing |
| `LogStream.LogStream.FormatPointer` | dc/base/logStream.cc:261-273 | the same for an address, with its prefix |
| `LogStream.WriteHexDigits` | dc/base/logStream.cc:52-60 | the do-while loop leaves the hexadecimal digits, last one first |
| `AsyncLogging.AsyncLogging.Append` | dc/base/asyncLogging.cc:31-62 | an append moves the state as its step does |
| `AsyncLogging.AsyncLogging.TakeBuffers` | dc/base/asyncLogging.cc:81-94 | the backend's critical section moves the state as its step does |
| `AsyncLogging.AsyncLogging.WriteBatch` | dc/base/asyncLogging.cc:96-136 | the rest of a turn, with its loop over the batch, is the same as the steps one by one |
| `AsyncLogging.Refill` | dc/base/asyncLogging.cc:114-133 | the spares are refilled from different buffers of the batch, emptied |
| `AsyncLogging.AppendFills` | dc/base/asyncLogging.cc:41-60 | a line goes into the current buffer if it fits with a byte to spare, and only if not into the next one |
| `AsyncLogging.RunsUntilStopped` | dc/base/asyncLogging.cc:75-76 | the backend runs until it is stopped, and exits only then and at the top of its loop |
| `AsyncLogging.MessagesAreAccepted` | dc/base/asyncLogging.cc:31-62 | the lines accounted for are those appended that are shorter than a buffer, in order |
| `AsyncLogging.WholeBatch` | dc/base/asyncLogging.cc:96-136 | the backend's turn taken as a whole, as `WriteBatch` runs it, has the effect on the trace that `OverloadRule` gives for any interleaving, and refills both spares, empty |
| `AsyncLogging.OutputOfBatch` | dc/base/asyncLogging.cc:98-112 | a batch is accounted for in full, and reaches the file whole or as the notice and its first two buffers |
| `AsyncLogging.WriteAll` | dc/base/asyncLogging.cc:109-112 | the loop over the batch is the same as writing its buffers one by one |
| `Bytes.FindCrlf` | dc/net/buffer.h:70-74 | where the first CR LF starts, or that there is none |
| `Buffers.Buffer.constructor` | dc/net/buffer.h:33-41 | an empty buffer with 8 bytes before and the asked size behind |
| `Buffers.Buffer.Retrieve` | dc/net/buffer.h:102-113 | drops the first bytes |
| `Buffers.Buffer.RetrieveAll` | dc/net/buffer.h:141-145 | drops all of them |
| `Buffers.Buffer.RetrieveAsString` | dc/net/buffer.h:152-158 | returns the first bytes and keeps the others |
| `Buffers.Buffer.EnsureWritableBytes` | dc/net/buffer.h:182-189 | enough room, the same contents; grows only if the free bytes do not suffice |
| `Buffers.Buffer.HasWritten` | dc/net/buffer.h:201-205 | takes in bytes written behind the contents |
| `Buffers.Buffer.Unwrite` | dc/net/buffer.h:207-211 | drops the last bytes |
| `Buffers.Buffer.Append` | dc/net/buffer.h:170-175 | the contents followed by the data |
| `Buffers.Buffer.Prepend` | dc/net/buffer.h:309-315 | the data followed by the contents, in place |
| `Buffers.Buffer.Shrink` | dc/net/buffer.h:317-324 | the same contents, with the asked room and 8 bytes before |
| `Buffers.Buffer.Swap` | dc/net/buffer.h:43-48 | exchanges the contents of two buffers, also of one with itself |
| `Buffers.Buffer.ReadFd` | dc/net/buffer.cc:15-43 | the contents followed by the bytes received, however they fell on the vector and the spare block; an error changes nothing |
| `Buffers.Buffer.AppendInt` | dc/net/buffer.h:213-235 | the contents followed by the integer's bytes |
| `Buffers.Buffer.PrependInt` | dc/net/buffer.h:292-308 | the integer's bytes followed by the contents |
| `Buffers.Buffer.ReadInt` | dc/net/buffer.h:236-262 | the integer of one, four or eight bytes whose bytes are in front, which are dropped |
| `Buffers.Buffer.MoveDown` | dc/net/buffer.h:355-358 | copying the bytes forward one by one, over a range that may overlap, moves them as they were |
| `Buffers.Buffer.ReadInt16` | dc/net/buffer.h:249-254 | reads a 16-bit integer exactly if the four-byte copy stays inside the vector |
| `Http.HttpContext.ProcessRequestLine` | dc/net/http/httpContext.cc:7-48 | sets the fields and gives the verdict of the specification |
| `Http.HttpContext.ParseRequest` | dc/net/http/httpContext.cc:51-107 | the loop over the buffer leaves the verdict, state, request and bytes of the specification |
| `Http.TrimValue` | dc/net/http/httpRequest.h:117-133 | the two loops trim the value at both ends |
| `Http.HttpContext.SetMethod` | dc/net/http/httpRequest.h:38-67 | sets the method whose name it is, or the invalid one |
| `Http.StateReached` | dc/net/http/httpContext.cc:51-107 | parsing never reaches the body state, never goes back, and stops short of the end only without a complete line |
| `Http.TrimSplits` | dc/net/http/httpRequest.h:117-133 | trimming removes white space at both ends and nothing else |
| `Http.WhiteSpace` | dc/net/http/httpRequest.h:121-129 | what counts as white space |
| `Http.VersionNames` | dc/net/http/httpContext.cc:28-41 | each version has exactly its name |
| `Http.TargetParts` | dc/net/http/httpContext.cc:18-27 | how a target is cut, for every target |
| `Http.RefusedLine` | dc/net/http/httpContext.cc:7-48 | a line that is refused leaves the version and the header fields alone |
| `Pollers.AddKeepsBijection` | dc/net/poller/pollPoller.cc:46-60 | a new slot keeps channels, slots and indexes in bijection |
| `Pollers.ChangeKeepsBijection` | dc/net/poller/pollPoller.cc:61-77 | so does changing a slot, or switching it off |
| `Pollers.BijectionSizes` | dc/net/poller/pollPoller.cc:79-107 | there are as many slots as channels |
| `Pollers.PollPoller.UpdateChannel` | dc/net/poller/pollPoller.cc:44-77 | registers or changes the channel and keeps the bijection; a registered channel without events has its slot switched off, a new one does not |
| `Pollers.PollPoller.RemoveChannel` | dc/net/poller/pollPoller.cc:79-107 | removes the channel and keeps the bijection; the channel can then not be registered again |
| `Pollers.PollPoller.FillActiveChannels` | dc/net/poller/pollPoller.cc:109-126 | exactly the channels with events, with their events, in slot order and as many as poll counted, although the loop stops early |
| `Pollers.EpollPoller.Control` | dc/net/poller/epollPoller.cc:153-177 | a descriptor is added only if it is absent, and changed or deleted only if it is present |
| `Pollers.EpollPoller.UpdateChannel` | dc/net/poller/epollPoller.cc:90-131 | keeps the kernel's set equal to the channels tagged as added, with their events |
| `Pollers.EpollPoller.RemoveChannel` | dc/net/poller/epollPoller.cc:133-151 | so does a removal; the channel is new again |
| `Pollers.EpollPoller.FillActiveChannels` | dc/net/poller/epollPoller.cc:71-89 | the channels that the kernel reports are registered |
| `TimerQueue.CreateKeeps` | dc/net/timerQueue.cc:116-124 | a new timer, at an address that may have been used before, keeps the books right |
| `TimerQueue.InsertKeeps` | dc/net/timerQueue.cc:227-252 | so does putting one into both sets |
| `TimerQueue.DeleteQueuedKeeps` | dc/net/timerQueue.cc:147-153 | so does deleting one that is queued |
| `TimerQueue.ExpireKeeps` | dc/net/timerQueue.cc:179-196 | so does taking the expired ones out of both sets |
| `TimerQueue.RestartKeeps` | dc/net/timer.cc:9-19 | so does giving a timer in flight its next expiration |
| `TimerQueue.RestartedIsDue` | dc/net/timer.cc:9-19 | a repeating timer is due next one interval after now, in whole microseconds |
| `TimerQueue.DeleteExpiredKeeps` | dc/net/timerQueue.cc:198-213 | so does deleting one that is in flight |
| `TimerQueue.ExpiredCount` | dc/net/timerQueue.cc:179-186 | the entries before the bound are those with expiration up to now |
| `TimerQueue.TimerQueue.CreateTimer` | dc/net/timerQueue.cc:116-124 | the next sequence number; every timer ever created stays in exactly one place: pending, queued, in flight or deleted |
| `TimerQueue.TimerQueue.ResetTimerfd` | dc/net/timerQueue.cc:35-75 | armed for the expiration, or 100 microseconds from now if that is later |
| `TimerQueue.TimerQueue.Insert` | dc/net/timerQueue.cc:227-252 | keeps the two sets in agreement and tells whether the earliest expiration has changed |
| `TimerQueue.TimerQueue.AddTimerInLoop` | dc/net/timerQueue.cc:131-139 | the descriptor stays armed in time for the earliest timer |
| `TimerQueue.TimerQueue.CancelInLoop` | dc/net/timerQueue.cc:141-159 | a queued timer is deleted, once; an id that is stale, even if its address is in use again, changes no timer; during callbacks it is noted |
| `TimerQueue.TimerQueue.GetExpired` | dc/net/timerQueue.cc:179-196 | the batch is exactly the entries with expiration up to now, in order, out of both sets; the assertion reads past the end exactly if the queue was empty |
| `TimerQueue.TimerQueue.RunCallbacks` | dc/net/timerQueue.cc:161-177 | runs the batch in order, dereferencing no deleted timer, whatever the callbacks add and cancel; a queued timer that they cancel is deleted, and one of the batch is noted |
| `TimerQueue.TimerQueue.Reset` | dc/net/timerQueue.cc:198-225 | each timer of the batch is queued again, for one interval after now, if it repeats and was not cancelled, and otherwise deleted; the descriptor is armed for the earliest |
| `TimerQueue.RunKeepsLog` | dc/net/timerQueue.cc:168-174 | running a timer of the batch honours every cancellation recorded so far |
| `TimerQueue.TimerQueue.Perform` | dc/net/timerQueue.cc:116-159 | an addition or cancellation by a callback or between expiries keeps everything; a queued timer that is cancelled is deleted and recorded, one in flight noted and recorded |
| `EventLoop.StepKeepsOrder` | dc/net/eventLoop.cc:150-160 | every step keeps the functors run, swapped out and pending in the order of pushing |
| `EventLoop.EventLoop.Push` | dc/net/eventLoop.cc:150-159 | pushes the functor and decides whether to wake the loop |
| `EventLoop.EventLoop.Wakeup` | dc/net/eventLoop.cc:221-229 | makes the event descriptor readable |
| `EventLoop.EventLoop.QueueInLoop` | dc/net/eventLoop.cc:150-160 | the functor is last in the queue, and the loop is woken unless it will look by itself |
| `EventLoop.EventLoop.HandleRead` | dc/net/eventLoop.cc:231-239 | clears the event descriptor, which loses no functor |
| `EventLoop.EventLoop.SwapPending` | dc/net/eventLoop.cc:243-248 | the critical section takes all that is pending |
| `EventLoop.EventLoop.RunNext` | dc/net/eventLoop.cc:249-252 | runs the first of the functors taken |
| `EventLoop.EventLoop.DoPendingFunctors` | dc/net/eventLoop.cc:241-254 | runs all that was pending, in order, whatever functors and other threads queue meanwhile, which is left in order for the next turn |
| `EventLoop.EventLoop.EndTurn` | dc/net/eventLoop.cc:104-122 | polls again, or leaves the loop exactly if a request to quit is set |
| `EventLoop.EventLoop.Quit` | dc/net/eventLoop.cc:127-134 | the request is set, and heard from another thread |
| `EventLoop.EventLoop.Start` | dc/net/eventLoop.cc:95-103 | the loop starts to poll, with nothing unheard |
| `EventLoop.EventLoop.RunBatch` | dc/net/eventLoop.cc:249-252 | runs the functors taken, in order, whatever happens meanwhile |
| `EventLoop.EventLoop.Other` | dc/net/eventLoop.cc:127-160 | a step of another thread, or of the functor that runs, keeps every invariant |
| `TcpConnection.StepKeepsStream` | dc/net/tcpConnection.cc:133-188 | every step conserves the stream |
| `TcpConnection.StepKeepsOutput` | dc/net/tcpConnection.cc:190-209 | every step keeps writing and half-closing right |
| `TcpConnection.WatchedWhenDown` | dc/net/channel.cc:85-97 | a hang-up on a watched connection that is not up closes it against the assertion |
| `TcpConnection.TcpConnection.constructor` | dc/net/tcpConnection.cc:28-48 | a connection that is connecting, not watched, with an empty buffer |
| `TcpConnection.TcpConnection.UpdateChannel` | dc/net/channel.cc:54-58 | the events of interest and whether the kernel watches the channel, for either poller |
| `TcpConnection.TcpConnection.SendInLoop` | dc/net/tcpConnection.cc:133-188 | moves the connection as the specification of sending does, of which `SendTakes`, `SendWaits` and `FateOfMessage` say what it comes to |
| `TcpConnection.TcpConnection.ShutdownInLoop` | dc/net/tcpConnection.cc:200-209 | half-closes unless writing |
| `TcpConnection.TcpConnection.HandleWrite` | dc/net/tcpConnection.cc:334-368 | takes from the buffer what the kernel took, as `WriteTakes` says, and stops writing when it is empty |
| `TcpConnection.TcpConnection.HandleClose` | dc/net/tcpConnection.cc:370-380 | from an up connection, the state, the channel and the callback |
| `TcpConnection.TcpConnection.Execute` | dc/net/tcpConnection.cc:229-289 | the functions that run in the loop |
| `TcpConnection.TcpConnection.Perform` | dc/net/tcpConnection.cc:74-121 | a call of the interface, by any thread, keeps every invariant |
| `TcpConnection.TcpConnection.ConnectEstablished` | dc/net/tcpConnection.cc:291-299 | the connection is up and reading |
| `TcpConnection.TcpConnection.ConnectDestroyed` | dc/net/tcpConnection.cc:301-311 | when every part is allowed, and whatever calls the connection callback makes before the channel is removed, the connection is down and its channel removed |
| `TcpConnection.TcpConnection.GoDown` | dc/net/tcpConnection.cc:304-307 | its first part, for a connection that is up, keeps every invariant |
| `TcpConnection.TcpConnection.RemoveAfterCallback` | dc/net/tcpConnection.cc:308-310 | its last part removes the channel, which the callback must have left without events |
| `TcpConnection.TcpConnection.RunPending` | dc/net/eventLoop.cc:249-252 | a function from the loop's queue keeps every invariant |
| `TcpConnection.TcpConnection.ReadPart` | dc/net/tcpConnection.cc:313-332 | the end of input closes the connection, which is always up then |
| `TcpConnection.TcpConnection.HandleEventWithGuard` | dc/net/channel.cc:85-116 | handling an event, dispatched on the events of interest and with any calls by callbacks in between, is the sequence of its parts; the connection is closed at most once in all |
| `TcpConnection.TcpConnection.LeaveList` | dc/net/eventLoop.cc:116-119 | the end of the handling of events keeps every invariant |
| `Connector.Connector.Retry` | dc/net/connector.cc:192-208 | closes the socket, and schedules the next attempt if one is wanted |
| `Connector.Connector.Connect` | dc/net/connector.cc:66-123 | waits, tries again or gives up, by the errno of connect |
| `Connector.Connector.Begin` | dc/net/connector.cc:35-47 | connects if wanted, from the disconnected state |
| `Connector.Connector.RemoveAndResetChannel` | dc/net/connector.cc:125-138 | the channel is removed, and reset later from the loop's queue |
| `Connector.Connector.End` | dc/net/connector.cc:55-64 | gives up an attempt in progress; `handleError` (lines 179-189) does the same |
| `Connector.Connector.HandleWrite` | dc/net/connector.cc:140-176 | hands the socket over, closes it, or tries again; `HandedOverIff` says exactly when |
| `Connector.Connector.Start` | dc/net/connector.cc:30-47 | keeps every invariant |
| `Connector.Connector.Stop` | dc/net/connector.cc:49-53 | keeps every invariant |
| `Connector.Connector.Restart` | dc/net/connector.cc:105-112 | keeps every invariant, and starts the delays again |
| `Connector.Connector.RunPending` | dc/net/connector.cc:35-64 | keeps every invariant |
| `Connector.Connector.RunDelayed` | dc/net/connector.cc:200-202 | keeps every invariant |
| `Connector.Connector.HandleEvent` | dc/net/channel.cc:102-113 | an error, then a write only if the channel still waits for one; keeps every invariant |

## Left out

- System calls, threads and locks themselves: only their results, and the atomicity that locks give, are modelled.
- Vectors, sets and maps that the source changes in place are sequences, sets and maps that methods reassign, so aliasing of iterators is not captured; the overlapping copy inside the byte buffer is made element by element, and the formatter and its fixed buffer work on arrays.
- The race between a test of a connection's state in one thread and a change of it in another, before the first has acted on it: each test and the change it leads to are one step.
- The input buffer of a connection: what a read appends is stated by `ReadFd`, and what the message callback does with it is the user's.
- Identity of connections after their destruction: functors that hold a plain pointer to one are taken to run while it exists.
- Overflow of the event descriptor's counter, of sequence numbers and of sizes: counters are unbounded. 32-bit overflow is modelled for dates.
- Waiting times of the condition variable in the logging backend: a wait may end at any time.
- Rounding of intervals: they are real numbers of seconds.
- Lines are not split between a log buffer and its reserve, and flushing and rolling of the log file are not modelled; the branch for a missing current buffer is left out because there always is one.
- The 16-bit peek on a big-endian host: byte order is taken to be little-endian.
- The reader of zone files, `LogFile`, `Logger`, floating-point formatting, `formatSI` and `formatIEC`.
- `TcpServer`, `TcpClient`, `Acceptor`, `HttpServer`, `InetAddress`, the thread pools, queues and latches.
