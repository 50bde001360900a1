/**
 The timer queue (dc/net/timerQueue.cc, dc/net/timer.h, dc/net/timer.cc).

 Timer objects live at addresses that are used again after a timer is deleted. The heap is a map from
 addresses to timers, so that every dereference is a lookup that must be shown to succeed, and every
 deletion must find a timer to delete.
 */
module TimerQueue {
  import opened Options

  const UINTPTR_MAX: nat := 0xFFFF_FFFF_FFFF_FFFF

  type Address = a: nat | 0 < a < UINTPTR_MAX witness 1

  datatype Timer = Timer(expiration: int, interval: real, sequence: nat)
  {
    predicate Repeats() {
      interval > 0.0
    }

    /** Times are in microseconds, intervals in seconds. */
    function Restarted(now: int): Timer {
      this.(expiration := if Repeats() then now + (interval * 1000000.0).Floor else 0)
    }
  }

  /** `when` is `interval` seconds after `now`, in whole microseconds. */
  predicate IsDue(when: int, now: int, interval: real) {
    (when - now) as real <= interval * 1000000.0 < (when - now + 1) as real
  }

  lemma RestartedIsDue(t: Timer, now: int)
    requires t.Repeats()
    ensures t.Restarted(now) == t.(expiration := t.Restarted(now).expiration) && IsDue(t.Restarted(now).expiration, now, t.interval)
    ensures t.Restarted(now).expiration >= now
  {
  }

  /** An element of the set ordered by expiration, and one of the set ordered by address. */
  datatype Entry = Entry(when: int, addr: Address)
  datatype TimerId = TimerId(addr: Address, sequence: nat)

  predicate Less(a: Entry, b: Entry) {
    a.when < b.when || (a.when == b.when && a.addr < b.addr)
  }

  // ----- the ordered set of entries

  predicate Sorted(ts: seq<Entry>) {
    forall i, j :: 0 <= i < j < |ts| ==> Less(ts[i], ts[j])
  }

  lemma SortedCons(e: Entry, ts: seq<Entry>)
    requires Sorted(ts) && forall x :: x in ts ==> Less(e, x)
    ensures Sorted([e] + ts)
  {
    var r := [e] + ts;
    forall i, j | 0 <= i < j < |r| ensures Less(r[i], r[j]) {
      assert r[j] == ts[j - 1] && (i > 0 ==> r[i] == ts[i - 1]);
    }
  }

  lemma SortedTail(ts: seq<Entry>)
    requires Sorted(ts) && ts != []
    ensures Sorted(ts[1..]) && forall x :: x in ts[1..] ==> Less(ts[0], x) && x != ts[0]
  {
  }

  function Inserted(ts: seq<Entry>, e: Entry): (r: seq<Entry>)
    requires Sorted(ts) && e !in ts
    ensures Sorted(r) && |r| == |ts| + 1
    ensures forall x :: x in r <==> x == e || x in ts
    ensures r[0] == if ts == [] || Less(e, ts[0]) then e else ts[0]
  {
    if ts == [] || Less(e, ts[0]) then
      assert forall x :: x in ts ==> Less(e, x);
      SortedCons(e, ts);
      [e] + ts
    else
      SortedTail(ts);
      var rest := Inserted(ts[1..], e);
      SortedCons(ts[0], rest);
      [ts[0]] + rest
  }

  function Erased(ts: seq<Entry>, e: Entry): (r: seq<Entry>)
    requires Sorted(ts) && e in ts
    ensures Sorted(r) && |r| == |ts| - 1
    ensures forall x :: x in r <==> x != e && x in ts
  {
    SortedTail(ts);
    if ts[0] == e then ts[1..]
    else
      var rest := Erased(ts[1..], e);
      SortedCons(ts[0], rest);
      [ts[0]] + rest
  }

  /** std::set::lower_bound of the pair (now, UINTPTR_MAX): the number of entries that have expired. */
  function ExpiredCount(ts: seq<Entry>, now: int): (k: nat)
    requires Sorted(ts)
    ensures k <= |ts|
    ensures forall i :: 0 <= i < k ==> ts[i].when <= now
    ensures forall i :: k <= i < |ts| ==> now < ts[i].when
  {
    if ts == [] || now < ts[0].when then 0
    else
      assert forall i :: 1 <= i < |ts| ==> ts[i] == ts[1..][i - 1];
      1 + ExpiredCount(ts[1..], now)
  }

  /** The assertion in getExpired: it holds, it fails, or it reads the entry behind the last one. */
  datatype Check = Holds | Fails | PastTheEnd

  /** The entry that an iterator stands at, if it is not behind the last one. */
  function EntryAt(ts: seq<Entry>, i: nat): Option<Entry> {
    if i < |ts| then Some(ts[i]) else None
  }

  /** `end` is read only if nothing has expired. */
  function CheckExpired(ts: seq<Entry>, end: nat, now: int): Check {
    if end != 0 then Holds
    else
      match EntryAt(ts, end)
      case None => PastTheEnd
      case Some(e) => if now < e.when then Holds else Fails
  }

  /** The assertion reads past the end exactly if the queue is empty, and holds otherwise. */
  lemma PastTheEndIffEmpty(ts: seq<Entry>, now: int)
    requires Sorted(ts)
    ensures CheckExpired(ts, ExpiredCount(ts, now), now) == if ts == [] then PastTheEnd else Holds
  {
  }

  // ----- the queue

  datatype Place = Pending | Queued | InFlight

  type Heap = map<Address, Timer>

  ghost predicate EntryRight(heap: Heap, active: set<TimerId>, e: Entry) {
    e.addr in heap && heap[e.addr].expiration == e.when && TimerId(e.addr, heap[e.addr].sequence) in active
  }

  ghost predicate ActiveRight(heap: Heap, timers: seq<Entry>, id: TimerId) {
    id.addr in heap && heap[id.addr].sequence == id.sequence && Entry(heap[id.addr].expiration, id.addr) in timers
  }

  predicate InBatch(batch: seq<Entry>, a: Address) {
    exists i :: 0 <= i < |batch| && batch[i].addr == a
  }

  function InFlightPlaces(place: map<Address, Place>, batch: seq<Entry>): map<Address, Place> {
    map a | a in place :: if InBatch(batch, a) then InFlight else place[a]
  }

  /**
   The queue's two sets and the heap, with what is known of every timer: the place of each live one, its
   address by sequence number, the sequence numbers of the deleted ones, and the expired entries in flight.
   */
  datatype Books = Books(heap: Heap, timers: seq<Entry>, active: set<TimerId>, place: map<Address, Place>,
                         batch: seq<Entry>, numCreated: nat, home: map<nat, Address>, deleted: set<nat>)
  {
    ghost function Id(e: Entry): TimerId
      requires e.addr in heap
    {
      TimerId(e.addr, heap[e.addr].sequence)
    }

    /** The two sets hold the same timers: the entries are exactly the expirations of the active timers. */
    ghost predicate IndexesAgree() {
      && Sorted(timers)
      && (forall e :: e in timers ==> EntryRight(heap, active, e))
      && (forall id :: id in active ==> ActiveRight(heap, timers, id))
    }

    ghost predicate PlaceRight(a: Address)
      requires a in heap && a in place
    {
      && (place[a] == Queued <==> TimerId(a, heap[a].sequence) in active)
      && (place[a] == InFlight <==> InBatch(batch, a))
    }

    /** Every live timer is in exactly one place. */
    ghost predicate PlacesRight() {
      && place.Keys == heap.Keys
      && (forall a :: a in heap ==> PlaceRight(a))
      && (forall i :: 0 <= i < |batch| ==> batch[i].addr in heap)
      && (forall i, j :: 0 <= i < j < |batch| ==> batch[i].addr != batch[j].addr)
    }

    /** Every timer ever created is either live, at one address, or deleted. */
    ghost predicate SequencesRight() {
      && (forall s :: 1 <= s <= numCreated <==> s in home || s in deleted)
      && (forall s :: s in home ==> s !in deleted && home[s] in heap && heap[home[s]].sequence == s)
      && (forall a :: a in heap ==> heap[a].sequence in home && home[heap[a].sequence] == a)
    }

    ghost predicate Right() {
      IndexesAgree() && PlacesRight() && SequencesRight()
    }

    // What the operations do to the books.

    ghost function Created(addr: Address, t: Timer): Books {
      this.(heap := heap[addr := t], place := place[addr := Pending], numCreated := numCreated + 1, home := home[numCreated + 1 := addr])
    }

    ghost function Entered(addr: Address): Books
      requires addr in heap && addr in place && Sorted(timers) && Entry(heap[addr].expiration, addr) !in timers
    {
      this.(timers := Inserted(timers, Entry(heap[addr].expiration, addr)),
            active := active + {TimerId(addr, heap[addr].sequence)},
            place := place[addr := Queued],
            batch := if place[addr] == InFlight && batch != [] then batch[1..] else batch)
    }

    /** A timer that is queued is also taken out of the two sets; one that is in flight is the first of the batch. */
    ghost function Deleted(addr: Address): Books
      requires addr in heap && addr in place && Sorted(timers)
      requires place[addr] == Queued ==> Entry(heap[addr].expiration, addr) in timers
    {
      var b := this.(heap := heap - {addr}, place := place - {addr}, home := home - {heap[addr].sequence},
                     deleted := deleted + {heap[addr].sequence});
      if place[addr] == Queued then
        b.(timers := Erased(timers, Entry(heap[addr].expiration, addr)), active := active - {TimerId(addr, heap[addr].sequence)})
      else b.(batch := if batch != [] then batch[1..] else batch)
    }

    ghost function Expired(k: nat): Books
      requires k <= |timers| && batch == []
      requires forall i :: 0 <= i < k ==> timers[i].addr in heap
    {
      this.(timers := timers[k..], active := active - Ids(heap, timers[..k]), batch := timers[..k],
            place := InFlightPlaces(place, timers[..k]))
    }

    ghost function Restarted(addr: Address, now: int): Books
      requires addr in heap
    {
      this.(heap := heap[addr := heap[addr].Restarted(now)])
    }
  }

  function Ids(heap: Heap, es: seq<Entry>): set<TimerId>
    requires forall i :: 0 <= i < |es| ==> es[i].addr in heap
  {
    set i | 0 <= i < |es| :: TimerId(es[i].addr, heap[es[i].addr].sequence)
  }

  /** Nothing that other operations do reaches the timers in flight, or brings a deleted timer back. */
  ghost predicate Undisturbed(b: Books, c: Books) {
    && c.batch == b.batch && b.deleted <= c.deleted && b.numCreated <= c.numCreated
    && forall i :: 0 <= i < |b.batch| && b.batch[i].addr in b.heap ==>
         b.batch[i].addr in c.heap && c.heap[b.batch[i].addr] == b.heap[b.batch[i].addr]
  }

  lemma QueuedNotInFlight(b: Books, addr: Address)
    requires b.Right() && addr in b.heap && b.place[addr] == Queued
    ensures forall i :: 0 <= i < |b.batch| ==> b.batch[i].addr != addr
  {
    assert b.PlaceRight(addr);
  }

  lemma CreateKeeps(b: Books, addr: Address, t: Timer)
    requires b.Right() && addr !in b.heap && t.sequence == b.numCreated + 1
    ensures b.Created(addr, t).Right() && Undisturbed(b, b.Created(addr, t))
  {
    CreateKeepsIndexes(b, addr, t);
    CreateKeepsPlaces(b, addr, t);
    CreateKeepsSequences(b, addr, t);
  }

  lemma CreateKeepsIndexes(b: Books, addr: Address, t: Timer)
    requires b.IndexesAgree() && addr !in b.heap
    ensures b.Created(addr, t).IndexesAgree()
  {
    assert forall e :: e in b.timers ==> EntryRight(b.heap, b.active, e);
    assert forall id :: id in b.active ==> ActiveRight(b.heap, b.timers, id);
  }

  lemma CreateKeepsPlaces(b: Books, addr: Address, t: Timer)
    requires b.IndexesAgree() && b.PlacesRight() && addr !in b.heap
    ensures b.Created(addr, t).PlacesRight()
  {
    var c := b.Created(addr, t);
    assert forall id :: id in b.active ==> ActiveRight(b.heap, b.timers, id);
    forall a | a in c.heap ensures c.PlaceRight(a) {
      assert a != addr ==> b.PlaceRight(a);
    }
  }

  lemma CreateKeepsSequences(b: Books, addr: Address, t: Timer)
    requires b.SequencesRight() && addr !in b.heap && t.sequence == b.numCreated + 1
    ensures b.Created(addr, t).SequencesRight()
  {
    var n := b.numCreated + 1;
    assert n !in b.home && n !in b.deleted;
    assert forall s :: s in b.home ==> b.home[s] != addr;
  }

  lemma InBatchTail(batch: seq<Entry>, a: Address)
    requires batch != []
    ensures InBatch(batch, a) <==> batch[0].addr == a || InBatch(batch[1..], a)
  {
    if i :| 0 <= i < |batch| && batch[i].addr == a {
      assert i > 0 ==> batch[1..][i - 1].addr == a;
    }
    if j :| 0 <= j < |batch[1..]| && batch[1..][j].addr == a {
      assert batch[j + 1].addr == a;
    }
  }

  /** A timer that is not queued has no entry. */
  lemma NotQueued(b: Books, addr: Address)
    requires b.Right() && addr in b.heap && b.place[addr] != Queued
    ensures Entry(b.heap[addr].expiration, addr) !in b.timers
    ensures forall e :: e in b.timers ==> e.addr != addr
  {
    assert b.PlaceRight(addr);
    forall e | e in b.timers ensures e.addr != addr {
      assert EntryRight(b.heap, b.active, e);
    }
  }

  lemma InsertKeeps(b: Books, addr: Address)
    requires b.Right() && addr in b.heap && b.place[addr] != Queued
    requires b.place[addr] == InFlight ==> b.batch != [] && b.batch[0].addr == addr
    ensures Entry(b.heap[addr].expiration, addr) !in b.timers && b.Entered(addr).Right()
  {
    NotQueued(b, addr);
    var c := b.Entered(addr);
    var e, id := Entry(b.heap[addr].expiration, addr), TimerId(addr, b.heap[addr].sequence);
    forall x | x in c.timers ensures EntryRight(c.heap, c.active, x) {
      assert x != e ==> EntryRight(b.heap, b.active, x);
    }
    forall x | x in c.active ensures ActiveRight(c.heap, c.timers, x) {
      assert x != id ==> ActiveRight(b.heap, b.timers, x);
    }
    assert b.PlaceRight(addr);
    forall a | a in c.heap ensures c.PlaceRight(a) {
      assert b.PlaceRight(a);
      if b.batch != [] {
        InBatchTail(b.batch, a);
      }
    }
  }

  lemma DeleteQueuedKeeps(b: Books, addr: Address)
    requires b.Right() && addr in b.heap && b.place[addr] == Queued
    ensures Entry(b.heap[addr].expiration, addr) in b.timers && b.Deleted(addr).Right()
    ensures Undisturbed(b, b.Deleted(addr))
  {
    QueuedNotInFlight(b, addr);
    assert b.PlaceRight(addr);
    var e, id := Entry(b.heap[addr].expiration, addr), TimerId(addr, b.heap[addr].sequence);
    assert ActiveRight(b.heap, b.timers, id);
    var c := b.Deleted(addr);
    forall x | x in c.timers ensures EntryRight(c.heap, c.active, x) {
      assert EntryRight(b.heap, b.active, x);
    }
    forall x | x in c.active ensures ActiveRight(c.heap, c.timers, x) {
      assert ActiveRight(b.heap, b.timers, x);
    }
    forall a | a in c.heap ensures c.PlaceRight(a) {
      assert b.PlaceRight(a);
    }
  }

  lemma DeleteExpiredKeeps(b: Books, addr: Address)
    requires b.Right() && b.batch != [] && b.batch[0].addr == addr
    ensures b.place[addr] == InFlight && b.Deleted(addr).Right()
  {
    assert b.PlaceRight(addr);
    NotQueued(b, addr);
    var c := b.Deleted(addr);
    forall x | x in c.timers ensures EntryRight(c.heap, c.active, x) {
      assert EntryRight(b.heap, b.active, x);
    }
    forall x | x in c.active ensures ActiveRight(c.heap, c.timers, x) {
      assert ActiveRight(b.heap, b.timers, x);
    }
    forall a | a in c.heap ensures c.PlaceRight(a) {
      assert b.PlaceRight(a);
      InBatchTail(b.batch, a);
    }
  }

  /** Entries are of timers in the heap, each of a different one. */
  lemma EntriesDiffer(b: Books)
    requires b.IndexesAgree()
    ensures forall i :: 0 <= i < |b.timers| ==> b.timers[i].addr in b.heap
    ensures forall i, j :: 0 <= i < j < |b.timers| ==> b.timers[i].addr != b.timers[j].addr
  {
    forall i | 0 <= i < |b.timers| ensures b.timers[i].addr in b.heap {
      assert EntryRight(b.heap, b.active, b.timers[i]);
    }
    forall i, j | 0 <= i < j < |b.timers| ensures b.timers[i].addr != b.timers[j].addr {
      assert EntryRight(b.heap, b.active, b.timers[i]) && EntryRight(b.heap, b.active, b.timers[j]);
      assert Less(b.timers[i], b.timers[j]);
    }
  }

  lemma ExpireKeepsIndexes(b: Books, k: nat)
    requires b.Right() && b.batch == [] && k <= |b.timers|
    requires forall i :: 0 <= i < k ==> b.timers[i].addr in b.heap
    ensures b.Expired(k).IndexesAgree()
  {
    var c := b.Expired(k);
    EntriesDiffer(b);
    forall x | x in c.timers ensures EntryRight(c.heap, c.active, x) {
      var j :| 0 <= j < |c.timers| && c.timers[j] == x;
      assert x == b.timers[k + j] && EntryRight(b.heap, b.active, x);
    }
    forall x | x in c.active ensures ActiveRight(c.heap, c.timers, x) {
      assert ActiveRight(b.heap, b.timers, x);
      var e := Entry(b.heap[x.addr].expiration, x.addr);
      assert b.timers == c.batch + c.timers;
    }
  }

  /** The first `k` entries, taken out of both sets, are in flight. */
  lemma ExpireKeeps(b: Books, k: nat)
    requires b.Right() && b.batch == [] && k <= |b.timers|
    ensures (forall i :: 0 <= i < k ==> b.timers[i].addr in b.heap) && b.Expired(k).Right()
  {
    EntriesDiffer(b);
    ExpireKeepsIndexes(b, k);
    var c := b.Expired(k);
    forall a | a in c.heap ensures c.PlaceRight(a) {
      assert b.PlaceRight(a);
      var id := TimerId(a, b.heap[a].sequence);
      if InBatch(c.batch, a) {
        var i :| 0 <= i < |c.batch| && c.batch[i].addr == a;
        assert id in Ids(b.heap, c.batch);
      } else {
        assert id !in Ids(b.heap, c.batch);
      }
    }
    assert c.SequencesRight();
  }

  lemma RestartKeeps(b: Books, addr: Address, now: int)
    requires b.Right() && addr in b.heap && b.place[addr] != Queued
    ensures b.Restarted(addr, now).Right()
  {
    NotQueued(b, addr);
    var c := b.Restarted(addr, now);
    assert b.PlaceRight(addr);
    forall x | x in c.timers ensures EntryRight(c.heap, c.active, x) {
      assert EntryRight(b.heap, b.active, x);
    }
    forall x | x in c.active ensures ActiveRight(c.heap, c.timers, x) {
      assert ActiveRight(b.heap, b.timers, x);
    }
    forall a | a in c.heap ensures c.PlaceRight(a) {
      assert b.PlaceRight(a);
    }
  }

  lemma FirstIsEarliest(ts: seq<Entry>)
    requires Sorted(ts)
    ensures forall e :: e in ts ==> ts[0].when <= e.when
  {
  }

  function Sequences(heap: Heap, es: seq<Entry>): seq<nat>
    requires forall i :: 0 <= i < |es| ==> es[i].addr in heap
  {
    seq(|es|, i requires 0 <= i < |es| => heap[es[i].addr].sequence)
  }

  /** Facts about the books that their owner needs. */
  lemma FactsOf(b: Books)
    requires b.Right()
    ensures Sorted(b.timers) && forall e :: e in b.timers ==> EntryRight(b.heap, b.active, e)
    ensures forall i, j :: 0 <= i < j < |b.batch| ==> b.batch[i].addr != b.batch[j].addr
    ensures forall a :: a in b.heap ==> b.heap[a].sequence !in b.deleted
    ensures b.place.Keys == b.heap.Keys
  {
  }

  lemma SequencesDiffer(b: Books)
    requires b.Right()
    ensures forall i :: 0 <= i < |b.batch| ==> b.batch[i].addr in b.heap && b.heap[b.batch[i].addr].sequence !in b.deleted
    ensures forall i, j :: 0 <= i < j < |b.batch| ==> b.heap[b.batch[i].addr].sequence != b.heap[b.batch[j].addr].sequence
  {
  }

  lemma ActiveIsQueued(b: Books, id: TimerId)
    requires b.Right() && id in b.active
    ensures ActiveRight(b.heap, b.timers, id) && b.place[id.addr] == Queued
  {
    assert ActiveRight(b.heap, b.timers, id);
    assert b.PlaceRight(id.addr);
  }

  lemma InFlightIsNotActive(b: Books)
    requires b.Right()
    ensures forall i :: 0 <= i < |b.batch| ==> b.batch[i].addr in b.heap && b.Id(b.batch[i]) !in b.active
  {
    forall i | 0 <= i < |b.batch| ensures b.batch[i].addr in b.heap && b.Id(b.batch[i]) !in b.active {
      assert b.PlaceRight(b.batch[i].addr);
    }
  }

  lemma FirstIsInFlight(b: Books)
    requires b.Right() && b.batch != []
    ensures b.batch[0].addr in b.heap && b.place.Keys == b.heap.Keys && b.place[b.batch[0].addr] == InFlight
    ensures Sorted(b.timers)
  {
    assert b.PlaceRight(b.batch[0].addr);
  }

  // ----- what cancelling a timer promises

  /** When a timer was cancelled, as the number of timers run before, and whether it was in flight then. */
  datatype Cancellation = Cancellation(at: nat, inFlight: bool)

  /** The sequence numbers of the timers run, in order; the cancellations; and where in the former this batch starts. */
  datatype Log = Log(ran: seq<nat>, cancelled: map<nat, Cancellation>, base: nat)
  {
    ghost function Recorded(s: nat, inFlight: bool): Log {
      this.(cancelled := cancelled[s := Cancellation(|ran|, inFlight)])
    }

    /** What has been recorded stays, and nothing is run. */
    ghost predicate Extends(was: Log) {
      ran == was.ran && base == was.base && KeepsCancelled(was)
    }

    ghost predicate KeepsCancelled(was: Log) {
      forall s :: s in was.cancelled ==> s in cancelled && cancelled[s] == was.cancelled[s]
    }

    /** A timer cancelled while queued is not run any more; one cancelled in flight, at most once more. */
    ghost predicate Honoured(s: nat)
      requires s in cancelled
    {
      && cancelled[s].at <= |ran|
      && if cancelled[s].inFlight then AtMostOnceSince(ran, s, cancelled[s].at) else NotSince(ran, s, cancelled[s].at)
    }
  }

  ghost predicate NotSince(ran: seq<nat>, s: nat, from: nat) {
    forall i :: from <= i < |ran| ==> ran[i] != s
  }

  ghost predicate AtMostOnceSince(ran: seq<nat>, s: nat, from: nat) {
    forall i, j :: from <= i < j < |ran| ==> ran[i] != s || ran[j] != s
  }

  /** The timers in flight that will be deleted at the end of the batch because they were cancelled. */
  ghost function Noted(b: Books, canceling: set<TimerId>): set<nat> {
    set e | e in b.batch && e.addr in b.heap && b.Id(e) in canceling :: b.heap[e.addr].sequence
  }

  /** Every cancellation is honoured, and its timer is deleted or noted to be. */
  ghost predicate LogRight(log: Log, deleted: set<nat>, noted: set<nat>) {
    && log.base <= |log.ran|
    && forall s :: s in log.cancelled ==>
         log.Honoured(s) && (s in deleted || (log.cancelled[s].inFlight && s in noted && log.base <= log.cancelled[s].at))
  }

  lemma LogKept(log: Log, deleted: set<nat>, noted: set<nat>, deleted': set<nat>, noted': set<nat>)
    requires LogRight(log, deleted, noted) && deleted <= deleted'
    requires forall s :: s in noted ==> s in noted' || s in deleted'
    ensures LogRight(log, deleted', noted')
  {
  }

  lemma RecordKeepsLog(log: Log, s: nat, inFlight: bool, deleted: set<nat>, noted: set<nat>)
    requires LogRight(log, deleted, noted) && (s in deleted || (inFlight && s in noted))
    ensures LogRight(log.Recorded(s, inFlight), deleted, noted)
  {
  }

  /** Running a timer that is not deleted, and was not run in this batch before. */
  lemma RunKeepsLog(log: Log, s: nat, deleted: set<nat>, noted: set<nat>)
    requires LogRight(log, deleted, noted) && s !in deleted && NotSince(log.ran, s, log.base)
    ensures LogRight(log.(ran := log.ran + [s]), deleted, noted)
  {
    var t := log.(ran := log.ran + [s]);
    forall c | c in t.cancelled ensures t.Honoured(c) {
      assert log.Honoured(c);
      assert forall i :: 0 <= i < |log.ran| ==> t.ran[i] == log.ran[i];
    }
  }

  /** When no timer is noted, every timer cancelled has been deleted, and a batch may start. */
  lemma StartKeepsLog(log: Log, deleted: set<nat>)
    requires LogRight(log, deleted, {})
    ensures LogRight(log.(base := |log.ran|), deleted, {})
  {
    var t := log.(base := |log.ran|);
    forall c | c in t.cancelled ensures t.Honoured(c) {
      assert log.Honoured(c);
    }
  }

  lemma NotedKept(b: Books, c: Books, canceling: set<TimerId>, canceling': set<TimerId>)
    requires Undisturbed(b, c) && canceling <= canceling'
    ensures Noted(b, canceling) <= Noted(c, canceling')
  {
    forall s | s in Noted(b, canceling) ensures s in Noted(c, canceling') {
      var e :| e in b.batch && e.addr in b.heap && b.Id(e) in canceling && b.heap[e.addr].sequence == s;
      var i :| 0 <= i < |b.batch| && b.batch[i] == e;
      assert e in c.batch && c.heap[e.addr] == b.heap[e.addr];
      assert c.Id(e) in canceling';
    }
  }

  /** The first timer of the batch is done with: it was not cancelled, or it is deleted now. */
  lemma NotedTail(b: Books, c: Books, canceling: set<TimerId>)
    requires b.batch != [] && c.batch == b.batch[1..] && b.batch[0].addr in b.heap
    requires forall e :: e in c.batch && e.addr in b.heap ==> e.addr in c.heap && c.heap[e.addr].sequence == b.heap[e.addr].sequence
    requires b.Id(b.batch[0]) !in canceling || b.heap[b.batch[0].addr].sequence in c.deleted
    ensures forall s :: s in Noted(b, canceling) ==> s in Noted(c, canceling) || s in c.deleted
  {
    forall s | s in Noted(b, canceling) ensures s in Noted(c, canceling) || s in c.deleted {
      var e :| e in b.batch && e.addr in b.heap && b.Id(e) in canceling && b.heap[e.addr].sequence == s;
      assert e == b.batch[0] || e in c.batch;
      if e in c.batch {
        assert c.Id(e) == b.Id(e);
      }
    }
  }

  lemma FirstSettled(b: Books, c: Books, canceling: set<TimerId>, log: Log)
    requires b.Right() && b.batch != [] && c.batch == b.batch[1..] && b.batch[0].addr in b.heap
    requires forall a :: a in b.heap && a != b.batch[0].addr ==> a in c.heap && c.heap[a] == b.heap[a]
    requires b.deleted <= c.deleted && (b.Id(b.batch[0]) !in canceling || b.heap[b.batch[0].addr].sequence in c.deleted)
    requires LogRight(log, b.deleted, Noted(b, canceling))
    ensures LogRight(log, c.deleted, Noted(c, canceling))
  {
    FactsOf(b);
    hide Books.Right, LogRight, Noted;
    forall e | e in c.batch && e.addr in b.heap ensures e.addr in c.heap && c.heap[e.addr].sequence == b.heap[e.addr].sequence {
      var i :| 0 <= i < |c.batch| && c.batch[i] == e;
      assert b.batch[i + 1] == e;
    }
    NotedTail(b, c, canceling);
    LogKept(log, b.deleted, Noted(b, canceling), c.deleted, Noted(c, canceling));
  }

  lemma NotedEmpty(b: Books, canceling: set<TimerId>)
    requires b.batch == [] || canceling == {}
    ensures Noted(b, canceling) == {}
  {
  }

  /** A queued timer has not been cancelled. */
  lemma ActiveNotCancelled(b: Books, canceling: set<TimerId>, log: Log, id: TimerId)
    requires b.Right() && LogRight(log, b.deleted, Noted(b, canceling)) && id in b.active
    ensures id.sequence !in log.cancelled
  {
    FactsOf(b);
    ActiveIsQueued(b, id);
    InFlightIsNotActive(b);
    hide Books.Right;
    forall e | e in b.batch ensures e.addr in b.heap && b.heap[e.addr].sequence != id.sequence {
      var i :| 0 <= i < |b.batch| && b.batch[i] == e;
      assert b.Id(b.batch[i]) !in b.active;
      assert e.addr != id.addr;
      TimersDiffer(b, e.addr, id.addr);
    }
  }

  lemma TimersDiffer(b: Books, a: Address, a': Address)
    requires b.Right() && a in b.heap && a' in b.heap && a != a'
    ensures b.heap[a].sequence != b.heap[a'].sequence
  {
  }

  /** A timer whose expiration is later is not among the expired ones. */
  lemma NotExpiredNotRun(b: Books, expired: seq<Entry>, now: int, id: TimerId)
    requires b.Right() && id in b.active && expired <= b.timers && forall i :: 0 <= i < |expired| ==> expired[i].when <= now
    ensures id.addr in b.heap && forall i :: 0 <= i < |expired| ==> expired[i].addr in b.heap
    ensures now < b.heap[id.addr].expiration ==> id.sequence !in Sequences(b.heap, expired)
  {
    FactsOf(b);
    ActiveIsQueued(b, id);
    hide Books.Right;
    forall i | 0 <= i < |expired| ensures expired[i].addr in b.heap {
      assert expired[i] in b.timers;
    }
    if now < b.heap[id.addr].expiration {
      forall i | 0 <= i < |expired| ensures Sequences(b.heap, expired)[i] != id.sequence {
        assert EntryRight(b.heap, b.active, b.timers[i]);
        assert expired[i].addr != id.addr;
        TimersDiffer(b, expired[i].addr, id.addr);
      }
    }
  }

  /** `id` names a timer of the batch. */
  ghost predicate IsInFlight(b: Books, id: TimerId) {
    exists e :: e in b.batch && e.addr in b.heap && b.Id(e) == id
  }

  lemma InFlightIsNoted(b: Books, canceling: set<TimerId>, id: TimerId)
    requires IsInFlight(b, id) && id in canceling
    ensures id.sequence in Noted(b, canceling)
  {
    var e :| e in b.batch && e.addr in b.heap && b.Id(e) == id;
    assert b.heap[e.addr].sequence == id.sequence;
  }

  /** What a callback, or another thread, may do. */
  datatype Op = Create(when: int, interval: real, at: Address) | Add(addr: Address, now: int) | Cancel(id: TimerId)

  class TimerQueue {
    var heap: Heap
    var numCreated: nat
    var timers: seq<Entry>
    var active: set<TimerId>
    var calling: bool
    var canceling: set<TimerId>
    var armed: Option<int>  // deadline of the timer descriptor; it stays set when the descriptor has fired
    var armedAt: int

    // Bookkeeping that the source has no need of.
    var place: map<Address, Place>
    ghost var home: map<nat, Address>
    ghost var deleted: set<nat>
    ghost var batch: seq<Entry>
    ghost var log: Log

    ghost function State(): Books
      reads this
    {
      Books(heap, timers, active, place, batch, numCreated, home, deleted)
    }

    /** The descriptor will fire by the time `when`, or within 100 microseconds of being armed. */
    ghost predicate ArmedFor(when: int)
      reads this
    {
      armed.Some? && (armed.value <= when || armed.value <= armedAt + 100)
    }

    /** The descriptor is armed for the first entry, or the reset that ends the expiry will see to it. */
    ghost predicate WillBeArmed()
      reads this
    {
      timers == [] || ArmedFor(timers[0].when) || timers[0].when > 0
    }

    ghost predicate Logged()
      reads this
    {
      LogRight(log, deleted, Noted(State(), canceling))
    }

    /** Outside the handling of an expiry no timer is stranded, and none is in flight. Cancellations are honoured. */
    ghost predicate Valid()
      reads this
    {
      && State().Right()
      && Logged()
      && WillBeArmed()
      && (!calling ==> batch == [] && (timers != [] ==> ArmedFor(timers[0].when)))
    }

    constructor ()
      ensures Valid() && !calling && heap == map[] && deleted == {} && log == Log([], map[], 0)
    {
      heap, numCreated, timers, active, calling, canceling := map[], 0, [], {}, false, {};
      armed, armedAt := None, 0;
      place, home, deleted, batch, log := map[], map[], {}, [], Log([], map[], 0);
    }

    /** What does not reach the timers in flight does not reach the cancellations. */
    lemma KeepsLogged(c: Books)
      requires Logged() && Undisturbed(State(), c)
      ensures LogRight(log, c.deleted, Noted(c, canceling))
    {
      NotedKept(State(), c, canceling, canceling);
      LogKept(log, deleted, Noted(State(), canceling), c.deleted, Noted(c, canceling));
    }

    /** `new Timer`, in any thread: an unused address, and the next sequence number. */
    method CreateTimer(when: int, interval: real, addr: Address) returns (id: TimerId)
      requires Valid() && addr !in heap
      modifies `heap, `numCreated, `place, `home
      ensures Valid() && State() == old(State()).Created(addr, Timer(when, interval, numCreated))
      ensures id == TimerId(addr, numCreated) && Undisturbed(old(State()), State())
    {
      hide Books.Right, LogRight, Noted;
      ghost var b, t := State(), Timer(when, interval, numCreated + 1);
      CreateKeeps(b, addr, t);
      KeepsLogged(b.Created(addr, t));
      numCreated := numCreated + 1;
      heap := heap[addr := Timer(when, interval, numCreated)];
      place := place[addr := Pending];
      home := home[numCreated := addr];
      assert State() == b.Created(addr, t);
      id := TimerId(addr, numCreated);
    }

    method ResetTimerfd(expiration: int, now: int)
      modifies `armed, `armedAt
      ensures armed == Some(if expiration - now < 100 then now + 100 else expiration) && armedAt == now
    {
      var microseconds := expiration - now;
      if microseconds < 100 {
        microseconds := 100;
      }
      armed, armedAt := Some(now + microseconds), now;
    }

    method Insert(addr: Address) returns (earliestChanged: bool)
      requires State().Right() && addr in heap && addr in place && place[addr] != Queued
      requires place[addr] == InFlight ==> batch != [] && batch[0].addr == addr
      modifies `timers, `active, `place, `batch
      ensures State().Right() && Entry(heap[addr].expiration, addr) !in old(timers) && State() == old(State()).Entered(addr)
      ensures earliestChanged <==> old(timers) == [] || heap[addr].expiration < old(timers)[0].when
      ensures timers[0].when == if earliestChanged then heap[addr].expiration else old(timers)[0].when
    {
      hide Books.Right;
      ghost var b := State();
      FactsOf(b);
      InsertKeeps(b, addr);
      var when := heap[addr].expiration;
      earliestChanged := timers == [] || when < timers[0].when;
      active := active + {TimerId(addr, heap[addr].sequence)};
      timers := Inserted(timers, Entry(when, addr));
      batch := if place[addr] == InFlight && batch != [] then batch[1..] else batch;
      place := place[addr := Queued];
      assert State() == b.Entered(addr);
    }

    method AddTimerInLoop(addr: Address, now: int)
      requires Valid() && addr in heap && addr in place && place[addr] == Pending
      modifies `timers, `active, `place, `batch, `armed, `armedAt
      ensures Valid() && Entry(heap[addr].expiration, addr) !in old(timers) && State() == old(State()).Entered(addr)
      ensures Undisturbed(old(State()), State())
    {
      hide Books.Right, LogRight, Noted;
      FactsOf(State());
      InsertKeeps(State(), addr);
      assert Undisturbed(State(), State().Entered(addr));
      KeepsLogged(State().Entered(addr));
      var earliestChanged := Insert(addr);
      if earliestChanged {
        ResetTimerfd(heap[addr].expiration, now);
      }
    }

    method DeleteQueued(id: TimerId)
      requires State().Right() && id in active
      modifies `heap, `timers, `active, `place, `home, `deleted
      ensures State().Right() && Undisturbed(old(State()), State())
      ensures id.addr in old(heap) && id.sequence !in old(deleted)
      ensures heap == old(heap) - {id.addr} && deleted == old(deleted) + {id.sequence} && active == old(active) - {id}
      ensures timers != [] ==> old(timers) != [] && old(timers)[0].when <= timers[0].when
    {
      hide Books.Right;
      ghost var b := State();
      FactsOf(b);
      ActiveIsQueued(b, id);
      DeleteQueuedKeeps(b, id.addr);
      FirstIsEarliest(timers);
      timers := Erased(timers, Entry(heap[id.addr].expiration, id.addr));
      assert timers != [] ==> timers[0] in old(timers);
      heap, place, home, deleted := heap - {id.addr}, place - {id.addr}, home - {id.sequence}, deleted + {id.sequence};
      active := active - {id};
      assert State() == b.Deleted(id.addr);
    }

    /** A queued timer is deleted at once; a stale id, whose address may be in use again, reaches no timer. */
    method CancelInLoop(id: TimerId)
      requires Valid()
      modifies `heap, `timers, `active, `canceling, `place, `home, `deleted, `log
      ensures Valid() && Undisturbed(old(State()), State()) && log.Extends(old(log)) && old(canceling) <= canceling
      ensures id in old(active) ==>
        && id.addr in old(heap) && heap == old(heap) - {id.addr} && active == old(active) - {id}
        && id.sequence !in old(deleted) && deleted == old(deleted) + {id.sequence} && canceling == old(canceling)
        && log == old(log).Recorded(id.sequence, false)
      ensures id !in old(active) ==>
        && State() == old(State()) && canceling == old(canceling) + (if calling then {id} else {})
        && (calling && IsInFlight(old(State()), id) ==> id.sequence in log.cancelled)
    {
      hide Books.Right, LogRight, Noted, IsInFlight;
      ghost var b := State();
      if id in active {
        ActiveNotCancelled(b, canceling, log, id);
        DeleteQueued(id);
        NotedKept(b, State(), canceling, canceling);
        LogKept(log, b.deleted, Noted(b, canceling), deleted, Noted(State(), canceling));
        RecordKeepsLog(log, id.sequence, false, deleted, Noted(State(), canceling));
        log := log.Recorded(id.sequence, false);
      } else if calling {
        ghost var was := canceling;
        canceling := canceling + {id};
        NotedKept(b, b, was, canceling);
        LogKept(log, deleted, Noted(b, was), deleted, Noted(b, canceling));
        if IsInFlight(b, id) && id.sequence !in log.cancelled {
          InFlightIsNoted(b, canceling, id);
          RecordKeepsLog(log, id.sequence, true, deleted, Noted(b, canceling));
          log := log.Recorded(id.sequence, true);
        }
      }
    }

    /** Anything that can happen between two steps of the queue's own. What the allocator or the caller cannot do is left out. */
    method Perform(op: Op)
      requires Valid()
      modifies `heap, `numCreated, `timers, `active, `canceling, `armed, `armedAt, `place, `home, `deleted, `batch, `log
      ensures Valid() && Undisturbed(old(State()), State()) && old(canceling) <= canceling && log.Extends(old(log))
      ensures forall id :: id in old(active) ==> id in active || id.sequence in deleted
      ensures op.Cancel? && op.id in old(active) ==> op.id.sequence in deleted && log == old(log).Recorded(op.id.sequence, false)
      ensures op.Create? && op.at !in old(heap) ==> op.at in heap && heap[op.at] == Timer(op.when, op.interval, old(numCreated) + 1)
      ensures op.Add? && op.addr in old(heap) && op.addr in old(place) && old(place)[op.addr] == Pending ==>
        op.addr in heap && TimerId(op.addr, heap[op.addr].sequence) in active
      ensures op.Cancel? && calling && op.id !in old(active) ==> op.id in canceling
      ensures op.Cancel? && calling && IsInFlight(old(State()), op.id) ==> op.id.sequence in log.cancelled
    {
      hide Books.Right, LogRight, Noted, IsInFlight;
      match op
      case Create(when, interval, at) =>
        if at !in heap {
          var _ := CreateTimer(when, interval, at);
        }
      case Add(addr, now) =>
        if addr in heap && addr in place && place[addr] == Pending {
          AddTimerInLoop(addr, now);
        }
      case Cancel(id) => CancelInLoop(id);
    }

    method EraseActive(expired: seq<Entry>)
      requires forall i :: 0 <= i < |expired| ==> expired[i].addr in heap
      modifies `active
      ensures active == old(active) - Ids(heap, expired)
    {
      for i := 0 to |expired|
        invariant active == old(active) - Ids(heap, expired[..i])
      {
        var id := TimerId(expired[i].addr, heap[expired[i].addr].sequence);
        assert Ids(heap, expired[..i + 1]) == Ids(heap, expired[..i]) + {id};
        active := active - {id};
      }
      assert expired[..|expired|] == expired;
    }

    /** Takes the expired entries, all of them and in order, out of both sets. An empty queue has none. */
    method GetExpired(now: int) returns (expired: seq<Entry>, check: Check)
      requires State().Right() && batch == []
      modifies `timers, `active, `place, `batch
      ensures State().Right() && batch == expired && Sorted(expired)
      ensures old(timers) == expired + timers
      ensures forall i :: 0 <= i < |expired| ==> expired[i].when <= now && expired[i].addr in heap
      ensures forall i :: 0 <= i < |timers| ==> now < timers[i].when
      ensures active == old(active) - Ids(heap, expired)
      ensures check == if old(timers) == [] then PastTheEnd else Holds
    {
      hide Books.Right, Ids, InFlightPlaces, CheckExpired, ExpiredCount;
      ghost var b := State();
      FactsOf(b);
      var end := ExpiredCount(timers, now);
      PastTheEndIffEmpty(timers, now);
      check := CheckExpired(timers, end, now);
      ExpireKeeps(b, end);
      expired := timers[..end];
      timers := timers[end..];
      EraseActive(expired);
      batch := expired;
      place := InFlightPlaces(place, expired);
      assert State() == b.Expired(end);
    }

    /** Runs one timer of the batch. */
    ghost method RunTimer(s: nat)
      requires Valid() && s !in deleted && NotSince(log.ran, s, log.base)
      modifies `log
      ensures Valid() && log == old(log).(ran := old(log).ran + [s])
    {
      RunKeepsLog(log, s, deleted, Noted(State(), canceling));
      hide Books.Right, LogRight, Noted;
      log := log.(ran := log.ran + [s]);
    }

    /** Runs the expired timers in order; each callback performs its part of the script. */
    method RunCallbacks(expired: seq<Entry>, script: seq<seq<Op>>)
      requires Valid() && calling && batch == expired && log.base == |log.ran|
      requires forall i :: 0 <= i < |expired| ==> expired[i].addr in heap
      modifies `heap, `numCreated, `timers, `active, `canceling, `armed, `armedAt, `place, `home, `deleted, `batch, `log
      ensures Valid() && Undisturbed(old(State()), State()) && log.KeepsCancelled(old(log))
      ensures log.ran == old(log).ran + Sequences(old(heap), expired)
      ensures forall k, e :: 0 <= k < |expired| && k < |script| && e in expired && Cancel(old(State()).Id(e)) in script[k] ==> old(State()).Id(e) in canceling
      ensures forall k, id :: 0 <= k < |expired| && k < |script| && id in old(active) && Cancel(id) in script[k] ==> id.sequence in deleted
    {
      hide Books.Right, LogRight, Noted;
      ghost var all := Sequences(heap, expired);
      SequencesDiffer(State());
      for i := 0 to |expired|
        invariant Valid() && Undisturbed(old(State()), State()) && log.KeepsCancelled(old(log))
        invariant log.base == |old(log).ran| && log.ran == old(log).ran + all[..i]
        invariant forall id :: id in old(active) ==> id in active || id.sequence in deleted
        invariant forall k, e :: 0 <= k < i && k < |script| && e in expired && Cancel(old(State()).Id(e)) in script[k] ==> old(State()).Id(e) in canceling
        invariant forall k, id :: 0 <= k < i && k < |script| && id in old(active) && Cancel(id) in script[k] ==> id.sequence in deleted
      {
        assert heap[expired[i].addr] == old(heap)[expired[i].addr];
        assert all[..i + 1] == all[..i] + [all[i]];
        FactsOf(State());
        RunTimer(all[i]);
        PerformAll(if i < |script| then script[i] else []);
      }
    }

    method PerformAll(ops: seq<Op>)
      requires Valid()
      modifies `heap, `numCreated, `timers, `active, `canceling, `armed, `armedAt, `place, `home, `deleted, `batch, `log
      ensures Valid() && Undisturbed(old(State()), State()) && old(canceling) <= canceling && log.Extends(old(log))
      ensures forall id :: id in old(active) ==> id in active || id.sequence in deleted
      ensures forall id :: id in old(active) && Cancel(id) in ops ==> id.sequence in deleted
      ensures calling ==> forall e :: e in batch && e.addr in old(heap) && Cancel(old(State()).Id(e)) in ops ==> old(State()).Id(e) in canceling
    {
      hide Books.Right, LogRight, Noted, IsInFlight;
      for j := 0 to |ops|
        invariant Valid() && Undisturbed(old(State()), State()) && old(canceling) <= canceling && log.Extends(old(log))
        invariant forall id :: id in old(active) ==> id in active || id.sequence in deleted
        invariant forall id :: id in old(active) && Cancel(id) in ops[..j] ==> id.sequence in deleted
        invariant calling ==> forall e :: e in batch && e.addr in old(heap) && Cancel(old(State()).Id(e)) in ops[..j] ==> old(State()).Id(e) in canceling
      {
        InFlightIsNotActive(State());
        assert ops[..j + 1] == ops[..j] + [ops[j]];
        Perform(ops[j]);
      }
      assert ops[..|ops|] == ops;
    }

    /** What becomes of a timer `t` that has run: queued again for an interval from `now`, or deleted if it does not repeat or was cancelled. */
    ghost predicate Settled(t: Timer, addr: Address, now: int)
      reads this
    {
      if t.Repeats() && TimerId(addr, t.sequence) !in canceling then
        && addr in heap && TimerId(addr, t.sequence) in active
        && heap[addr] == t.(expiration := heap[addr].expiration) && IsDue(heap[addr].expiration, now, t.interval)
      else t.sequence in deleted
    }

    method RequeueFirst(addr: Address, now: int)
      requires State().Right() && batch != [] && batch[0].addr == addr && addr in heap
      requires WillBeArmed() && now > 0 && heap[addr].Repeats()
      modifies `heap, `timers, `active, `place, `batch
      ensures State().Right() && WillBeArmed() && batch == old(batch)[1..]
      ensures heap == old(heap)[addr := old(heap)[addr].Restarted(now)]
      ensures active == old(active) + {TimerId(addr, heap[addr].sequence)}
    {
      hide Books.Right;
      ghost var b := State();
      FirstIsInFlight(b);
      RestartKeeps(b, addr, now);
      heap := heap[addr := heap[addr].Restarted(now)];
      assert State() == b.Restarted(addr, now);
      var _ := Insert(addr);
    }

    method DeleteFirst(addr: Address)
      requires State().Right() && batch != [] && batch[0].addr == addr && addr in heap
      modifies `heap, `place, `home, `deleted, `batch
      ensures State().Right() && batch == old(batch)[1..]
      ensures heap == old(heap) - {addr} && deleted == old(deleted) + {old(heap)[addr].sequence}
    {
      hide Books.Right;
      ghost var b := State();
      FirstIsInFlight(b);
      DeleteExpiredKeeps(b, addr);
      var sequence := heap[addr].sequence;
      heap, place, home, deleted := heap - {addr}, place - {addr}, home - {sequence}, deleted + {sequence};
      batch := batch[1..];
      assert State() == b.Deleted(addr);
    }

    method Reset(expired: seq<Entry>, now: int, later: int)
      requires State().Right() && Logged() && batch == expired && WillBeArmed() && now > 0 && !calling
      requires forall i :: 0 <= i < |expired| ==> expired[i].addr in heap
      modifies `heap, `timers, `active, `place, `home, `deleted, `batch, `armed, `armedAt
      ensures Valid() && old(deleted) <= deleted
      ensures forall i :: 0 <= i < |expired| ==> Settled(old(heap)[expired[i].addr], expired[i].addr, now)
    {
      hide Books.Right, LogRight, Noted;
      ghost var was := heap;
      FactsOf(State());
      for i := 0 to |expired|
        invariant State().Right() && Logged() && batch == expired[i..] && WillBeArmed() && old(deleted) <= deleted
        invariant forall j :: 0 <= j < i ==> Settled(was[expired[j].addr], expired[j].addr, now)
        invariant forall j :: i <= j < |expired| ==> expired[j].addr in heap && heap[expired[j].addr] == was[expired[j].addr]
      {
        SettleFirst(expired[i].addr, now);
      }
      if timers != [] {
        FactsOf(State());
        assert EntryRight(heap, active, timers[0]);
        var nextExpire := heap[timers[0].addr].expiration;
        if nextExpire > 0 {
          ResetTimerfd(nextExpire, later);
        }
      }
    }

    method SettleFirst(addr: Address, now: int)
      requires State().Right() && Logged() && batch != [] && batch[0].addr == addr && addr in heap && WillBeArmed() && now > 0
      modifies `heap, `timers, `active, `place, `home, `deleted, `batch
      ensures State().Right() && Logged() && WillBeArmed() && batch == old(batch)[1..] && old(deleted) <= deleted
      ensures Settled(old(heap)[addr], addr, now)
      ensures old(active) <= active && forall a :: a in old(heap) && a != addr ==> a in heap && heap[a] == old(heap)[a]
    {
      hide Books.Right, LogRight, Noted, Sorted;
      ghost var b := State();
      var timer := heap[addr];
      if timer.Repeats() && TimerId(addr, timer.sequence) !in canceling {
        RestartedIsDue(timer, now);
        RequeueFirst(addr, now);
      } else {
        DeleteFirst(addr);
      }
      FirstSettled(b, State(), canceling, log);
    }

    /** The part of the expiry before the callbacks: the descriptor is read, and what has expired is in flight. */
    method StartExpiry(now: int) returns (expired: seq<Entry>, check: Check)
      requires Valid() && !calling && now > 0
      modifies `timers, `active, `place, `batch, `armed, `calling, `canceling, `log
      ensures Valid() && calling && canceling == {} && batch == expired && Sorted(expired) && old(timers) == expired + timers
      ensures forall i :: 0 <= i < |expired| ==> expired[i].when <= now && expired[i].addr in heap
      ensures forall i :: 0 <= i < |timers| ==> now < timers[i].when
      ensures active == old(active) - Ids(heap, expired)
      ensures log == old(log).(base := |old(log).ran|)
      ensures check == if old(timers) == [] then PastTheEnd else Holds
    {
      hide Books.Right, LogRight, Noted, Sorted, Ids;
      NotedEmpty(State(), canceling);
      StartKeepsLog(log, deleted);
      if armed.Some? && armed.value <= now {
        armed := None;
      }
      expired, check := GetExpired(now);
      calling := true;
      canceling := {};
      log := log.(base := |log.ran|);
      NotedEmpty(State(), canceling);
    }

    /**
     The descriptor has become readable at `now`. The timers that have expired by then are run, each once and
     in order of expiration, and settled; no timer that was deleted before is among them. A timer that was
     queued, whether it has expired or not, is deleted if a callback cancels it.
     */
    method HandleRead(now: int, later: int, script: seq<seq<Op>>) returns (expired: seq<Entry>, check: Check)
      requires Valid() && !calling && now > 0
      modifies this
      ensures Valid() && !calling && old(deleted) <= deleted && log.KeepsCancelled(old(log))
      ensures check == if old(timers) == [] then PastTheEnd else Holds
      ensures expired <= old(timers) && Sorted(expired)
      ensures forall i :: 0 <= i < |old(timers)| ==> (i < |expired| <==> old(timers)[i].when <= now)
      ensures forall i :: 0 <= i < |expired| ==> expired[i].addr in old(heap) && old(heap)[expired[i].addr].sequence !in old(deleted)
      ensures forall i :: 0 <= i < |expired| ==> Settled(old(heap)[expired[i].addr], expired[i].addr, now)
      ensures log.ran == old(log).ran + Sequences(old(heap), expired)
      ensures forall i, j :: |old(log).ran| <= i < j < |log.ran| ==> log.ran[i] != log.ran[j]
      ensures forall k, id :: 0 <= k < |expired| && k < |script| && id in old(active) && Cancel(id) in script[k] ==> id.sequence in deleted
    {
      hide Books.Right, LogRight, Noted;
      expired, check := StartExpiry(now);
      ghost var b := State();
      SequencesDiffer(b);
      RunCallbacks(expired, script);
      calling := false;
      ghost var was, noted := heap, canceling;
      assert forall i :: 0 <= i < |expired| ==> was[expired[i].addr] == old(heap)[expired[i].addr];
      Reset(expired, now, later);
      forall k, id | 0 <= k < |expired| && k < |script| && id in old(active) && Cancel(id) in script[k] ensures id.sequence in deleted {
        if id !in b.active {
          var i :| 0 <= i < |expired| && id == TimerId(expired[i].addr, b.heap[expired[i].addr].sequence);
          assert b.Id(expired[i]) == id && id in noted;
        }
      }
    }

    /**
     Any sequence of additions, cancellations and expiries, with any callbacks. The queue stays consistent, no
     timer is stranded, and a timer that was deleted when the run began is not run in the course of it. A timer
     that is cancelled anywhere in the run is deleted at the end of it and, if it was queued, not run any more;
     if it was in flight, it is run at most once more.
     */
    method Run(events: seq<Event>)
      requires Valid() && !calling && forall i :: 0 <= i < |events| ==> events[i].Expire? ==> events[i].now > 0
      modifies this
      ensures Valid() && !calling && old(deleted) <= deleted && old(log).ran <= log.ran && log.KeepsCancelled(old(log))
      ensures forall i :: |old(log).ran| <= i < |log.ran| ==> log.ran[i] !in old(deleted)
      ensures forall s :: s in log.cancelled ==> s in deleted && log.Honoured(s)
    {
      hide Books.Right;
      for k := 0 to |events|
        invariant Valid() && !calling && old(deleted) <= deleted && old(log).ran <= log.ran && log.KeepsCancelled(old(log))
        invariant forall i :: |old(log).ran| <= i < |log.ran| ==> log.ran[i] !in old(deleted)
      {
        hide LogRight, Noted;
        match events[k] {
          case Do(op) => Perform(op);
          case Expire(now, later, script) => var _, _ := HandleRead(now, later, script);
        }
      }
      NotedEmpty(State(), canceling);
    }

    /** A timer that is cancelled while it is queued is deleted, and is not run again whatever happens. */
    method CancelledNeverRuns(id: TimerId, events: seq<Event>)
      requires Valid() && !calling && id in active
      requires forall i :: 0 <= i < |events| ==> events[i].Expire? ==> events[i].now > 0
      modifies this
      ensures id.sequence in deleted && old(log).ran <= log.ran
      ensures NotSince(log.ran, id.sequence, |old(log).ran|)
    {
      hide Books.Right, LogRight, Noted;
      CancelInLoop(id);
      Run(events);
    }

    /**
     The same for a timer that is queued when an expiry begins and is cancelled by one of its callbacks. If it is
     part of the batch itself, it is run in it, once, and never after; if not, it is not run again.
     */
    method CancelledByCallback(now: int, later: int, script: seq<seq<Op>>, k: nat, id: TimerId, events: seq<Event>)
      returns (expired: seq<Entry>)
      requires Valid() && !calling && id in active && now > 0
      requires Sorted(timers) && k < ExpiredCount(timers, now) && k < |script| && Cancel(id) in script[k]
      requires forall i :: 0 <= i < |events| ==> events[i].Expire? ==> events[i].now > 0
      modifies this
      ensures id.sequence in deleted && old(log).ran <= log.ran && id.addr in old(heap)
      ensures |expired| == ExpiredCount(old(timers), now) && |old(log).ran| + |expired| <= |log.ran|
      ensures NotSince(log.ran, id.sequence, |old(log).ran| + |expired|)
      ensures AtMostOnceSince(log.ran, id.sequence, |old(log).ran|)
      ensures now < old(heap)[id.addr].expiration ==> NotSince(log.ran, id.sequence, |old(log).ran|)
    {
      hide Books.Right, LogRight, Noted;
      ghost var b := State();
      ActiveIsQueued(b, id);
      ghost var n := ExpiredCount(timers, now);
      var check;
      expired, check := HandleRead(now, later, script);
      assert n < |b.timers| ==> now < b.timers[n].when;
      assert |expired| < |b.timers| ==> now < b.timers[|expired|].when;
      ghost var ran := log.ran;
      NotExpiredNotRun(b, expired, now, id);
      Run(events);
      assert forall i :: 0 <= i < |ran| ==> log.ran[i] == ran[i];
    }
  }

  datatype Event = Do(op: Op) | Expire(now: int, later: int, script: seq<seq<Op>>)

  /** Cancelling does not disarm the descriptor, so an expiry can find the queue empty. */
  method EmptyExpiryIsReachable(when: int, now: int, addr: Address, later: int) returns (q: TimerQueue, check: Check)
    requires later > 0
    ensures q.Valid() && !q.calling && check == PastTheEnd
  {
    hide Books.Right, LogRight, Noted;
    q := new TimerQueue();
    var id := q.CreateTimer(when, 0.0, addr);
    q.AddTimerInLoop(addr, now);
    assert id in q.active && q.timers != [];
    q.CancelInLoop(id);
    assert q.heap == map[];
    FactsOf(q.State());
    assert q.timers != [] ==> EntryRight(q.heap, q.active, q.timers[0]);
    assert q.timers == [] && q.armed.Some?;
    var expired;
    expired, check := q.HandleRead(later, later, []);
  }
}
