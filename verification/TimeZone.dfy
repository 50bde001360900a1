/**
 Calendar time and time zones (dc/base/timeZone.cc).

 A zone is a table of transitions, each with its UTC time and with the local time that starts there.
 The table itself is read from a zone file, which is not part of this model.
 */
module TimeZone {
  import opened Arithmetic
  import opened Date
  import opened Options

  const EPOCH_DAY: int32 := 2440588

  /** Seconds since the epoch whose day number lies between FIRST_JDN and LAST_JDN. */
  predicate InTimeRange(t: int) {
    -2472632 * 86400 <= t < 534398280 * 86400
  }

  datatype DateTime = DateTime(date: YearMonthDay, hour: int, minute: int, second: int)

  predicate ValidDateTime(dt: DateTime) {
    InRange(dt.date) && 0 <= dt.hour < 24 && 0 <= dt.minute < 60 && 0 <= dt.second < 60
  }

  // ----- broken-down time

  function BreakTime(t: int): (dt: DateTime)
    requires InTimeRange(t)
  {
    var seconds := TruncMod(t, 86400);
    var days := TruncDiv(t, 86400);
    FloorOfTrunc(t);
    var (seconds, days) := if seconds < 0 then (seconds + 86400, days - 1) else (seconds, days);
    var minutes := seconds / 60;
    DateTime(DateOf(days as int32 + EPOCH_DAY), minutes / 60, minutes % 60, seconds % 60)
  }

  function DaysSinceEpoch(d: YearMonthDay): int
    requires InRange(d)
  {
    (JulianDayNumber(d) - EPOCH_DAY) as int
  }

  function FromUtcTime(dt: DateTime): int
    requires InRange(dt.date)
  {
    DaysSinceEpoch(dt.date) * 86400 + dt.hour * 3600 + dt.minute * 60 + dt.second
  }

  /** The source's adjustment of the truncated quotient gives the day that contains `t`. */
  lemma FloorOfTrunc(t: int)
    ensures var s, d := TruncMod(t, 86400), TruncDiv(t, 86400);
            if s < 0 then s + 86400 == t % 86400 && d - 1 == t / 86400
            else s == t % 86400 && d == t / 86400
  {
    var s, d := TruncMod(t, 86400), TruncDiv(t, 86400);
    if s < 0 {
      Division(t, 86400, d - 1, s + 86400);
    } else {
      Division(t, 86400, d, s);
    }
  }

  lemma BreakTimeParts(t: int)
    requires InTimeRange(t)
    ensures FIRST_JDN - EPOCH_DAY as int <= t / 86400 <= LAST_JDN - EPOCH_DAY as int
    ensures var s := t % 86400;
            BreakTime(t) == DateTime(DateOf((t / 86400) as int32 + EPOCH_DAY), s / 60 / 60, s / 60 % 60, s % 60)
  {
    FloorOfTrunc(t);
  }

  lemma FromUtcTimeParts(dt: DateTime, days: int, seconds: int)
    requires InRange(dt.date) && DaysSinceEpoch(dt.date) == days
    requires dt.hour * 3600 + dt.minute * 60 + dt.second == seconds
    ensures FromUtcTime(dt) == days * 86400 + seconds
  {
  }

  lemma BrokenDownDate(t: int)
    requires InTimeRange(t)
    ensures InRange(BreakTime(t).date)
    ensures DaysSinceEpoch(BreakTime(t).date) == t / 86400
  {
    BreakTimeParts(t);
    DayNumberRoundTrip((t / 86400) as int32 + EPOCH_DAY);
  }

  lemma BrokenDownClock(t: int)
    requires InTimeRange(t)
    ensures var dt := BreakTime(t);
            && 0 <= dt.hour < 24 && 0 <= dt.minute < 60 && 0 <= dt.second < 60
            && dt.hour * 3600 + dt.minute * 60 + dt.second == t % 86400
  {
    BreakTimeParts(t);
    ClockRoundTrip(t % 86400);
  }

  /** Breaking a time down, positive or negative, and putting it together again gives the same time. */
  lemma TimeRoundTrip(t: int)
    requires InTimeRange(t)
    ensures ValidDateTime(BreakTime(t)) && FromUtcTime(BreakTime(t)) == t
  {
    BrokenDownDate(t);
    BrokenDownClock(t);
    FromUtcTimeParts(BreakTime(t), t / 86400, t % 86400);
  }

  lemma ClockRoundTrip(seconds: int)
    requires 0 <= seconds < 86400
    ensures var m := seconds / 60; 0 <= m / 60 < 24 && m / 60 * 3600 + m % 60 * 60 + seconds % 60 == seconds
  {
  }

  lemma ClockParts(hour: int, minute: int, second: int)
    requires 0 <= hour < 24 && 0 <= minute < 60 && 0 <= second < 60
    ensures var s := hour * 3600 + minute * 60 + second;
            0 <= s < 86400 && s / 60 / 60 == hour && s / 60 % 60 == minute && s % 60 == second
  {
    Division(hour * 3600 + minute * 60 + second, 60, hour * 60 + minute, second);
    Division(hour * 60 + minute, 60, hour, minute);
  }

  /** Conversely, a valid broken-down time is recovered field by field. */
  lemma DateTimeRoundTrip(dt: DateTime, t: int)
    requires ValidDateTime(dt) && JulianDayNumber(dt.date) as int <= LAST_JDN
    requires t == FromUtcTime(dt)
    ensures InTimeRange(t) && BreakTime(t) == dt
  {
    var days := DaysSinceEpoch(dt.date);
    assert t == days * 86400 + dt.hour * 3600 + dt.minute * 60 + dt.second;
    BreakTimeOfFields(dt, days, t) by { DateOfDays(dt.date); }
  }

  lemma BreakTimeOfFields(dt: DateTime, days: int, t: int)
    requires FIRST_JDN <= days + EPOCH_DAY as int <= LAST_JDN && dt.date == DateOf(days as int32 + EPOCH_DAY)
    requires 0 <= dt.hour < 24 && 0 <= dt.minute < 60 && 0 <= dt.second < 60
    requires t == days * 86400 + dt.hour * 3600 + dt.minute * 60 + dt.second
    ensures InTimeRange(t) && BreakTime(t) == dt
  {
    ClockParts(dt.hour, dt.minute, dt.second);
    BreakTimeOfSum(days, dt.hour * 3600 + dt.minute * 60 + dt.second);
  }

  lemma DateOfDays(d: YearMonthDay)
    requires InRange(d) && JulianDayNumber(d) as int <= LAST_JDN
    ensures FIRST_JDN <= DaysSinceEpoch(d) + EPOCH_DAY as int <= LAST_JDN
    ensures DateOf(DaysSinceEpoch(d) as int32 + EPOCH_DAY) == d
  {
    DateRoundTrip(d);
  }

  lemma BreakTimeOfSum(days: int, seconds: int)
    requires 0 <= seconds < 86400 && FIRST_JDN <= days + EPOCH_DAY as int <= LAST_JDN
    ensures var t := days * 86400 + seconds;
            && InTimeRange(t)
            && BreakTime(t) == DateTime(DateOf(days as int32 + EPOCH_DAY), seconds / 60 / 60, seconds / 60 % 60, seconds % 60)
  {
    var t := days * 86400 + seconds;
    Division(t, 86400, days, seconds);
    BreakTimeParts(t);
  }

  // ----- the transition table

  datatype LocalTime = LocalTime(utcOffset: int, isDst: bool, desigIdx: int)
  datatype Transition = Transition(utctime: int, localtime: int, localtimeIdx: nat)

  datatype Data = Data(transitions: seq<Transition>, localtimes: seq<LocalTime>)
  {
    /** Fails, as the checked access in the source throws, when there is no such local time. */
    function AddTransition(utcTime: int, localIdx: nat): (r: Option<Data>)
      ensures r.Some? <==> localIdx < |localtimes|
      ensures r.Some? && Built() ==> r.value.Built()
      ensures r.Some? ==>
        && r.value.localtimes == localtimes && |r.value.transitions| == |transitions| + 1
        && r.value.transitions[..|transitions|] == transitions
        && r.value.transitions[|transitions|].utctime == utcTime && r.value.transitions[|transitions|].localtimeIdx == localIdx
    {
      if localIdx < |localtimes| then
        Some(this.(transitions := transitions + [Transition(utcTime, utcTime + localtimes[localIdx].utcOffset, localIdx)]))
      else None
    }

    /** What AddTransition establishes of every transition. */
    predicate Built() {
      forall i :: 0 <= i < |transitions| ==> Linked(transitions[i])
    }

    predicate Linked(tr: Transition) {
      tr.localtimeIdx < |localtimes| && tr.localtime == tr.utctime + localtimes[tr.localtimeIdx].utcOffset
    }

    /** Offset in force from transition `i` on; before the first transition that of the first local time. */
    function Off(i: int): int
      requires Built() && |localtimes| > 0 && -1 <= i < |transitions|
    {
      if i == -1 then localtimes[0].utcOffset else localtimes[transitions[i].localtimeIdx].utcOffset
    }

    function Utc(i: nat): int
      requires i < |transitions|
    {
      transitions[i].utctime
    }

    function Local(i: nat): (r: int)
      requires Built() && |localtimes| > 0 && i < |transitions|
      ensures r == Utc(i) + Off(i)
    {
      transitions[i].localtime
    }

    /** The local times that transition `i` skips or repeats are those from Lo(i) up to Hi(i). */
    function Lo(i: nat): int
      requires Built() && |localtimes| > 0 && i < |transitions|
    {
      Utc(i) + if Off(i) < Off(i - 1) then Off(i) else Off(i - 1)
    }

    function Hi(i: nat): int
      requires Built() && |localtimes| > 0 && i < |transitions|
    {
      Utc(i) + if Off(i) < Off(i - 1) then Off(i - 1) else Off(i)
    }

    /** Transitions sorted by UTC time, with skipped and repeated windows that do not meet. */
    predicate Valid() {
      && |localtimes| > 0
      && Built()
      && (forall i, j :: 0 <= i < j < |transitions| ==> Utc(i) < Utc(j))
      && (forall i, j :: 0 <= i < j < |transitions| ==> Hi(i) <= Lo(j))
    }
  }

  /** std::upper_bound over the transitions' UTC times: the first transition later than `t`. */
  function UpperBoundUtc(data: Data, t: int, from: nat): (k: nat)
    requires from <= |data.transitions|
    ensures from <= k <= |data.transitions|
    ensures forall i :: from <= i < k ==> data.transitions[i].utctime <= t
    ensures k < |data.transitions| ==> t < data.transitions[k].utctime
    decreases |data.transitions| - from
  {
    if from == |data.transitions| || t < data.transitions[from].utctime then from else UpperBoundUtc(data, t, from + 1)
  }

  function UpperBoundLocal(data: Data, t: int, from: nat): (k: nat)
    requires from <= |data.transitions|
    ensures from <= k <= |data.transitions|
    ensures forall i :: from <= i < k ==> data.transitions[i].localtime <= t
    ensures k < |data.transitions| ==> t < data.transitions[k].localtime
    decreases |data.transitions| - from
  {
    if from == |data.transitions| || t < data.transitions[from].localtime then from else UpperBoundLocal(data, t, from + 1)
  }

  /** Neither search returns the first transition when the time is not before it. */
  lemma UpperBoundIsPastBegin(data: Data, t: int)
    requires data.transitions != []
    ensures data.transitions[0].utctime <= t ==> UpperBoundUtc(data, t, 0) > 0
    ensures data.transitions[0].localtime <= t ==> UpperBoundLocal(data, t, 0) > 0
  {
  }

  // ----- lookup

  function FindLocalTime(data: Data, utcTime: int): LocalTime
    requires data.Built() && |data.localtimes| > 0
  {
    var ts := data.transitions;
    if ts == [] || utcTime < ts[0].utctime then data.localtimes[0]
    else
      var k := UpperBoundUtc(data, utcTime, 0);
      if k < |ts| then data.localtimes[ts[k - 1].localtimeIdx] else data.localtimes[ts[|ts| - 1].localtimeIdx]
  }

  /**
   The local time in force at local second `localtime`. A skipped local time takes the offset before
   the transition, or the one after it if `postTransition`; so does a repeated one. After the step back,
   the source leaves the previous transition as it was when it has reached the first one.
   */
  function FindLocalTimeByLocal(data: Data, localtime: int, postTransition: bool): LocalTime
    requires data.Built() && |data.localtimes| > 0
  {
    var ts := data.transitions;
    if ts == [] || localtime < ts[0].localtime then data.localtimes[0]
    else
      var k := UpperBoundLocal(data, localtime, 0);
      if k == |ts| then data.localtimes[ts[|ts| - 1].localtimeIdx]
      else
        var prior := ts[k - 1];
        var priorSecond := ts[k].utctime - 1 + data.localtimes[prior.localtimeIdx].utcOffset;
        if priorSecond < localtime then
          data.localtimes[(if postTransition then ts[k] else prior).localtimeIdx]
        else
          var i := k - 1;
          var prior := if i > 0 then ts[i - 1] else prior;
          var priorSecond := if i > 0 then ts[i].utctime - 1 + data.localtimes[prior.localtimeIdx].utcOffset else priorSecond;
          if localtime <= priorSecond then
            data.localtimes[(if postTransition then ts[i] else prior).localtimeIdx]
          else
            data.localtimes[ts[i].localtimeIdx]
  }

  function LocalSeconds(data: Data, t: int): int
    requires data.Built() && |data.localtimes| > 0
  {
    t + FindLocalTime(data, t).utcOffset
  }

  function FromLocalSeconds(data: Data, localtime: int, postTransition: bool): int
    requires data.Built() && |data.localtimes| > 0
  {
    localtime - FindLocalTimeByLocal(data, localtime, postTransition).utcOffset
  }

  function ToLocalTime(data: Data, t: int): DateTime
    requires data.Built() && |data.localtimes| > 0 && InTimeRange(LocalSeconds(data, t))
  {
    BreakTime(LocalSeconds(data, t))
  }

  function FromLocalTime(data: Data, dt: DateTime, postTransition: bool): int
    requires data.Built() && |data.localtimes| > 0 && InRange(dt.date)
  {
    FromLocalSeconds(data, FromUtcTime(dt), postTransition)
  }

  // ----- what the two lookups have to do with each other

  /** Transition whose offset is in force at UTC time `t`, or -1 before the first. */
  ghost function Segment(data: Data, t: int): (i: int)
    requires data.Valid()
    ensures -1 <= i < |data.transitions|
    ensures FindLocalTime(data, t).utcOffset == data.Off(i)
    ensures i >= 0 ==> data.Utc(i) <= t
    ensures i + 1 < |data.transitions| ==> t < data.Utc(i + 1)
  {
    if data.transitions == [] || t < data.Utc(0) then -1 else UpperBoundUtc(data, t, 0) - 1
  }

  /** `t` is a UTC time at which the zone's clocks show `localtime`. */
  ghost predicate Reads(data: Data, t: int, localtime: int)
    requires data.Valid()
  {
    LocalSeconds(data, t) == localtime
  }

  /** At `t` the clocks already show the local time of the first, or of the last, transition, which is still to come. */
  predicate Lost(data: Data, t: int)
    requires data.Built() && |data.localtimes| > 0
  {
    && data.transitions != []
    && var first, last := data.transitions[0], data.transitions[|data.transitions| - 1];
       var localtime := LocalSeconds(data, t);
       || (t < first.utctime && first.localtime <= localtime)
       || (t < last.utctime && last.localtime <= localtime)
  }

  /** Where the search by local time ends, for the local time read in segment `i`. */
  lemma SearchFromSegment(data: Data, t: int, i: int)
    requires data.Valid() && i == Segment(data, t) && |data.transitions| > 0
    ensures var k := UpperBoundLocal(data, t + data.Off(i), 0);
            if i + 1 < |data.transitions| && data.Local(i + 1) <= t + data.Off(i) then k == i + 2 else k == i + 1
  {
    var l := t + data.Off(i);
    var k := UpperBoundLocal(data, l, 0);
    forall j | 0 <= j < |data.transitions| && j <= i ensures data.transitions[j].localtime <= l {
      if j < i {
        assert data.Local(j) <= data.Hi(j) <= data.Lo(i) <= data.Local(i);
      }
    }
    if i + 2 < |data.transitions| {
      assert l < data.Utc(i + 1) + data.Off(i) <= data.Hi(i + 1) <= data.Lo(i + 2) <= data.Local(i + 2);
    }
  }

  /** The offset found for local time `l`, read in segment `i`. */
  ghost function OffsetFrom(data: Data, i: int, l: int, post: bool): int
    requires data.Valid() && -1 <= i < |data.transitions|
  {
    var n := |data.transitions|;
    if i + 1 < n && data.Local(i + 1) <= l then
      (if i == -1 || i + 2 == n || post then data.Off(i + 1) else data.Off(i))
    else if 0 < i && i + 1 < n && l < data.Utc(i) + data.Off(i - 1) then
      (if post then data.Off(i) else data.Off(i - 1))
    else data.Off(i)
  }

  lemma OffsetFromSegment(data: Data, t: int, i: int, post: bool)
    requires data.Valid() && i == Segment(data, t)
    ensures var l := t + data.Off(i);
            FindLocalTimeByLocal(data, l, post).utcOffset == OffsetFrom(data, i, l, post)
  {
    if |data.transitions| > 0 {
      SearchFromSegment(data, t, i);
      var l := t + data.Off(i);
      if i + 2 < |data.transitions| && data.Local(i + 1) <= l {
        assert l < data.Hi(i + 1) <= data.Lo(i + 2) <= data.Utc(i + 2) + data.Off(i + 1);
      }
    }
  }

  /**
   Converting a time to local time and back gives that time, for some choice of `postTransition`,
   exactly when it is not lost at the first or the last transition.
   */
  lemma RoundTripUnlessLost(data: Data, t: int)
    requires data.Valid()
    ensures (exists post :: FromLocalSeconds(data, LocalSeconds(data, t), post) == t) <==> !Lost(data, t)
  {
    var i, l := Segment(data, t), LocalSeconds(data, t);
    LostBySegment(data, t, i);
    if Lost(data, t) {
      forall post ensures FromLocalSeconds(data, l, post) != t {
        OffsetFromSegment(data, t, i, post);
      }
    } else {
      var post := !(i + 1 < |data.transitions| && data.Local(i + 1) <= l);
      OffsetFromSegment(data, t, i, post);
      assert FromLocalSeconds(data, l, post) == t;
    }
  }

  /** A time that is lost: an hour before a zone's only transition, which sets the clocks back by an hour. */
  lemma LostExample()
    ensures var data := Data([Transition(7200, 7200, 1)], [LocalTime(3600, true, 0), LocalTime(0, false, 0)]);
            && data.Valid() && Lost(data, 3600)
            && FromLocalSeconds(data, LocalSeconds(data, 3600), false) == FromLocalSeconds(data, LocalSeconds(data, 3600), true) == 7200
  {
    var data := Data([Transition(7200, 7200, 1)], [LocalTime(3600, true, 0), LocalTime(0, false, 0)]);
    assert UpperBoundLocal(data, 7200, 0) == 1;
  }

  lemma LostBySegment(data: Data, t: int, i: int)
    requires data.Valid() && i == Segment(data, t)
    ensures Lost(data, t) <==>
      i + 1 < |data.transitions| && data.Local(i + 1) <= t + data.Off(i) && (i == -1 || i + 2 == |data.transitions|)
  {
    var n := |data.transitions|;
    if n > 0 {
      if 0 <= i {
        assert data.Utc(0) <= data.Utc(i) <= t;
      }
      if i + 1 < n - 1 {
        assert t + data.Off(i) < data.Hi(i + 1) || t + data.Off(i) < data.Utc(i + 1) + data.Off(i);
        assert data.Hi(i + 1) <= data.Lo(n - 1) <= data.Local(n - 1);
      }
    }
  }

  lemma SegmentIs(data: Data, t: int, i: nat)
    requires data.Valid() && i < |data.transitions| && data.Utc(i) <= t
    requires i + 1 < |data.transitions| ==> t < data.Utc(i + 1)
    ensures LocalSeconds(data, t) == t + data.Off(i)
  {
    var j := Segment(data, t);
    assert data.Utc(0) <= data.Utc(i);
  }

  /** Inside the window of an overlap, the time after the transition reads the same local time ... */
  lemma ReadsAgainLater(data: Data, u: int, i: int)
    requires data.Valid() && i == Segment(data, u)
    requires i + 1 < |data.transitions| && data.Local(i + 1) <= u + data.Off(i)
    ensures data.Off(i + 1) < data.Off(i)
    ensures Reads(data, u + data.Off(i) - data.Off(i + 1), u + data.Off(i))
  {
    var l := u + data.Off(i);
    if i + 2 < |data.transitions| {
      assert l < data.Hi(i + 1) <= data.Lo(i + 2) <= data.Utc(i + 2) + data.Off(i + 1);
    }
    SegmentIs(data, l - data.Off(i + 1), i + 1);
  }

  /** ... and so does the time before it. */
  lemma ReadsAgainEarlier(data: Data, u: int, i: int)
    requires data.Valid() && i == Segment(data, u)
    requires 0 < i && u + data.Off(i) < data.Utc(i) + data.Off(i - 1)
    ensures data.Off(i) < data.Off(i - 1)
    ensures Reads(data, u + data.Off(i) - data.Off(i - 1), u + data.Off(i))
  {
    var l := u + data.Off(i);
    assert data.Utc(i - 1) + data.Off(i - 1) <= data.Hi(i - 1) <= data.Lo(i) <= l;
    SegmentIs(data, l - data.Off(i - 1), i - 1);
  }

  lemma ConversionReads(data: Data, u: int, i: int, l: int, post: bool)
    requires data.Valid() && i == Segment(data, u) && l == u + data.Off(i)
    ensures var c := l - OffsetFrom(data, i, l, post);
            Reads(data, c, l) && (!Lost(data, u) ==> if post then u <= c else c <= u)
  {
    LostBySegment(data, u, i);
    if i + 1 < |data.transitions| && data.Local(i + 1) <= l {
      ReadsAgainLater(data, u, i);
    } else if 0 < i && i + 1 < |data.transitions| && l < data.Utc(i) + data.Off(i - 1) {
      ReadsAgainEarlier(data, u, i);
    }
  }

  /** The conversions of a local time read at `u` read that local time too, and enclose `u` unless it is lost. */
  lemma ConversionsRead(data: Data, u: int, localtime: int)
    requires data.Valid() && Reads(data, u, localtime)
    ensures Reads(data, FromLocalSeconds(data, localtime, false), localtime)
    ensures Reads(data, FromLocalSeconds(data, localtime, true), localtime)
    ensures !Lost(data, u) ==> FromLocalSeconds(data, localtime, false) <= u <= FromLocalSeconds(data, localtime, true)
  {
    var i := Segment(data, u);
    forall post: bool ensures var c := FromLocalSeconds(data, localtime, post);
        Reads(data, c, localtime) && (!Lost(data, u) ==> if post then u <= c else c <= u) {
      OffsetFromSegment(data, u, i, post);
      ConversionReads(data, u, i, localtime, post);
    }
  }

  /**
   A local time that the clocks show is converted to the earliest UTC time that reads it, or with
   `postTransition` to the latest, among those that are not lost.
   */
  lemma EarliestAndLatest(data: Data, t: int, localtime: int)
    requires data.Valid() && Reads(data, t, localtime)
    ensures var first, last := FromLocalSeconds(data, localtime, false), FromLocalSeconds(data, localtime, true);
            && Reads(data, first, localtime) && !Lost(data, first)
            && Reads(data, last, localtime) && !Lost(data, last)
            && forall u :: Reads(data, u, localtime) && !Lost(data, u) ==> first <= u <= last
  {
    var first, last := FromLocalSeconds(data, localtime, false), FromLocalSeconds(data, localtime, true);
    ConversionsRead(data, t, localtime);
    RoundTripUnlessLost(data, first);
    RoundTripUnlessLost(data, last);
    forall u | Reads(data, u, localtime) && !Lost(data, u) ensures first <= u <= last {
      ConversionsRead(data, u, localtime);
    }
  }

  /** A local time that is shown only once is converted to the time it is shown at, for either choice. */
  lemma UnambiguousLocalTime(data: Data, t: int, post: bool)
    requires data.Valid()
    requires forall u :: Reads(data, u, LocalSeconds(data, t)) ==> u == t
    ensures FromLocalSeconds(data, LocalSeconds(data, t), post) == t
  {
    EarliestAndLatest(data, t, LocalSeconds(data, t));
  }

  lemma NotReadInGap(data: Data, i: nat, localtime: int, t: int)
    requires data.Valid() && i < |data.transitions| && data.Utc(i) + data.Off(i - 1) <= localtime < data.Local(i)
    ensures !Reads(data, t, localtime)
  {
    var j := Segment(data, t);
    hide FindLocalTime;
    if i < j {
      assert localtime < data.Hi(i) <= data.Lo(j) <= data.Local(j);
    } else if j + 1 < i {
      assert t + data.Off(j) < data.Utc(j + 1) + data.Off(j) <= data.Hi(j + 1) <= data.Lo(i) <= localtime;
    }
  }

  /** A local time is skipped, that is, never shown, exactly inside the window of a transition to a larger offset. */
  lemma SkippedIffInGap(data: Data, localtime: int)
    requires data.Valid()
    ensures (forall t :: !Reads(data, t, localtime)) <==>
      exists i :: 0 <= i < |data.transitions| && data.Utc(i) + data.Off(i - 1) <= localtime < data.Local(i)
  {
    var n := |data.transitions|;
    if i :| 0 <= i < n && data.Utc(i) + data.Off(i - 1) <= localtime < data.Local(i) {
      forall t ensures !Reads(data, t, localtime) {
        NotReadInGap(data, i, localtime, t);
      }
    } else if n > 0 && data.Local(0) <= localtime {
      var k := UpperBoundLocal(data, localtime, 0);
      SegmentIs(data, localtime - data.Off(k - 1), k - 1);
      assert Reads(data, localtime - data.Off(k - 1), localtime);
    } else {
      assert Reads(data, localtime - data.Off(-1), localtime);
    }
  }

  /**
   A local time that transition `i` skips is converted as if the clocks had not been advanced yet, to a time after the
   transition, or with `postTransition` as if they had been, to a time before it. At those times they show it later,
   and earlier, by the width of the gap, unless another transition lies in between.
   */
  lemma SkippedConversions(data: Data, i: int, localtime: int)
    requires data.Valid() && 0 < i < |data.transitions|
    requires data.Utc(i) + data.Off(i - 1) <= localtime < data.Local(i)
    ensures var late, early := FromLocalSeconds(data, localtime, false), FromLocalSeconds(data, localtime, true);
            var width := data.Off(i) - data.Off(i - 1);
            && late == localtime - data.Off(i - 1) && data.Utc(i) <= late < data.Utc(i) + width
            && early == localtime - data.Off(i) && data.Utc(i) - width <= early < data.Utc(i)
            && ((i + 1 < |data.transitions| ==> late < data.Utc(i + 1)) ==> LocalSeconds(data, late) == localtime + width)
            && (data.Utc(i - 1) <= early ==> LocalSeconds(data, early) == localtime - width)
  {
    SearchInGap(data, i, localtime);
    var late, early := localtime - data.Off(i - 1), localtime - data.Off(i);
    if i + 1 < |data.transitions| ==> late < data.Utc(i + 1) {
      SegmentIs(data, late, i);
    }
    if data.Utc(i - 1) <= early {
      SegmentIs(data, early, i - 1);
    }
  }

  lemma SearchInGap(data: Data, i: int, localtime: int)
    requires data.Valid() && 0 <= i < |data.transitions|
    requires data.Utc(i) + data.Off(i - 1) <= localtime < data.Local(i)
    ensures UpperBoundLocal(data, localtime, 0) == i
  {
    forall j | 0 <= j < i ensures data.transitions[j].localtime <= localtime {
      assert data.Local(j) <= data.Hi(j) <= data.Lo(i) <= localtime;
    }
  }

  /** At the first transition both choices convert a skipped local time as if the clocks had not been advanced. */
  lemma SkippedAtFirst(data: Data, localtime: int, post: bool)
    requires data.Valid() && |data.transitions| > 0
    requires data.Utc(0) + data.Off(-1) <= localtime < data.Local(0)
    ensures FromLocalSeconds(data, localtime, post) == localtime - data.Off(-1) >= data.Utc(0)
  {
  }

  /** Breaking the local time down and putting it together again changes neither the lookup nor the result. */
  lemma CalendarAgrees(data: Data, t: int, post: bool)
    requires data.Valid() && InTimeRange(LocalSeconds(data, t))
    ensures InRange(ToLocalTime(data, t).date)
    ensures FromLocalTime(data, ToLocalTime(data, t), post) == FromLocalSeconds(data, LocalSeconds(data, t), post)
  {
    TimeRoundTrip(LocalSeconds(data, t));
  }

  /** The round trip through the calendar, for every time whose local time has a date in range. */
  lemma CalendarRoundTrip(data: Data, t: int)
    requires data.Valid() && InTimeRange(LocalSeconds(data, t))
    ensures !Lost(data, t) <==>
      exists post :: InRange(ToLocalTime(data, t).date) && FromLocalTime(data, ToLocalTime(data, t), post) == t
  {
    CalendarAgrees(data, t, false);
    CalendarAgrees(data, t, true);
    RoundTripUnlessLost(data, t);
  }
}
