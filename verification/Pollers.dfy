/**
 The two pollers (dc/net/poller/pollPoller.cc, dc/net/poller/epollPoller.cc).

 A channel is named by a number; its `index` field, which belongs to the poller, is kept in a map
 from those numbers, so that what a poller leaves behind in a channel it has removed is visible.
 */
module Pollers {

  /** A channel as a poller sees it in a call: which one, its file descriptor, its current events. */
  datatype Channel = Channel(id: nat, fd: nat, events: nat)
  {
    predicate IsNoneEvent() {
      events == 0
    }
  }

  datatype Call = Update(channel: Channel) | Remove(channel: Channel)

  type ChannelMap = map<nat, Channel>

  /** The abstract poller: the channel registered for each descriptor. */
  function Applied(channels: ChannelMap, call: Call): ChannelMap {
    match call
    case Update(ch) => channels[ch.fd := ch]
    case Remove(ch) => channels - {ch.fd}
  }

  function AppliedAll(channels: ChannelMap, calls: seq<Call>): ChannelMap {
    if calls == [] then channels else Applied(AppliedAll(channels, calls[..|calls| - 1]), calls[|calls| - 1])
  }

  /** Descriptors to watch, and for what: those registered with events. */
  function Interest(channels: ChannelMap): map<nat, nat> {
    map fd | fd in channels && channels[fd].events != 0 :: channels[fd].events
  }

  const NO_INDEX: int := -1

  function IndexOf(index: map<nat, int>, id: nat): int {
    if id in index then index[id] else NO_INDEX
  }

  // ----- poll

  datatype PollFd = PollFd(fd: int, events: nat, revents: int)
  {
    /** A slot that is switched off holds -fd - 1. */
    function RealFd(): nat {
      if fd < 0 then -fd - 1 else fd
    }
  }

  ghost predicate SlotOf(pollfds: seq<PollFd>, channels: ChannelMap, index: map<nat, int>, fd: nat)
    requires fd in channels
  {
    var ch := channels[fd];
    var i := IndexOf(index, ch.id);
    && ch.fd == fd
    && 0 <= i < |pollfds|
    && pollfds[i].RealFd() == fd
    && pollfds[i].events == ch.events
  }

  ghost predicate ChannelOf(pollfds: seq<PollFd>, channels: ChannelMap, index: map<nat, int>, i: nat)
    requires i < |pollfds|
  {
    var slot := pollfds[i];
    && slot.RealFd() in channels
    && IndexOf(index, channels[slot.RealFd()].id) == i
    && (slot.fd < 0 ==> slot.events == 0)
  }

  /** Registered channels and slots correspond one to one through the channels' indexes. */
  ghost predicate Bijection(pollfds: seq<PollFd>, channels: ChannelMap, index: map<nat, int>) {
    && (forall fd :: fd in channels ==> SlotOf(pollfds, channels, index, fd))
    && (forall i :: 0 <= i < |pollfds| ==> ChannelOf(pollfds, channels, index, i))
  }

  lemma SlotsAreRegistered(pollfds: seq<PollFd>, channels: ChannelMap, index: map<nat, int>)
    requires Bijection(pollfds, channels, index)
    ensures forall i :: 0 <= i < |pollfds| ==> pollfds[i].RealFd() in channels && IndexOf(index, channels[pollfds[i].RealFd()].id) == i
  {
    forall i | 0 <= i < |pollfds| ensures pollfds[i].RealFd() in channels && IndexOf(index, channels[pollfds[i].RealFd()].id) == i {
      assert ChannelOf(pollfds, channels, index, i);
    }
  }

  lemma AddKeepsBijection(pollfds: seq<PollFd>, channels: ChannelMap, index: map<nat, int>, ch: Channel)
    requires Bijection(pollfds, channels, index) && ch.fd !in channels && IndexOf(index, ch.id) < 0
    ensures Bijection(pollfds + [PollFd(ch.fd, ch.events, 0)], channels[ch.fd := ch], index[ch.id := |pollfds|])
  {
    var p, c, x := pollfds + [PollFd(ch.fd, ch.events, 0)], channels[ch.fd := ch], index[ch.id := |pollfds|];
    forall fd | fd in c ensures SlotOf(p, c, x, fd) {
      assert fd != ch.fd ==> SlotOf(pollfds, channels, index, fd);
    }
    forall i | 0 <= i < |p| ensures ChannelOf(p, c, x, i) {
      if i < |pollfds| {
        assert ChannelOf(pollfds, channels, index, i);
        assert SlotOf(pollfds, channels, index, pollfds[i].RealFd());
      }
    }
  }

  lemma ChangeKeepsBijection(pollfds: seq<PollFd>, channels: ChannelMap, index: map<nat, int>, ch: Channel, slot: PollFd)
    requires Bijection(pollfds, channels, index) && ch.fd in channels && channels[ch.fd].id == ch.id
    requires slot.RealFd() == ch.fd && slot.events == ch.events && (slot.fd < 0 ==> slot.events == 0)
    ensures 0 <= IndexOf(index, ch.id) < |pollfds|
    ensures Bijection(pollfds[IndexOf(index, ch.id) := slot], channels[ch.fd := ch], index)
  {
    assert SlotOf(pollfds, channels, index, ch.fd);
    var idx := IndexOf(index, ch.id);
    var p, c := pollfds[idx := slot], channels[ch.fd := ch];
    forall fd | fd in c ensures SlotOf(p, c, index, fd) {
      assert SlotOf(pollfds, channels, index, fd);
    }
    forall i | 0 <= i < |p| ensures ChannelOf(p, c, index, i) {
      assert ChannelOf(pollfds, channels, index, i);
    }
  }

  /** Moving the last slot into the one that is given up, and telling its channel, keeps the correspondence. */
  lemma SwapRemoveKeepsBijection(pollfds: seq<PollFd>, channels: ChannelMap, index: map<nat, int>, fd: nat)
    requires Bijection(pollfds, channels, index) && fd in channels
    ensures var idx, last := IndexOf(index, channels[fd].id), |pollfds| - 1;
            && 0 <= idx <= last
            && pollfds[last].RealFd() in channels
            && Bijection(pollfds[idx := pollfds[last]][..last], channels - {fd},
                         if idx == last then index else index[channels[pollfds[last].RealFd()].id := idx])
  {
    assert SlotOf(pollfds, channels, index, fd);
    var idx, last := IndexOf(index, channels[fd].id), |pollfds| - 1;
    assert ChannelOf(pollfds, channels, index, last);
    var moved := pollfds[last].RealFd();
    var p, c := pollfds[idx := pollfds[last]][..last], channels - {fd};
    var x := if idx == last then index else index[channels[moved].id := idx];
    forall g | g in c ensures SlotOf(p, c, x, g) {
      assert SlotOf(pollfds, channels, index, g) && SlotOf(pollfds, channels, index, moved);
    }
    forall i | 0 <= i < |p| ensures ChannelOf(p, c, x, i) {
      assert ChannelOf(pollfds, channels, index, i) && ChannelOf(pollfds, channels, index, idx);
      assert SlotOf(pollfds, channels, index, pollfds[i].RealFd());
    }
  }

  lemma {:induction false} BijectionSizes(pollfds: seq<PollFd>, channels: ChannelMap, index: map<nat, int>)
    requires Bijection(pollfds, channels, index)
    ensures |pollfds| == |channels|
    decreases |channels|
  {
    SlotsAreRegistered(pollfds, channels, index);
    if |pollfds| > 0 {
      assert pollfds[0].RealFd() in channels;
    }
    if channels != map[] {
      var fd :| fd in channels;
      SwapRemoveKeepsBijection(pollfds, channels, index, fd);
      var idx, last := IndexOf(index, channels[fd].id), |pollfds| - 1;
      assert (channels - {fd}).Keys == channels.Keys - {fd};
      BijectionSizes(pollfds[idx := pollfds[last]][..last], channels - {fd},
                     if idx == last then index else index[channels[pollfds[last].RealFd()].id := idx]);
    }
  }

  /** `fd` is in the set given to poll(), and `events`, which are not empty, are what it is watched for. */
  ghost predicate PollWatches(pollfds: seq<PollFd>, fd: nat, events: nat) {
    events != 0 && exists i :: 0 <= i < |pollfds| && pollfds[i].fd == fd && pollfds[i].events == events
  }

  lemma PollWatchesInterest(pollfds: seq<PollFd>, channels: ChannelMap, index: map<nat, int>, fd: nat, events: nat)
    requires Bijection(pollfds, channels, index)
    ensures PollWatches(pollfds, fd, events) <==> fd in Interest(channels) && Interest(channels)[fd] == events
  {
    if fd in channels {
      assert SlotOf(pollfds, channels, index, fd);
      var i := IndexOf(index, channels[fd].id);
      assert ChannelOf(pollfds, channels, index, i);
      if channels[fd].events == events != 0 {
        assert pollfds[i].fd == fd;
      }
    }
    forall i | 0 <= i < |pollfds| && pollfds[i].fd == fd ensures fd in channels && pollfds[i].events == channels[fd].events {
      assert ChannelOf(pollfds, channels, index, i);
      assert pollfds[i].RealFd() == fd;
      assert SlotOf(pollfds, channels, index, fd);
    }
  }

  /** Events are reported only in slots that are not switched off, as poll() promises. */
  predicate Reported(pollfds: seq<PollFd>) {
    forall i :: 0 <= i < |pollfds| && pollfds[i].revents > 0 ==> pollfds[i].fd >= 0
  }

  /** The channels whose slots have events, in slot order. */
  function ActiveChannels(pollfds: seq<PollFd>, channels: ChannelMap): seq<(Channel, int)>
    requires forall i :: 0 <= i < |pollfds| ==> pollfds[i].RealFd() in channels
  {
    if pollfds == [] then []
    else
      var front, slot := pollfds[..|pollfds| - 1], pollfds[|pollfds| - 1];
      ActiveChannels(front, channels) + if slot.revents > 0 then [(channels[slot.RealFd()], slot.revents)] else []
  }

  /** Number of slots with events, which is what poll() returns. */
  function ActiveCount(pollfds: seq<PollFd>): nat {
    if pollfds == [] then 0
    else ActiveCount(pollfds[..|pollfds| - 1]) + if pollfds[|pollfds| - 1].revents > 0 then 1 else 0
  }

  /** Every slot with events has an entry, with its channel and those events; every entry is that of a slot; there are as many as poll() counts. */
  lemma {:induction false} ActiveExactly(pollfds: seq<PollFd>, channels: ChannelMap)
    requires forall i :: 0 <= i < |pollfds| ==> pollfds[i].RealFd() in channels
    ensures forall i :: 0 <= i < |pollfds| && pollfds[i].revents > 0 ==> (channels[pollfds[i].RealFd()], pollfds[i].revents) in ActiveChannels(pollfds, channels)
    ensures forall e :: e in ActiveChannels(pollfds, channels) ==>
              exists i :: 0 <= i < |pollfds| && pollfds[i].revents > 0 && e == (channels[pollfds[i].RealFd()], pollfds[i].revents)
    ensures |ActiveChannels(pollfds, channels)| == ActiveCount(pollfds)
  {
    if pollfds != [] {
      var front, active := pollfds[..|pollfds| - 1], ActiveChannels(pollfds, channels);
      ActiveExactly(front, channels);
      assert forall i :: 0 <= i < |front| ==> front[i] == pollfds[i];
      forall e | e in active ensures exists i :: 0 <= i < |pollfds| && pollfds[i].revents > 0 && e == (channels[pollfds[i].RealFd()], pollfds[i].revents) {
        if e in ActiveChannels(front, channels) {
          var i :| 0 <= i < |front| && front[i].revents > 0 && e == (channels[front[i].RealFd()], front[i].revents);
          assert pollfds[i] == front[i];
        } else {
          assert pollfds[|pollfds| - 1].revents > 0;
        }
      }
    }
  }

  class PollPoller {
    var pollfds: seq<PollFd>
    var channels: ChannelMap
    var index: map<nat, int>

    ghost predicate Valid()
      reads this
    {
      Bijection(pollfds, channels, index)
    }

    constructor ()
      ensures Valid() && channels == map[] && index == map[]
    {
      pollfds, channels, index := [], map[], map[];
    }

    /** The source's assertions on an update. */
    predicate CanUpdate(ch: Channel)
      reads this
    {
      if IndexOf(index, ch.id) < 0 then ch.fd !in channels else ch.fd in channels && channels[ch.fd].id == ch.id
    }

    method UpdateChannel(ch: Channel)
      requires Valid() && CanUpdate(ch)
      modifies this
      ensures Valid() && channels == Applied(old(channels), Update(ch))
      ensures index == if IndexOf(old(index), ch.id) < 0 then old(index)[ch.id := |old(pollfds)|] else old(index)
      ensures 0 <= IndexOf(index, ch.id) < |pollfds| && pollfds[IndexOf(index, ch.id)] ==
        PollFd(if IndexOf(old(index), ch.id) >= 0 && ch.IsNoneEvent() then 0 - ch.fd - 1 else ch.fd, ch.events, 0)
    {
      var idx := IndexOf(index, ch.id);
      if idx < 0 {
        AddKeepsBijection(pollfds, channels, index, ch);
        pollfds := pollfds + [PollFd(ch.fd, ch.events, 0)];
        index := index[ch.id := |pollfds| - 1];
        channels := channels[ch.fd := ch];
      } else {
        var slot := PollFd(ch.fd, ch.events, 0);
        if ch.IsNoneEvent() {
          slot := slot.(fd := 0 - ch.fd - 1);
        }
        ChangeKeepsBijection(pollfds, channels, index, ch, slot);
        pollfds := pollfds[idx := slot];
        channels := channels[ch.fd := ch];
      }
    }

    /** The source's assertions on a removal: registered, with no events, its slot switched off. */
    predicate CanRemove(ch: Channel)
      reads this
    {
      && ch.fd in channels && channels[ch.fd] == ch && ch.IsNoneEvent()
      && 0 <= IndexOf(index, ch.id) < |pollfds|
      && pollfds[IndexOf(index, ch.id)].fd == 0 - ch.fd - 1
    }

    /** The removed channel keeps its old index, so it cannot be registered again. */
    method RemoveChannel(ch: Channel)
      requires Valid() && CanRemove(ch)
      modifies this
      ensures Valid() && channels == Applied(old(channels), Remove(ch)) && |pollfds| == |old(pollfds)| - 1
      ensures IndexOf(index, ch.id) == IndexOf(old(index), ch.id) && !CanUpdate(ch)
    {
      SwapRemoveKeepsBijection(pollfds, channels, index, ch.fd);
      assert SlotOf(pollfds, channels, index, ch.fd);
      var idx := IndexOf(index, ch.id);
      var last := |pollfds| - 1;
      assert idx < last ==> ChannelOf(pollfds, channels, index, last);
      channels := channels - {ch.fd};
      if idx == last {
        pollfds := pollfds[..last];
        assert pollfds == old(pollfds)[idx := old(pollfds)[last]][..last];
      } else {
        var channelAtEnd := pollfds[last].fd;
        pollfds := pollfds[idx := pollfds[last]][last := pollfds[idx]];
        if channelAtEnd < 0 {
          channelAtEnd := -channelAtEnd - 1;
        }
        index := index[channels[channelAtEnd].id := idx];
        pollfds := pollfds[..last];
        assert pollfds == old(pollfds)[idx := old(pollfds)[last]][..last];
      }
    }

    /** The kernel stores events in slots that are not switched off. */
    method KernelPoll(revents: seq<int>) returns (numEvents: nat)
      requires Valid() && |revents| == |pollfds|
      requires forall i :: 0 <= i < |revents| && pollfds[i].fd < 0 ==> revents[i] == 0
      modifies `pollfds
      ensures Valid() && |pollfds| == |old(pollfds)| && numEvents == ActiveCount(pollfds)
      ensures forall i :: 0 <= i < |pollfds| ==> pollfds[i] == old(pollfds)[i].(revents := revents[i])
      ensures Reported(pollfds)
    {
      var was := pollfds;
      pollfds := seq(|was|, i requires 0 <= i < |was| => was[i].(revents := revents[i]));
      assert forall fd :: fd in channels ==> SlotOf(was, channels, index, fd);
      forall i | 0 <= i < |pollfds| ensures ChannelOf(pollfds, channels, index, i) {
        assert ChannelOf(was, channels, index, i);
        assert pollfds[i].RealFd() == was[i].RealFd();
      }
      numEvents := ActiveCount(pollfds);
    }

    /** Reports exactly the channels whose slots have events, with those events, in slot order. */
    method FillActiveChannels(numEvents: nat) returns (active: seq<(Channel, int)>)
      requires Valid() && numEvents == ActiveCount(pollfds) && Reported(pollfds)
      ensures forall i :: 0 <= i < |pollfds| ==> pollfds[i].RealFd() in channels
      ensures active == ActiveChannels(pollfds, channels) && |active| == numEvents
      ensures forall i :: 0 <= i < |pollfds| && pollfds[i].revents > 0 ==> (channels[pollfds[i].RealFd()], pollfds[i].revents) in active
    {
      SlotsAreRegistered(pollfds, channels, index);
      active := [];
      var left := numEvents;
      var i := 0;
      while i < |pollfds| && left > 0
        invariant i <= |pollfds| && left >= 0
        invariant active == ActiveChannels(pollfds[..i], channels)
        invariant ActiveCount(pollfds) == left + ActiveCount(pollfds[..i])
      {
        assert pollfds[..i + 1][..i] == pollfds[..i];
        if pollfds[i].revents > 0 {
          assert pollfds[i].RealFd() == pollfds[i].fd;
          left := left - 1;
          active := active + [(channels[pollfds[i].fd], pollfds[i].revents)];
        }
        i := i + 1;
      }
      NoneLeft(pollfds, channels, i);
      ActiveExactly(pollfds, channels);
    }
  }

  /** Once as many slots have been seen as poll() reported, the others have no events. */
  lemma {:induction false} NoneLeft(pollfds: seq<PollFd>, channels: ChannelMap, i: nat)
    requires i <= |pollfds| && (i == |pollfds| || ActiveCount(pollfds) == ActiveCount(pollfds[..i]))
    requires forall j :: 0 <= j < |pollfds| ==> pollfds[j].RealFd() in channels
    ensures ActiveChannels(pollfds[..i], channels) == ActiveChannels(pollfds, channels)
    decreases |pollfds|
  {
    if i == |pollfds| {
      assert pollfds[..i] == pollfds;
    } else {
      var front := pollfds[..|pollfds| - 1];
      assert front[..i] == pollfds[..i];
      CountMonotone(front, i);
      NoneLeft(front, channels, i);
    }
  }

  lemma {:induction false} CountMonotone(pollfds: seq<PollFd>, i: nat)
    requires i <= |pollfds|
    ensures ActiveCount(pollfds[..i]) <= ActiveCount(pollfds)
    decreases |pollfds|
  {
    if i == |pollfds| {
      assert pollfds[..i] == pollfds;
    } else {
      assert pollfds[..|pollfds| - 1][..i] == pollfds[..i];
      CountMonotone(pollfds[..|pollfds| - 1], i);
    }
  }

  /** No channel is reported twice: those reported have increasing slots. */
  lemma {:induction false} ActiveOnce(pollfds: seq<PollFd>, channels: ChannelMap, index: map<nat, int>, n: nat)
    requires Bijection(pollfds, channels, index) && n <= |pollfds|
    requires forall i :: 0 <= i < |pollfds| ==> pollfds[i].RealFd() in channels
    ensures Increasing(ActiveChannels(pollfds[..n], channels), index, n)
  {
    if n > 0 {
      ActiveOnce(pollfds, channels, index, n - 1);
      SlotsAreRegistered(pollfds, channels, index);
      var before, active := ActiveChannels(pollfds[..n - 1], channels), ActiveChannels(pollfds[..n], channels);
      assert pollfds[..n][..n - 1] == pollfds[..n - 1];
      var entry := (channels[pollfds[n - 1].RealFd()], pollfds[n - 1].revents);
      assert active == before || active == before + [entry];
      assert IndexOf(index, entry.0.id) == n - 1;
    }
  }

  ghost predicate Increasing(active: seq<(Channel, int)>, index: map<nat, int>, n: nat) {
    && (forall a :: 0 <= a < |active| ==> 0 <= IndexOf(index, active[a].0.id) < n)
    && (forall a, b :: 0 <= a < b < |active| ==> IndexOf(index, active[a].0.id) < IndexOf(index, active[b].0.id))
  }

  // ----- epoll

  const ADDED: int := 1
  const DELETED: int := 2

  datatype Operation = Add | Modify | Delete

  /** The kernel's interest set holds exactly the channels tagged as added, with their current events. */
  ghost predicate Mirrored(channels: ChannelMap, index: map<nat, int>, kernel: ChannelMap) {
    && (forall fd :: fd in channels ==> TaggedRight(channels, index, kernel, fd))
    && kernel.Keys <= channels.Keys
  }

  ghost predicate TaggedRight(channels: ChannelMap, index: map<nat, int>, kernel: ChannelMap, fd: nat)
    requires fd in channels
  {
    var ch := channels[fd];
    var tag := IndexOf(index, ch.id);
    && ch.fd == fd
    && (forall other :: other in channels && channels[other].id == ch.id ==> other == fd)
    && (tag == ADDED || tag == DELETED)
    && (tag == ADDED <==> fd in kernel)
    && (tag == ADDED ==> kernel[fd] == ch)
    && (tag == DELETED ==> ch.events == 0)
  }

  /** `fd` is in the kernel's set, and `events`, which are not empty, are what it is watched for. */
  ghost predicate EpollWatches(kernel: ChannelMap, fd: nat, events: nat) {
    events != 0 && fd in kernel && kernel[fd].events == events
  }

  lemma EpollWatchesInterest(channels: ChannelMap, index: map<nat, int>, kernel: ChannelMap, fd: nat, events: nat)
    requires Mirrored(channels, index, kernel)
    ensures EpollWatches(kernel, fd, events) <==> fd in Interest(channels) && Interest(channels)[fd] == events
  {
    if fd in channels {
      assert TaggedRight(channels, index, kernel, fd);
    }
  }

  class EpollPoller {
    var channels: ChannelMap
    var index: map<nat, int>
    var kernel: ChannelMap

    ghost predicate Valid()
      reads this
    {
      Mirrored(channels, index, kernel)
    }

    constructor ()
      ensures Valid() && channels == map[] && index == map[] && kernel == map[]
    {
      channels, index, kernel := map[], map[], map[];
    }

    /** epoll_ctl, which is only ever called in a way the kernel accepts. */
    method Control(operation: Operation, ch: Channel)
      requires operation == Add <==> ch.fd !in kernel
      modifies `kernel
      ensures kernel == if operation == Delete then old(kernel) - {ch.fd} else old(kernel)[ch.fd := ch]
    {
      match operation
      case Add => kernel := kernel[ch.fd := ch];
      case Modify => kernel := kernel[ch.fd := ch];
      case Delete => kernel := kernel - {ch.fd};
    }

    /** The source's assertions on an update. */
    predicate CanUpdate(ch: Channel)
      reads this
    {
      var tag := IndexOf(index, ch.id);
      if tag == NO_INDEX then ch.fd !in channels
      else ch.fd in channels && channels[ch.fd].id == ch.id && (tag == ADDED || tag == DELETED)
    }

    method UpdateChannel(ch: Channel)
      requires Valid() && CanUpdate(ch)
      modifies this
      ensures Valid() && channels == Applied(old(channels), Update(ch))
      ensures IndexOf(index, ch.id) == if IndexOf(old(index), ch.id) == ADDED && ch.IsNoneEvent() then DELETED else ADDED
      ensures forall id :: id != ch.id ==> IndexOf(index, id) == IndexOf(old(index), id)
    {
      var tag := IndexOf(index, ch.id);
      ghost var before := (channels, index, kernel);
      assert forall fd :: fd in channels ==> TaggedRight(channels, index, kernel, fd);
      channels := channels[ch.fd := ch];
      if tag == NO_INDEX || tag == DELETED {
        index := index[ch.id := ADDED];
        Control(Add, ch);
      } else if ch.IsNoneEvent() {
        Control(Delete, ch);
        index := index[ch.id := DELETED];
      } else {
        Control(Modify, ch);
      }
      forall fd | fd in channels ensures TaggedRight(channels, index, kernel, fd) {
        assert fd in before.0 ==> TaggedRight(before.0, before.1, before.2, fd);
      }
    }

    /** The source's assertions on a removal. */
    predicate CanRemove(ch: Channel)
      reads this
    {
      && ch.fd in channels && channels[ch.fd] == ch && ch.IsNoneEvent()
      && (IndexOf(index, ch.id) == ADDED || IndexOf(index, ch.id) == DELETED)
    }

    method RemoveChannel(ch: Channel)
      requires Valid() && CanRemove(ch)
      modifies this
      ensures Valid() && channels == Applied(old(channels), Remove(ch)) && ch.fd !in kernel
      ensures index == old(index)[ch.id := NO_INDEX]
    {
      ghost var before := (channels, index, kernel);
      assert TaggedRight(channels, index, kernel, ch.fd);
      channels := channels - {ch.fd};
      if IndexOf(index, ch.id) == ADDED {
        Control(Delete, ch);
      }
      index := index[ch.id := NO_INDEX];
      forall fd | fd in channels ensures TaggedRight(channels, index, kernel, fd) {
        assert TaggedRight(before.0, before.1, before.2, fd);
      }
    }

    /** The channels that the kernel reports as ready are registered ones. */
    method FillActiveChannels(ready: seq<(nat, int)>) returns (active: seq<(Channel, int)>)
      requires Valid() && forall i :: 0 <= i < |ready| ==> ready[i].0 in kernel
      ensures |active| == |ready|
      ensures forall i :: 0 <= i < |ready| ==> ready[i].0 in channels && active[i] == (channels[ready[i].0], ready[i].1)
    {
      active := [];
      for i := 0 to |ready|
        invariant |active| == i
        invariant forall j :: 0 <= j < i ==> ready[j].0 in channels && active[j] == (channels[ready[j].0], ready[j].1)
      {
        var fd := ready[i].0;
        assert TaggedRight(channels, index, kernel, fd);
        active := active + [(kernel[fd], ready[i].1)];
      }
    }
  }

  // ----- the two pollers side by side

  predicate BothAllow(p: PollPoller, e: EpollPoller, call: Call)
    reads p, e
  {
    match call
    case Update(ch) => p.CanUpdate(ch) && e.CanUpdate(ch)
    case Remove(ch) => p.CanRemove(ch) && e.CanRemove(ch)
  }

  method ApplyBoth(p: PollPoller, e: EpollPoller, call: Call)
    requires p.Valid() && e.Valid() && BothAllow(p, e, call)
    modifies p, e
    ensures p.Valid() && e.Valid()
    ensures p.channels == Applied(old(p.channels), call) && e.channels == Applied(old(e.channels), call)
  {
    hide Bijection, Mirrored;
    match call
    case Update(ch) =>
      p.UpdateChannel(ch);
      e.UpdateChannel(ch);
    case Remove(ch) =>
      p.RemoveChannel(ch);
      e.RemoveChannel(ch);
  }

  /**
   Both pollers are given the same calls, for as long as the assertions of both allow. Throughout, they
   hold the same channels, those of the abstract poller, and watch the same descriptors for the same events.
   */
  method RunBoth(calls: seq<Call>) returns (p: PollPoller, e: EpollPoller, done: nat)
    ensures done <= |calls| && p.Valid() && e.Valid()
    ensures p.channels == e.channels == AppliedAll(map[], calls[..done])
    ensures done < |calls| ==> !BothAllow(p, e, calls[done])
    ensures forall fd: nat, events: nat :: PollWatches(p.pollfds, fd, events) <==> EpollWatches(e.kernel, fd, events)
  {
    hide Bijection, Mirrored, PollWatches, EpollWatches, Interest;
    p := new PollPoller();
    e := new EpollPoller();
    done := 0;
    while done < |calls| && BothAllow(p, e, calls[done])
      decreases |calls| - done
      invariant done <= |calls| && p.Valid() && e.Valid()
      invariant p.channels == e.channels == AppliedAll(map[], calls[..done])
    {
      assert calls[..done + 1][..done] == calls[..done];
      ApplyBoth(p, e, calls[done]);
      done := done + 1;
    }
    forall fd: nat, events: nat ensures PollWatches(p.pollfds, fd, events) <==> EpollWatches(e.kernel, fd, events) {
      PollWatchesInterest(p.pollfds, p.channels, p.index, fd, events);
      EpollWatchesInterest(e.channels, e.index, e.kernel, fd, events);
    }
  }
}
