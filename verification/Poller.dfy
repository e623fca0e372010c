/**
 Channels and the two pollers (mymuduo/net/Channel.h, poller/PollPoller.cc, poller/EPollPoller.cc): the array or
 kernel table, the map from descriptors to channels, and the index kept inside each channel.
 */
module Poller {
  import opened Common

  const NONE_EVENT: bv8 := 0
  const READ_EVENT: bv8 := 3   // POLLIN | POLLPRI
  const WRITE_EVENT: bv8 := 4  // POLLOUT

  class Channel {
    const fd: nat
    var events: bv8
    var revents: bv8
    var index: int

    constructor (fd: nat)
      ensures this.fd == fd && events == NONE_EVENT && index == -1
    {
      this.fd := fd;
      events, revents, index := NONE_EVENT, 0, -1;
    }

    predicate IsReading() reads this { events & READ_EVENT != 0 }
    predicate IsWriting() reads this { events & WRITE_EVENT != 0 }
    predicate IsNoneEvent() reads this { events == NONE_EVENT }

    // The mask updates; each is followed by `update()`, that is, by a poller's UpdateChannel.

    method EnableReading()
      modifies this`events
      ensures events & READ_EVENT == READ_EVENT && events & !READ_EVENT == old(events) & !READ_EVENT
      ensures IsReading() && (IsWriting() <==> old(IsWriting()))
    {
      events := events | READ_EVENT;
    }

    method EnableWriting()
      modifies this`events
      ensures events & WRITE_EVENT == WRITE_EVENT && events & !WRITE_EVENT == old(events) & !WRITE_EVENT
      ensures IsWriting() && (IsReading() <==> old(IsReading()))
    {
      events := events | WRITE_EVENT;
    }

    method DisableWriting()
      modifies this`events
      ensures events & WRITE_EVENT == 0 && events & !WRITE_EVENT == old(events) & !WRITE_EVENT
      ensures !IsWriting() && (IsReading() <==> old(IsReading()))
    {
      events := events & !WRITE_EVENT;
    }

    method DisableAll()
      modifies this`events
      ensures IsNoneEvent()
    {
      events := NONE_EVENT;
    }
  }

  // ---------- poll(2) ----------

  datatype PollFd = PollFd(fd: int, events: bv8, revents: bv8)

  /** The descriptor a slot belongs to; a muted slot holds `-fd - 1`. */
  function RealFd(x: int): nat {
    if x >= 0 then x else -x - 1
  }

  /** What is stored for a descriptor that poll(2) should skip. */
  function Muted(fd: int): int {
    -fd - 1
  }

  /** `updateChannel` on the slot of a channel that is already registered. */
  function UpdatedSlot(slot: PollFd, fd: nat, events: bv8): PollFd {
    PollFd(if events == NONE_EVENT then Muted(fd) else slot.fd, events, 0)
  }

  function UpdatedAll(slot: PollFd, fd: nat, updates: seq<bv8>): PollFd {
    if updates == [] then slot
    else UpdatedSlot(UpdatedAll(slot, fd, updates[..|updates| - 1]), fd, updates[|updates| - 1])
  }

  /** poll(2) skips slots with a negative descriptor. */
  predicate Watched(slot: PollFd) {
    slot.fd >= 0
  }

  /** After any series of updates a registered descriptor is watched exactly if none of them was empty: once muted it
      stays muted, whatever interest is declared later. */
  lemma {:induction false} WatchedIffNeverMuted(fd: nat, events: bv8, updates: seq<bv8>)
    ensures var slot := UpdatedAll(PollFd(fd, events, 0), fd, updates);
            && RealFd(slot.fd) == fd
            && (Watched(slot) <==> forall k :: 0 <= k < |updates| ==> updates[k] != NONE_EVENT)
            && (updates != [] ==> slot.events == updates[|updates| - 1])
  {
    if updates != [] {
      WatchedIffNeverMuted(fd, events, updates[..|updates| - 1]);
    }
  }

  /** The first `n` channels whose slots have events, in slot order. */
  function ActiveChannels(slots: seq<PollFd>, channels: map<int, Channel>, n: nat): seq<Channel>
    requires forall i :: 0 <= i < |slots| ==> RealFd(slots[i].fd) in channels
  {
    if slots == [] || n == 0 then []
    else if slots[0].revents != 0 then [channels[RealFd(slots[0].fd)]] + ActiveChannels(slots[1..], channels, n - 1)
    else ActiveChannels(slots[1..], channels, n)
  }

  lemma ActiveStep(slots: seq<PollFd>, channels: map<int, Channel>, n: nat)
    requires slots != [] && n > 0 && forall i :: 0 <= i < |slots| ==> RealFd(slots[i].fd) in channels
    ensures ActiveChannels(slots, channels, n) ==
            if slots[0].revents != 0 then [channels[RealFd(slots[0].fd)]] + ActiveChannels(slots[1..], channels, n - 1)
            else ActiveChannels(slots[1..], channels, n)
  {
  }

  lemma ActiveEnd(slots: seq<PollFd>, channels: map<int, Channel>, n: nat)
    requires (slots == [] || n == 0) && forall i :: 0 <= i < |slots| ==> RealFd(slots[i].fd) in channels
    ensures ActiveChannels(slots, channels, n) == []
  {
  }

  /** The slots with events, in order. */
  function Eventful(slots: seq<PollFd>): seq<PollFd> {
    if slots == [] then []
    else (if slots[0].revents != 0 then [slots[0]] else []) + Eventful(slots[1..])
  }

  lemma {:induction false} EventfulMeans(slots: seq<PollFd>, slot: PollFd)
    ensures slot in Eventful(slots) <==> slot in slots && slot.revents != 0
  {
    if slots != [] {
      assert slots == [slots[0]] + slots[1..];
      EventfulMeans(slots[1..], slot);
    }
  }

  /** Told how many slots have events, poll's caller gets the channels of exactly those, in order; told fewer, of the
      first ones. */
  lemma {:induction false} ActiveAreEventful(slots: seq<PollFd>, channels: map<int, Channel>, n: nat)
    requires forall i :: 0 <= i < |slots| ==> RealFd(slots[i].fd) in channels
    ensures var active, eventful := ActiveChannels(slots, channels, n), Eventful(slots);
            && |active| == (if n < |eventful| then n else |eventful|)
            && forall i :: 0 <= i < |active| ==>
                 RealFd(eventful[i].fd) in channels && active[i] == channels[RealFd(eventful[i].fd)]
  {
    if slots != [] && n > 0 {
      ActiveAreEventful(slots[1..], channels, if slots[0].revents != 0 then n - 1 else n);
    } else if slots != [] {
      EventfulInChannels(slots, channels);
    }
  }

  lemma {:induction false} EventfulInChannels(slots: seq<PollFd>, channels: map<int, Channel>)
    requires forall i :: 0 <= i < |slots| ==> RealFd(slots[i].fd) in channels
    ensures forall i :: 0 <= i < |Eventful(slots)| ==> RealFd(Eventful(slots)[i].fd) in channels
  {
    if slots != [] {
      EventfulInChannels(slots[1..], channels);
    }
  }

  class PollPoller {
    var channels: map<int, Channel>
    var pollfds: seq<PollFd>

    /** Slots, map and stored indexes are in bijection. */
    ghost predicate Indexed()
      reads this, channels.Values
    {
      && (forall fd :: fd in channels ==>
            && channels[fd].fd == fd
            && 0 <= channels[fd].index < |pollfds|
            && RealFd(pollfds[channels[fd].index].fd) == fd)
      && (forall i :: 0 <= i < |pollfds| ==>
            && RealFd(pollfds[i].fd) in channels
            && channels[RealFd(pollfds[i].fd)].index == i)
    }

    /** The slot of `fd` asks for what its channel wants. */
    ghost predicate Synced(fd: int)
      requires Indexed() && fd in channels
      reads this, channels.Values
    {
      pollfds[channels[fd].index].events == channels[fd].events
    }

    ghost predicate Valid()
      reads this, channels.Values
    {
      Indexed() && forall fd :: fd in channels ==> Synced(fd)
    }

    constructor ()
      ensures Valid() && channels == map[]
    {
      channels, pollfds := map[], [];
    }

    /** A new channel gets the last slot, a known one has its slot rewritten; all other slots stay as they are. */
    method UpdateChannel(channel: Channel)
      requires Indexed() && forall fd :: fd in channels && channels[fd] != channel ==> Synced(fd)
      requires if channel.index < 0 then channel.fd !in channels
               else channel.fd in channels && channels[channel.fd] == channel
      modifies this, channel`index
      ensures Valid()
      ensures channels == old(channels)[channel.fd := channel]
      ensures old(channel.index) < 0 ==>
                pollfds == old(pollfds) + [PollFd(channel.fd, channel.events, 0)] && channel.index == |old(pollfds)|
      ensures old(channel.index) >= 0 ==>
                channel.index == old(channel.index) < |old(pollfds)| &&
                pollfds == old(pollfds)[channel.index :=
                             UpdatedSlot(old(pollfds)[channel.index], channel.fd, channel.events)]
    {
      if channel.index < 0 {
        AddSlot(channel);
      } else {
        RewriteSlot(channel);
      }
    }

    method AddSlot(channel: Channel)
      requires Valid() && channel.index < 0 && channel.fd !in channels
      modifies this, channel`index
      ensures Valid()
      ensures channels == old(channels)[channel.fd := channel]
      ensures pollfds == old(pollfds) + [PollFd(channel.fd, channel.events, 0)] && channel.index == |old(pollfds)|
    {
      assert forall fd :: fd in channels ==> channels[fd] != channel;
      pollfds := pollfds + [PollFd(channel.fd, channel.events, 0)];
      channel.index := |pollfds| - 1;
      channels := channels[channel.fd := channel];
    }

    method RewriteSlot(channel: Channel)
      requires Indexed() && forall fd :: fd in channels && channels[fd] != channel ==> Synced(fd)
      requires channel.fd in channels && channels[channel.fd] == channel
      modifies this`pollfds
      ensures Valid()
      ensures pollfds == old(pollfds)[channel.index :=
                           UpdatedSlot(old(pollfds)[channel.index], channel.fd, channel.events)]
    {
      var idx := channel.index;
      assert 0 <= idx < |pollfds|;
      var pfd := pollfds[idx];
      assert pfd.fd == channel.fd || pfd.fd == Muted(channel.fd);
      pfd := pfd.(events := channel.events, revents := 0);
      if channel.IsNoneEvent() {
        pfd := pfd.(fd := Muted(channel.fd));
      }
      pollfds := pollfds[idx := pfd];
    }

    /** The slot of a channel is removed by swapping the last one into it; every other channel keeps its slot's contents
        and finds it through its own, possibly changed, index. */
    method RemoveChannel(channel: Channel)
      requires Valid()
      requires channel.fd in channels && channels[channel.fd] == channel && channel.IsNoneEvent()
      requires !Watched(pollfds[channel.index])
      modifies this, channels.Values`index
      ensures Valid()
      ensures channels == old(channels) - {channel.fd}
      ensures |pollfds| == |old(pollfds)| - 1
      ensures forall fd :: fd in channels ==>
                && pollfds[channels[fd].index] == old(pollfds)[old(channels[fd].index)]
                && channels[fd].events == old(channels[fd].events)
    {
      var idx := channel.index;
      assert 0 <= idx < |pollfds|;
      assert pollfds[idx].fd == Muted(channel.fd) && pollfds[idx].events == channel.events by {
        assert Synced(channel.fd);
      }
      var last := |pollfds| - 1;
      channels := channels - {channel.fd};
      if idx != last {
        var channelAtEnd := RealFd(pollfds[last].fd);
        pollfds := pollfds[idx := pollfds[last]][last := pollfds[idx]];
        channels[channelAtEnd].index := idx;
      }
      pollfds := pollfds[..last];
    }

    /** Every channel listed has been told the events of its own slot. */
    ghost predicate Informed(active: seq<Channel>)
      requires Indexed()
      reads this, channels.Values
    {
      forall fd :: fd in channels && channels[fd] in active ==>
        channels[fd].revents == pollfds[channels[fd].index].revents != 0
    }

    lemma ValidMeans()
      requires Valid()
      ensures Indexed()
      ensures forall i :: 0 <= i < |pollfds| ==> RealFd(pollfds[i].fd) in channels
    {
    }

    /** The look-up of a slot's channel, with its asserts. */
    method Activate(i: nat, active: seq<Channel>) returns (channel: Channel)
      requires Valid() && Informed(active)
      requires i < |pollfds| && pollfds[i].revents != 0 && Watched(pollfds[i])
      modifies channels.Values`revents
      ensures Valid() && Informed(active + [channel])
      ensures RealFd(pollfds[i].fd) in channels && channel == channels[RealFd(pollfds[i].fd)]
    {
      var pfd := pollfds[i];
      assert pfd.fd in channels;
      channel := channels[pfd.fd];
      assert channel.fd == pfd.fd;
      channel.revents := pfd.revents;
    }

    /** The channels of the first `numEvents` slots with returned events, in slot order, each told its events. */
    method FillActiveChannels(numEvents: nat) returns (active: seq<Channel>)
      requires Valid()
      requires forall i :: 0 <= i < |pollfds| && pollfds[i].revents != 0 ==> Watched(pollfds[i])
      modifies channels.Values`revents
      ensures Valid()
      ensures active == ActiveChannels(pollfds, channels, numEvents)
      ensures Informed(active)
    {
      hide ActiveChannels, Valid, Indexed;
      ValidMeans();
      active := [];
      var left := numEvents;
      var i := 0;
      assert pollfds[0..] == pollfds;
      while i < |pollfds| && left > 0
        invariant i <= |pollfds| && Valid() && Indexed() && Informed(active)
        invariant active + ActiveChannels(pollfds[i..], channels, left) == ActiveChannels(pollfds, channels, numEvents)
      {
        var pfd := pollfds[i];
        ActiveStep(pollfds[i..], channels, left);
        if pfd.revents != 0 {
          left := left - 1;
          var channel := Activate(i, active);
          active := active + [channel];
        }
        assert pollfds[i..][1..] == pollfds[i + 1..];
        i := i + 1;
      }
      ActiveEnd(pollfds[i..], channels, left);
    }
  }

  // ---------- epoll(4) ----------

  const NEW := -1
  const ADDED := 1
  const DELETED := 2

  datatype EpollOp = Add | Mod | Del

  class EPollPoller {
    var channels: map<int, Channel>
    var kernel: map<int, bv8>   // the kernel's interest table

    ghost predicate Known()
      reads this, channels.Values
    {
      && (forall fd :: fd in channels ==> channels[fd].fd == fd && channels[fd].index in {ADDED, DELETED})
      && (forall fd :: fd in kernel <==> fd in channels && channels[fd].index == ADDED)
    }

    ghost predicate Valid()
      reads this, channels.Values
    {
      Known() && forall fd :: fd in kernel ==> kernel[fd] == channels[fd].events
    }

    constructor ()
      ensures Valid() && channels == map[] && kernel == map[]
    {
      channels, kernel := map[], map[];
    }

    /** epoll_ctl, with the preconditions under which the kernel does not fail it. */
    method Update(op: EpollOp, channel: Channel)
      requires if op.Add? then channel.fd !in kernel else channel.fd in kernel
      modifies this`kernel
      ensures kernel == if op.Del? then old(kernel) - {channel.fd} else old(kernel)[channel.fd := channel.events]
    {
      kernel := if op.Del? then kernel - {channel.fd} else kernel[channel.fd := channel.events];
    }

    /** After an update the kernel watches the channel for exactly its interest, unless a watched channel lost all
        interest: then it is taken out, and a later update puts it back. */
    method UpdateChannel(channel: Channel)
      requires Known() && forall fd :: fd in kernel && channels[fd] != channel ==> kernel[fd] == channels[fd].events
      requires channel.index in {NEW, ADDED, DELETED}
      requires if channel.index == NEW then channel.fd !in channels
               else channel.fd in channels && channels[channel.fd] == channel
      modifies this, channel`index
      ensures Valid()
      ensures channels == old(channels)[channel.fd := channel]
      ensures kernel == if old(channel.index) == ADDED && channel.IsNoneEvent() then old(kernel) - {channel.fd}
                        else old(kernel)[channel.fd := channel.events]
    {
      var index := channel.index;
      if index == NEW || index == DELETED {
        if index == NEW {
          channels := channels[channel.fd := channel];
        }
        channel.index := ADDED;
        Update(Add, channel);
      } else if channel.IsNoneEvent() {
        Update(Del, channel);
        channel.index := DELETED;
      } else {
        Update(Mod, channel);
      }
    }

    method RemoveChannel(channel: Channel)
      requires Valid()
      requires channel.fd in channels && channels[channel.fd] == channel && channel.IsNoneEvent()
      modifies this, channel`index
      ensures Valid() && channel.index == NEW
      ensures channels == old(channels) - {channel.fd} && kernel == old(kernel) - {channel.fd}
    {
      assert channel.index in {ADDED, DELETED};
      var index := channel.index;
      channels := channels - {channel.fd};
      if index == ADDED {
        Update(Del, channel);
      }
      channel.index := NEW;
    }
  }
}
