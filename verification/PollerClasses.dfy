/** The pollers as classes over shared `Channel` objects, whose index they write. */
module PollerClasses {
  import opened Interests
  import Epoll
  import Poll

  const NEW_INDEX: int := -1
  const ADDED_INDEX: int := 1
  const DELETED_INDEX: int := 2

  class Channel {
    const fd: Fd
    var events: Mask
    var revents: int
    var index: int

    constructor (fd: Fd)
      ensures this.fd == fd && events == NONE && index == NEW_INDEX
    {
      this.fd := fd;
      events, revents, index := NONE, 0, NEW_INDEX;
    }
  }

  class EpollPoller {
    var channels: map<Fd, Channel>
    var kernel: map<Fd, Mask>
    var errors: nat

    /** Every channel is filed under its own descriptor, and has been added. */
    ghost predicate Filed()
      reads this, channels.Values
    {
      forall fd :: fd in channels ==>
        channels[fd].fd == fd && (channels[fd].index == ADDED_INDEX || channels[fd].index == DELETED_INDEX)
    }

    /** A channel the poller may be called with: the assertions on `channels_`. */
    ghost predicate Known(c: Channel)
      reads this, c
    {
      if c.index == NEW_INDEX then c.fd !in channels else c.fd in channels && channels[c.fd] == c
    }

    ghost function View(): Epoll.State
      reads this, channels.Values
    {
      Epoll.State(map fd | fd in channels ::
          Epoll.Chan(channels[fd].events, if channels[fd].index == ADDED_INDEX then Epoll.Added else Epoll.Deleted),
        kernel, errors)
    }

    constructor ()
      ensures Filed() && View() == Epoll.EMPTY
    {
      channels, kernel, errors := map[], map[], 0;
    }

    /** `update`: one call of `epoll_ctl`. */
    method Update(ctl: Epoll.Ctl, c: Channel)
      modifies this`kernel, this`errors
      ensures View() == Epoll.Control(old(View()), ctl, c.fd, c.events)
    {
      match ctl {
        case Add =>
          if c.fd in kernel { errors := errors + 1; } else { kernel := kernel[c.fd := c.events]; }
        case Mod =>
          if c.fd in kernel { kernel := kernel[c.fd := c.events]; } else { errors := errors + 1; }
        case Del =>
          if c.fd in kernel { kernel := kernel - {c.fd}; } else { errors := errors + 1; }
      }
    }

    /** `channels_[fd] = channel` and `set_index`. */
    method File(c: Channel, added: bool)
      requires Filed() && Known(c)
      modifies this`channels, c`index
      ensures Filed() && Known(c) && c.fd in channels
      ensures var index := if added then Epoll.Added else Epoll.Deleted;
              View() == old(View()).(channels := old(View()).channels[c.fd := Epoll.Chan(c.events, index)])
    {
      channels := channels[c.fd := c];
      assert forall fd :: fd in channels && fd != c.fd ==> channels[fd] != c;
      c.index := if added then ADDED_INDEX else DELETED_INDEX;
    }

    method UpdateChannel(c: Channel)
      requires Filed() && Known(c)
      modifies this, c`index
      ensures Filed() && Known(c) && c.fd in channels
      ensures View() == Epoll.Update(old(View()), c.fd, c.events)
    {
      if c.index != ADDED_INDEX {
        File(c, true);
        Update(Epoll.Add, c);
      } else if c.events == NONE {
        File(c, false);
        Update(Epoll.Del, c);
      } else {
        File(c, true);
        Update(Epoll.Mod, c);
      }
    }

    /** The mask of a channel changes; the poller has not been told yet. */
    method SetMask(c: Channel, events: Mask)
      requires Filed() && Known(c)
      modifies c`events
      ensures Filed() && Known(c) && c.events == events
      ensures View() == Epoll.WithMask(old(View()), c.fd, events)
    {
      c.events := events;
    }

    method RemoveChannel(c: Channel)
      requires Filed() && Known(c) && c.fd in channels && c.events == NONE
      modifies this, c`index
      ensures Filed() && Known(c) && c.index == NEW_INDEX
      ensures View() == Epoll.Step(old(View()), Remove(c.fd))
    {
      if c.index == ADDED_INDEX {
        Update(Epoll.Del, c);
      }
      Drop(c);
    }

    /** The channel leaves `channels_` and is new again. */
    method Drop(c: Channel)
      requires Filed() && Known(c) && c.fd in channels
      modifies this`channels, c`index
      ensures Filed() && Known(c) && c.index == NEW_INDEX
      ensures View() == old(View()).(channels := old(View()).channels - {c.fd})
    {
      channels := channels - {c.fd};
      c.index := NEW_INDEX;
    }

    /** The interest methods of Channel.h: change the mask, then update. */
    method Change(c: Channel, op: Op)
      requires Filed() && Known(c) && !op.Remove? && op.fd == c.fd
      requires c.fd !in channels ==> c.events == NONE
      modifies this, c`index, c`events
      ensures Filed() && Known(c)
      ensures View() == Epoll.Step(old(View()), op)
    {
      Epoll.UpdateForgetsMask(View(), c.fd, NewMask(c.events, op));
      SetMask(c, NewMask(c.events, op));
      UpdateChannel(c);
    }
  }

  class PollPoller {
    var pollfds: seq<Poll.PollFd>
    var channels: map<Fd, Channel>
    var failed: bool

    ghost predicate Filed()
      reads this, channels.Values
    {
      forall fd :: fd in channels ==> channels[fd].fd == fd && channels[fd].index >= 0
    }

    ghost predicate Known(c: Channel)
      reads this, c
    {
      if c.index < 0 then c.fd !in channels else c.fd in channels && channels[c.fd] == c
    }

    ghost function View(): Poll.State
      reads this, channels.Values
      requires Filed()
    {
      Poll.State(pollfds, map fd | fd in channels :: Poll.Chan(channels[fd].events, channels[fd].index), failed)
    }

    ghost predicate Valid()
      reads this, channels.Values
    {
      Filed() && Poll.Inv(View())
    }

    constructor ()
      ensures Valid() && View() == Poll.EMPTY
    {
      pollfds, channels, failed := [], map[], false;
    }

    /** `updateChannel`; between the change of the mask and this call the entry of `c` is
        out of date, so only its place is assumed. */
    method UpdateChannel(c: Channel)
      requires Filed() && Known(c)
      requires c.index >= 0 ==> c.index < |pollfds|
      modifies this`pollfds, this`channels, c`index
      ensures Filed() && Known(c) && c.fd in channels
      ensures View() == Poll.Update(old(View()), c.fd, c.events)
    {
      if c.index < 0 {
        Register(c);
      } else {
        Modify(c);
      }
    }

    method Register(c: Channel)
      requires Filed() && Known(c) && c.index < 0
      modifies this`pollfds, this`channels, c`index
      ensures Filed() && Known(c) && c.fd in channels
      ensures View() == Poll.Update(old(View()), c.fd, c.events)
    {
      pollfds := pollfds + [Poll.PollFd(c.fd, c.events)];
      c.index := |pollfds| - 1;
      channels := channels[c.fd := c];
    }

    method Modify(c: Channel)
      requires Filed() && Known(c) && 0 <= c.index < |pollfds|
      modifies this`pollfds
      ensures Filed() && Known(c) && c.fd in channels
      ensures View() == Poll.Update(old(View()), c.fd, c.events)
    {
      var idx := c.index;
      var fd := if c.events == NONE then Poll.Park(c.fd) else pollfds[idx].fd;
      pollfds := pollfds[idx := Poll.PollFd(fd, c.events)];
    }

    /** The channel of the last entry is told its new place. */
    method Relocate(c: Channel, idx: nat)
      requires Filed() && c.fd in channels && channels[c.fd] == c
      modifies c`index
      ensures Filed() && c.index == idx
      ensures var s := old(View());
              View() == s.(channels := s.channels[c.fd := s.channels[c.fd].(index := idx)])
    {
      c.index := idx;
    }

    method Forget(c: Channel)
      requires Filed()
      modifies this`channels
      ensures Filed() && channels == old(channels) - {c.fd}
      ensures View() == old(View()).(channels := old(View()).channels - {c.fd})
    {
      channels := channels - {c.fd};
    }

    /** Swap the entry of `c` with the last one and pop. */
    method SwapAndPop(c: Channel, end: Channel)
      requires Filed() && Known(c) && c.fd in channels && c.index < |pollfds|
      requires end.fd == Poll.Decode(pollfds[|pollfds| - 1].fd) && end.fd in channels && channels[end.fd] == end
      requires c.index != |pollfds| - 1 ==> end != c
      modifies this`pollfds, this`channels, end`index
      ensures Filed() && View() == Poll.Erase(old(View()), c.fd)
      ensures c.fd !in channels && c.index == old(c.index)
    {
      var idx, last := c.index, |pollfds| - 1;
      Forget(c);
      if idx != last {
        Relocate(end, idx);
        Swap(idx, last);
        Poll.SwappedFront(old(pollfds), idx);
      }
      Pop();
    }

    method Pop()
      requires Filed() && pollfds != []
      modifies this`pollfds
      ensures Filed() && View() == old(View()).(pollfds := old(pollfds)[..|old(pollfds)| - 1])
    {
      pollfds := pollfds[..|pollfds| - 1];
    }

    method Swap(i: nat, j: nat)
      requires Filed() && i < |pollfds| && j < |pollfds|
      modifies this`pollfds
      ensures Filed()
      ensures View() == old(View()).(pollfds := old(pollfds)[i := old(pollfds)[j]][j := old(pollfds)[i]])
    {
      pollfds := pollfds[i := pollfds[j]][j := pollfds[i]];
    }

    /** `removeChannel` fails its assertion exactly if the entry is not parked.  The removed
        object keeps its old index, so it may not be used with this poller again. */
    method RemoveChannel(c: Channel)
      requires Valid() && Known(c) && c.fd in channels && c.events == NONE && !failed
      modifies this, channels.Values
      ensures Valid() && View() == Poll.Step(old(View()), Remove(c.fd))
      ensures failed <==> !Poll.Parked(old(View()), c.fd)
      ensures !failed ==> c.fd !in channels && c.index == old(c.index)
    {
      hide Poll.Inv, Poll.Step, Poll.Erase;
      ghost var before := View();
      assert before.channels[c.fd] == Poll.Chan(c.events, c.index);
      Poll.LastEntry(before, c.fd);
      Poll.UnparkedRemoval(before, c.fd);
      if pollfds[c.index].fd != Poll.Park(c.fd) {
        failed := true;
        assert View() == before.(failed := true);
        return;
      }
      Poll.Removal(before, c.fd);
      var channelAtEnd := pollfds[|pollfds| - 1].fd;
      if channelAtEnd < 0 {
        channelAtEnd := -channelAtEnd - 1;
      }
      SwapAndPop(c, channels[channelAtEnd]);
    }

    method SetMask(c: Channel, events: Mask)
      requires Filed() && Known(c)
      modifies c`events
      ensures Filed() && Known(c) && c.events == events
      ensures View() == Poll.WithMask(old(View()), c.fd, events)
    {
      c.events := events;
    }

    method Change(c: Channel, op: Op)
      requires Valid() && Known(c) && !op.Remove? && op.fd == c.fd && !failed
      requires c.fd !in channels ==> c.events == NONE
      modifies this`pollfds, this`channels, c`index, c`events
      ensures Valid() && Known(c)
      ensures View() == Poll.Step(old(View()), op)
    {
      Poll.StepKeepsOthers(View(), op);
      ghost var before := View();
      assert c.fd in channels ==> before.channels[c.fd] == Poll.Chan(c.events, c.index);
      Poll.UpdateForgetsMask(before, c.fd, NewMask(c.events, op));
      SetMask(c, NewMask(c.events, op));
      UpdateChannel(c);
    }

    /** `fillActiveChannels`: scan until `numEvents` active entries have been found. */
    method FillActiveChannels(numEvents: nat, revents: seq<int>) returns (active: seq<Channel>)
      requires Valid() && Polled(pollfds, revents) && numEvents == |Active(pollfds, revents)|
      modifies channels.Values`revents
      ensures |active| == numEvents
      ensures forall k :: 0 <= k < numEvents ==> Reports(active[k], revents, Active(pollfds, revents)[k])
    {
      hide Poll.Inv;
      active := [];
      var left, i := numEvents, 0;
      ghost var all := Active(pollfds, revents);
      while i < |pollfds| && left > 0
        invariant i <= |pollfds| && Valid()
        invariant |active| + left == numEvents == |all|
        invariant all[|active|..] == ActiveFrom(pollfds, revents, i)
        invariant forall k :: 0 <= k < |active| ==> all[k] < i && Reports(active[k], revents, all[k])
      {
        if revents[i] > 0 {
          left := left - 1;
          var channel := Activate(i, revents);
          active := active + [channel];
        }
        i := i + 1;
      }
    }

    method Activate(i: nat, revents: seq<int>) returns (c: Channel)
      requires Valid() && Polled(pollfds, revents) && i < |pollfds| && revents[i] > 0
      modifies channels.Values`revents
      ensures Valid() && View() == old(View()) && Reports(c, revents, i)
      ensures forall d :: d in channels.Values && d != c ==> d.revents == old(d.revents)
    {
      Poll.EntryOf(View(), i);
      hide Poll.Inv;
      c := channels[pollfds[i].fd];
      SetRevents(c, revents[i]);
    }

    method SetRevents(c: Channel, revents: int)
      requires Filed() && c.fd in channels && channels[c.fd] == c
      modifies c`revents
      ensures Filed() && View() == old(View()) && c.revents == revents
    {
      c.revents := revents;
    }

    /** `c` is the channel of the entry at `i`, and has been given that entry's events. */
    ghost predicate Reports(c: Channel, revents: seq<int>, i: nat)
      reads this, channels.Values, c
    {
      i < |pollfds| && i < |revents| && pollfds[i].fd >= 0 && pollfds[i].fd in channels
      && c == channels[pollfds[i].fd] && c.index == i && c.revents == revents[i]
    }
  }

  /** What `poll` leaves in `revents` (IEEE Std 1003.1-2017, poll()): no negative value in
      practice, and nothing for an entry whose descriptor is negative. */
  predicate Polled(pollfds: seq<Poll.PollFd>, revents: seq<int>) {
    |revents| == |pollfds|
    && forall i :: 0 <= i < |revents| ==> revents[i] >= 0 && (pollfds[i].fd < 0 ==> revents[i] == 0)
  }

  /** The full filter: the positions of all active entries from `i` on, in array order. */
  function ActiveFrom(pollfds: seq<Poll.PollFd>, revents: seq<int>, i: nat): seq<nat>
    requires |revents| == |pollfds| && i <= |pollfds|
    decreases |pollfds| - i
  {
    if i == |pollfds| then []
    else if revents[i] > 0 then [i] + ActiveFrom(pollfds, revents, i + 1)
    else ActiveFrom(pollfds, revents, i + 1)
  }

  function Active(pollfds: seq<Poll.PollFd>, revents: seq<int>): seq<nat>
    requires |revents| == |pollfds|
  {
    ActiveFrom(pollfds, revents, 0)
  }

  lemma ConsIsExact(i: nat, tail: seq<nat>)
    requires forall k :: k in tail ==> i < k
    requires forall j, k :: 0 <= j < k < |tail| ==> tail[j] < tail[k]
    ensures var a := [i] + tail;
            (forall k :: k in a <==> k == i || k in tail) && (forall j, k :: 0 <= j < k < |a| ==> a[j] < a[k])
  {
    var a := [i] + tail;
    forall j, k | 0 <= j < k < |a| ensures a[j] < a[k] {
      assert a[k] == tail[k - 1] && tail[k - 1] in tail;
    }
  }

  /** The filter holds every active position once, in order. */
  lemma {:induction false} ActiveIsExact(pollfds: seq<Poll.PollFd>, revents: seq<int>, i: nat)
    requires |revents| == |pollfds| && i <= |pollfds|
    ensures var a := ActiveFrom(pollfds, revents, i);
            && (forall k :: k in a <==> i <= k < |pollfds| && revents[k] > 0)
            && (forall j, k :: 0 <= j < k < |a| ==> a[j] < a[k])
    decreases |pollfds| - i
  {
    if i < |pollfds| {
      ActiveIsExact(pollfds, revents, i + 1);
      if revents[i] > 0 {
        ConsIsExact(i, ActiveFrom(pollfds, revents, i + 1));
      }
    }
  }
}
