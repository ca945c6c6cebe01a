/** The objects of net/Channel.h and net/Poller.cpp; their methods are proved against `Registry`. */
module PollerObject {
  import opened G = Registry

  class Channel {
    const poller: Poller  // the poller of the owning loop
    const fd: nat
    var events: Mask
    var revents: Mask
    var index: int
    var eventHandling: bool

    constructor (poller: Poller, fd: nat)
      ensures this.poller == poller && this.fd == fd
      ensures events == NONE_EVENT && revents == {} && index == -1 && !eventHandling
    {
      this.poller, this.fd := poller, fd;
      events, revents, index, eventHandling := NONE_EVENT, {}, -1, false;
    }

    /** What the assertions of `updateChannel` ask of a channel: new with a free descriptor, or registered. */
    ghost predicate Ready()
      reads this`index, poller, poller.channelMap.Values`index
    {
      && poller.Valid()
      && if index < 0 then fd !in poller.channelMap
         else fd in poller.channelMap && poller.channelMap[fd] == this
    }

    /** The registry after this channel reports its interest. */
    ghost function Reported(events: Mask): Registry
      requires Ready()
      reads this`index, poller, poller.channelMap.Values`index
    {
      if index < 0 then Add(poller.view, fd, events) else Update(poller.view, fd, events)
    }

    predicate IsWriting()
      reads this
    {
      Has(events, WRITE_EVENT)
    }

    predicate IsNoneEvent()
      reads this
    {
      events == NONE_EVENT
    }

    method EnableReading()
      requires Ready()
      modifies this`events, this`index, poller
      ensures events == old(events) + READ_EVENT
      ensures forall flag :: flag in events <==> flag in old(events) || flag == POLLIN || flag == POLLPRI
      ensures Ready() && index >= 0 && poller.view == old(Reported(events + READ_EVENT))
      ensures old(poller.SyncedExcept(this)) ==> poller.Synced()
      ensures poller.channelMap == old(poller.channelMap)[fd := this]
    {
      events := events + READ_EVENT;
      poller.UpdateChannel(this);
    }

    method EnableWriting()
      requires Ready()
      modifies this`events, this`index, poller
      ensures events == old(events) + WRITE_EVENT
      ensures forall flag :: flag in events <==> flag in old(events) || flag == POLLOUT
      ensures Ready() && index >= 0 && poller.view == old(Reported(events + WRITE_EVENT))
      ensures old(poller.SyncedExcept(this)) ==> poller.Synced()
      ensures poller.channelMap == old(poller.channelMap)[fd := this]
    {
      events := events + WRITE_EVENT;
      poller.UpdateChannel(this);
    }

    method DisableWriting()
      requires Ready()
      modifies this`events, this`index, poller
      ensures events == old(events) - WRITE_EVENT
      ensures forall flag :: flag in events <==> flag in old(events) && flag != POLLOUT
      ensures Ready() && index >= 0 && poller.view == old(Reported(events - WRITE_EVENT))
      ensures old(poller.SyncedExcept(this)) ==> poller.Synced()
      ensures poller.channelMap == old(poller.channelMap)[fd := this]
    {
      events := events - WRITE_EVENT;
      poller.UpdateChannel(this);
    }

    method DisableAll()
      requires Ready()
      modifies this`events, this`index, poller
      ensures events == {}
      ensures Ready() && index >= 0 && poller.view == old(Reported(NONE_EVENT))
      ensures old(index) >= 0 ==> poller.pollfds[index].fd + fd == -1 && poller.pollfds[index].events == {}
      ensures old(poller.SyncedExcept(this)) ==> poller.Synced()
      ensures poller.channelMap == old(poller.channelMap)[fd := this]
    {
      events := NONE_EVENT;
      poller.UpdateChannel(this);
    }
  }

  class Poller {
    var pollfds: seq<PollFd>
    var channelMap: map<nat, Channel>

    /** The vector and the back-indices as a value. */
    ghost var view: Registry

    ghost predicate Valid()
      reads this, channelMap.Values`index
    {
      && view.Linked()
      && view.pfds == pollfds
      && view.index.Keys == channelMap.Keys
      && forall fd :: fd in channelMap ==>
           && channelMap[fd].fd == fd && channelMap[fd].poller == this
           && channelMap[fd].index == view.index[fd]
    }

    /** Each slot asks the kernel for what its channel wants; `ch` may have changed its mind. */
    ghost predicate SyncedExcept(ch: Channel)
      requires Valid()
      reads this, channelMap.Values`index, channelMap.Values`events
    {
      forall fd :: fd in channelMap && channelMap[fd] != ch ==>
        pollfds[view.index[fd]].events == channelMap[fd].events
    }

    ghost predicate Synced()
      requires Valid()
      reads this, channelMap.Values`index, channelMap.Values`events
    {
      forall fd :: fd in channelMap ==> pollfds[view.index[fd]].events == channelMap[fd].events
    }

    constructor ()
      ensures Valid() && Synced() && view == EMPTY_REGISTRY
    {
      pollfds, channelMap, view := [], map[], EMPTY_REGISTRY;
    }

    method UpdateChannel(ch: Channel)
      requires ch.poller == this && ch.Ready()
      modifies this, ch`index
      ensures ch.Ready() && ch.index >= 0 && view == old(ch.Reported(ch.events))
      ensures pollfds[ch.index].events == ch.events && pollfds[ch.index].revents == {}
      ensures old(ch.index) >= 0 && ch.events == {} ==> pollfds[ch.index].fd + ch.fd == -1
      ensures channelMap == old(channelMap)[ch.fd := ch]
      ensures old(SyncedExcept(ch)) ==> Synced()
    {
      if ch.index < 0 {
        AddChannel(ch);
      } else {
        UpdateSlot(ch);
      }
    }

    /** A new channel gets a slot at the end. */
    method AddChannel(ch: Channel)
      requires ch.poller == this && ch.Ready() && ch.index < 0
      modifies this, ch`index
      ensures ch.Ready() && ch.index >= 0 && view == Add(old(view), ch.fd, ch.events)
      ensures pollfds[ch.index].events == ch.events && pollfds[ch.index].revents == {} && pollfds[ch.index].fd == ch.fd
      ensures channelMap == old(channelMap)[ch.fd := ch]
      ensures old(SyncedExcept(ch)) ==> Synced()
    {
      AddKeepsLinks(view, ch.fd, ch.events);
      view := Add(view, ch.fd, ch.events);
      pollfds := pollfds + [PollFd(ch.fd, ch.events, {})];
      ch.index := |pollfds| - 1;
      channelMap := channelMap[ch.fd := ch];
    }

    /** A registered channel's slot takes its interest, and is muted if there is none. */
    method UpdateSlot(ch: Channel)
      requires ch.poller == this && ch.Ready() && ch.index >= 0
      modifies this`pollfds, this`view
      ensures ch.Ready() && view == Update(old(view), ch.fd, ch.events)
      ensures channelMap[ch.fd := ch] == channelMap
      ensures pollfds[ch.index].events == ch.events && pollfds[ch.index].revents == {}
      ensures ch.events == {} ==> pollfds[ch.index].fd + ch.fd == -1
      ensures old(SyncedExcept(ch)) ==> Synced()
    {
      assert view.pfds[view.index[ch.fd]].Owner() == ch.fd;  // the assertion on line 71
      UpdateKeepsLinks(view, ch.fd, ch.events);
      view := Update(view, ch.fd, ch.events);
      var pfd := pollfds[ch.index].(events := ch.events, revents := {});
      if ch.IsNoneEvent() {
        pfd := pfd.(fd := Mute(ch.fd));
      }
      pollfds := pollfds[ch.index := pfd];
    }

    /** Descriptor `fd` is gone from the map, but not yet from the vector and the back-indices. */
    ghost predicate HalfRemoved(fd: nat)
      reads this, channelMap.Values`index
    {
      && view.Linked() && fd in view.index
      && view.pfds == pollfds && channelMap.Keys == view.index.Keys - {fd}
      && forall other :: other in channelMap ==>
           && channelMap[other].fd == other && channelMap[other].poller == this
           && channelMap[other].index == view.index[other]
    }

    /** The channels left after a removal, the one of the last slot with a new index. */
    lemma RemovalIsValid(g: Registry, fd: nat)
      requires g.Linked() && fd in g.index
      requires view == Remove(g, fd) && pollfds == view.pfds && channelMap.Keys == g.index.Keys - {fd}
      requires forall other :: other in channelMap ==>
        && channelMap[other].fd == other && channelMap[other].poller == this
        && channelMap[other].index == if g.index[other] == |g.pfds| - 1 then g.index[fd] else g.index[other]
      ensures Valid()
      ensures forall other :: other in channelMap ==> pollfds[view.index[other]] == g.pfds[g.index[other]]
    {
      hide Remove;
      RemoveKeepsLinks(g, fd);
      RemoveMovesLast(g, fd);
    }

    /** The slot goes, in constant time: the last one takes its place. */
    method EraseSlot(index: nat, ghost fd: nat)
      requires HalfRemoved(fd) && index == view.index[fd]
      modifies this`pollfds, this`view, channelMap.Values`index
      ensures Valid() && view == Remove(old(view), fd)
      ensures forall other :: other in channelMap ==>
                pollfds[view.index[other]] == old(pollfds)[old(view).index[other]]
    {
      ghost var g := view;
      assert forall other :: other in g.index ==> g.pfds[g.index[other]].Owner() == other;
      if index == |pollfds| - 1 {
        pollfds := pollfds[..index];
      } else {
        var endFd := pollfds[|pollfds| - 1].fd;
        pollfds := pollfds[index := pollfds[|pollfds| - 1]][|pollfds| - 1 := pollfds[index]];
        if endFd < 0 {
          endFd := -endFd - 1;
        }
        assert g.index[endFd] == |g.pfds| - 1;
        channelMap[endFd].index := index;
        pollfds := pollfds[..|pollfds| - 1];
      }
      view := Remove(g, fd);
      assert pollfds == view.pfds;
      RemovalIsValid(g, fd);
    }

    /** Unregister a muted channel; its own index is left as it was. */
    method RemoveChannel(ch: Channel)
      requires Valid() && ch.fd in channelMap && channelMap[ch.fd] == ch
      requires ch.IsNoneEvent()
      requires pollfds[ch.index].fd == Mute(ch.fd) && pollfds[ch.index].events == ch.events
      modifies this, (channelMap.Values - {ch})`index
      ensures Valid() && view == Remove(old(view), ch.fd)
      ensures channelMap == old(channelMap) - {ch.fd}
      ensures old(Synced()) ==> Synced()
    {
      var index := ch.index;
      channelMap := channelMap - {ch.fd};
      EraseSlot(index, ch.fd);
    }

    /**
     The scan after `poll` returned: the channels of the first `numEvents` slots that have
     events, in slot order, each with the events of its slot. Muted slots have none, as
     POSIX.1-2017 says of negative descriptors.
    */
    method FillActiveChannels(numEvents: nat) returns (active: seq<Channel>)
      requires Valid()
      requires forall i :: 0 <= i < |pollfds| && pollfds[i].Active() ==> !pollfds[i].Muted()
      modifies channelMap.Values`revents
      ensures Valid()
      ensures var slots := ActiveSlots(pollfds);
              && |active| == (if numEvents < |slots| then numEvents else |slots|)
              && AllReport(active, slots)
    {
      hide ActiveSlots;
      active := [];
      var left := numEvents;
      var i := 0;
      ghost var slots := ActiveSlots(pollfds);
      while i < |pollfds| && left > 0
        invariant 0 <= i <= |pollfds| && Valid()
        invariant SplitsAt(slots, |active|, i)
        invariant left == numEvents - |active|
        invariant AllReport(active, slots)
        decreases |pollfds| - i
      {
        ScanStep(pollfds, |active|, i);
        if pollfds[i].Active() {
          left := left - 1;
          assert pollfds[i].Owner() == pollfds[i].fd;
          var channel := channelMap[pollfds[i].fd];
          Report(channel, i, active, slots);
          active := active + [channel];
        }
        i := i + 1;
      }
      if left > 0 { ScanEnds(pollfds, |active|); }
    }

    /** Tell a channel the events of its slot; channels of earlier slots keep what they were told. */
    method Report(ch: Channel, slot: nat, ghost told: seq<Channel>, ghost slots: seq<nat>)
      requires Valid() && slot < |pollfds|
      requires ch.fd in channelMap && channelMap[ch.fd] == ch && ch.index == slot
      requires |told| < |slots| && slots[|told|] == slot
      requires forall k :: 0 <= k < |slots| ==> slots[k] < |pollfds|
      requires forall k :: 0 <= k < |told| ==> slots[k] < slot
      requires AllReport(told, slots)
      modifies ch`revents
      ensures Valid() && AllReport(told + [ch], slots)
    {
      ch.revents := pollfds[slot].revents;
    }

    ghost predicate AllReport(active: seq<Channel>, slots: seq<nat>)
      requires Valid() && |active| <= |slots|
      requires forall k :: 0 <= k < |slots| ==> slots[k] < |pollfds|
      reads this, channelMap.Values`index, active
    {
      forall k :: 0 <= k < |active| ==> Reports(active[k], slots[k])
    }

    /** `ch` is the channel registered in a slot, and it has been told the events of that slot. */
    ghost predicate Reports(ch: Channel, slot: nat)
      requires Valid() && slot < |pollfds|
      reads this, channelMap.Values`index, ch
    {
      && ch.fd in channelMap && channelMap[ch.fd] == ch
      && ch.index == slot && ch.revents == pollfds[slot].revents
    }
  }
}
