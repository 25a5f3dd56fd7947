/** The poll poller of net/poller/PollPoller.cpp: an array of pollfd structures, and an
    index from descriptors to positions in it. A channel that wants nothing keeps its
    slot with the descriptor negated, which poll(2) ignores. */
module PollPollers {
  import opened Channels

  datatype PollFd = PollFd(fd: int, events: Mask, revents: Mask)

  /** The descriptor whose slot this is: -(fd + 1) stands for an ignored fd. */
  function Owner(slotFd: int): (fd: nat) {
    if slotFd >= 0 then slotFd else -slotFd - 1
  }

  datatype PollState = PollState(chan: map<Ptr, Chan>, channels: map<nat, Ptr>, slots: seq<PollFd>, index: map<int,
    int>) {
    function New(p: Ptr, fd: nat): PollState {
      this.(chan := chan[p := Chan(fd, NONE_EVENT, NONE_EVENT, Init)])
    }

    /** What `updateChannel` asserts. */
    ghost predicate UpdateAsserts(p: Ptr)
      requires p in chan
    {
      var fd := chan[p].fd;
      if fd !in index then fd !in channels
      else Registered(p) && 0 <= index[fd] < |slots| && Owner(slots[index[fd]].fd) == fd
    }

    /** `updateChannel`. */
    function Update(p: Ptr): PollState
      requires p in chan
      requires chan[p].fd in index ==> 0 <= index[chan[p].fd] < |slots|
    {
      var c := chan[p];
      if c.fd !in index then
        PollState(chan[p := c.(status := Added)], channels[c.fd := p],
                  slots + [PollFd(c.fd, c.events, NONE_EVENT)], index[c.fd := |slots|])
      else
        this.(slots := slots[index[c.fd] :=
          PollFd(if c.events != NONE_EVENT then c.fd else -(c.fd + 1), c.events, NONE_EVENT)])
    }

    /** `Channel::EnableReadEvent` and its siblings: the mask, then the poller. */
    function SetMask(p: Ptr, change: Channels.Change): PollState
      requires p in chan
    {
      this.(chan := chan[p := chan[p].(events := Changed(chan[p].events, change))])
    }

    /** What `RemoveChannel` asserts. */
    ghost predicate RemoveAsserts(p: Ptr)
      requires p in chan
    {
      var fd := chan[p].fd;
      && Registered(p) && chan[p].events == NONE_EVENT
      && fd in index && 0 <= index[fd] < |slots|
      && slots[index[fd]].fd == -(fd + 1) && slots[index[fd]].events == chan[p].events
    }

    /** `RemoveChannel` when the moved last slot is entered in the index under `key`. */
    function RemoveWith(p: Ptr, key: int): PollState
      requires p in chan && chan[p].fd in index && 0 <= index[chan[p].fd] < |slots|
    {
      var fd, last := chan[p].fd, |slots| - 1;
      var idx := index[fd];
      if idx == last then PollState(chan, channels - {fd}, slots[..last], index - {fd})
      else PollState(chan, channels - {fd}, slots[idx := slots[last]][..last], index[key := idx] - {fd})
    }

    /** `RemoveChannel`: the key is the last slot's descriptor field as it stands. */
    function Remove(p: Ptr): PollState
      requires p in chan && chan[p].fd in index && 0 <= index[chan[p].fd] < |slots|
    {
      RemoveWith(p, slots[|slots| - 1].fd)
    }

    // ------------------------------------------------------------ the invariant

    ghost predicate Registered(p: Ptr)
      requires p in chan
    {
      chan[p].fd in channels && channels[chan[p].fd] == p
    }

    /** A registered descriptor has its channel and its slot. */
    ghost predicate RowOk(fd: nat, stale: set<Ptr>)
      requires fd in channels
    {
      var p := channels[fd];
      && p in chan && chan[p].fd == fd
      && fd in index && 0 <= index[fd] < |slots|
      && Owner(slots[index[fd]].fd) == fd
      && (p !in stale ==> slots[index[fd]].events == chan[p].events)
      && (slots[index[fd]].fd < 0 ==> slots[index[fd]].events == NONE_EVENT)
    }

    /** Position `i` is the one the index gives for the owner of its slot. */
    ghost predicate SlotOk(i: nat)
      requires i < |slots|
    {
      Owner(slots[i].fd) in index && index[Owner(slots[i].fd)] == i
    }

    ghost predicate InvBut(stale: set<Ptr>) {
      && (forall k: int :: k in index <==> k >= 0 && k in channels)
      && (forall fd {:trigger RowOk(fd, stale)} :: fd in channels ==> RowOk(fd, stale))
      && (forall i: nat {:trigger SlotOk(i)} :: i < |slots| ==> SlotOk(i))
    }

    /** The index is a bijection between the keys of `channels_` and the positions of
        `pollfds_`; every slot holds the descriptor or its negation, and the mask. */
    ghost predicate Inv() { InvBut({}) }

    /** Another channel does not hold the descriptor. */
    ghost predicate FreshFd(p: Ptr)
      requires p in chan
    {
      chan[p].fd in channels ==> channels[chan[p].fd] == p
    }

    /** Slots in use with the masks poll(2) is asked to watch. */
    ghost function Monitored(): set<(int, Mask)> {
      set i | 0 <= i < |slots| && slots[i].fd >= 0 && slots[i].events != NONE_EVENT :: (slots[i].fd, slots[i].events)
    }
  }

  lemma NewKeepsInv(s: PollState, p: Ptr, fd: nat)
    requires s.Inv() && p !in s.chan
    ensures s.New(p, fd).Inv()
  {
    var t := s.New(p, fd);
    forall g | g in t.channels ensures t.RowOk(g, {}) { assert s.RowOk(g, {}); }
    forall i: nat | i < |t.slots| ensures t.SlotOk(i) { assert s.SlotOk(i); }
  }

  lemma UpdateKeepsInv(s: PollState, p: Ptr)
    requires s.InvBut({p}) && p in s.chan && s.FreshFd(p)
    ensures s.UpdateAsserts(p)
    ensures s.Update(p).Inv()
    ensures s.Update(p).channels == s.channels[s.chan[p].fd := p]
  {
    var fd := s.chan[p].fd;
    if fd in s.channels { assert s.RowOk(fd, {p}); }
    var t := s.Update(p);
    forall g | g in t.channels ensures t.RowOk(g, {}) {
      if g in s.channels {
        assert s.RowOk(g, {p});
        if g != fd && fd in s.channels { assert s.RowOk(fd, {p}); }
      }
    }
    forall i: nat | i < |t.slots| ensures t.SlotOk(i) {
      if i < |s.slots| { assert s.SlotOk(i); }
    }
  }

  lemma ChangeKeepsInv(s: PollState, p: Ptr, change: Change)
    requires s.Inv() && p in s.chan && s.FreshFd(p)
    ensures s.SetMask(p, change).InvBut({p}) && s.SetMask(p, change).UpdateAsserts(p)
    ensures s.SetMask(p, change).Update(p).Inv()
    ensures s.SetMask(p, change).Update(p).channels == s.channels[s.chan[p].fd := p]
  {
    var m := s.SetMask(p, change);
    forall g | g in m.channels ensures m.RowOk(g, {p}) { assert s.RowOk(g, {}); }
    forall i: nat | i < |m.slots| ensures m.SlotOk(i) { assert s.SlotOk(i); }
    UpdateKeepsInv(m, p);
  }

  /** A removal keeps the index a bijection exactly if nothing is moved, or the moved
      slot is entered under the descriptor that owns it. */
  lemma RemoveWithKeepsInvIff(s: PollState, p: Ptr, key: int)
    requires s.Inv() && p in s.chan && s.RemoveAsserts(p)
    ensures s.RemoveWith(p, key).Inv()
       <==> (s.index[s.chan[p].fd] == |s.slots| - 1 || key == Owner(s.slots[|s.slots| - 1].fd))
  {
    var fd, last := s.chan[p].fd, |s.slots| - 1;
    var idx, owner := s.index[fd], Owner(s.slots[last].fd);
    var t := s.RemoveWith(p, key);
    assert s.SlotOk(last) && s.SlotOk(idx);
    if idx == last || key == owner {
      forall g | g in t.channels ensures t.RowOk(g, {}) {
        assert s.RowOk(g, {}) && s.RowOk(fd, {});
        if s.index[g] == last { assert g == owner; }
      }
      forall i: nat | i < |t.slots| ensures t.SlotOk(i) {
        assert s.SlotOk(i);
        if i != idx { assert Owner(s.slots[i].fd) != owner && Owner(s.slots[i].fd) != fd; }
      }
    } else {
      assert owner != fd && owner in t.channels;
      assert t.index[owner] == last == |t.slots|;
      assert !t.RowOk(owner, {});
    }
  }

  /** As written, the removal keeps the bijection exactly if the removed slot is the last
      one or the last slot is not an ignored one: a negated descriptor is not decoded
      before it is used as a key. */
  lemma RemoveKeepsInvIff(s: PollState, p: Ptr)
    requires s.Inv() && p in s.chan && s.RemoveAsserts(p)
    ensures s.Remove(p).Inv()
       <==> (s.index[s.chan[p].fd] == |s.slots| - 1 || s.slots[|s.slots| - 1].fd >= 0)
  {
    RemoveWithKeepsInvIff(s, p, s.slots[|s.slots| - 1].fd);
  }

  /** When it does not, the moved channel is lost: the position the index has for it is
      past the end, so its next update fails its own bounds assertion. */
  lemma BadRemoveStrandsMovedChannel(s: PollState, p: Ptr)
    requires s.Inv() && p in s.chan && s.RemoveAsserts(p)
    requires s.index[s.chan[p].fd] != |s.slots| - 1 && s.slots[|s.slots| - 1].fd < 0
    ensures var moved := Owner(s.slots[|s.slots| - 1].fd);
      && moved in s.Remove(p).channels
      && s.Remove(p).channels[moved] in s.Remove(p).chan
      && !s.Remove(p).UpdateAsserts(s.Remove(p).channels[moved])
  {
    var last := |s.slots| - 1;
    assert s.SlotOk(last);
    assert s.RowOk(Owner(s.slots[last].fd), {});
  }

  /** poll(2) is asked about a descriptor exactly if its registered channel wants
      something, and then for just that. */
  lemma MonitoredExactly(s: PollState)
    requires s.Inv()
    ensures s.Monitored() == Wanted(s.chan, s.channels)
  {
    forall e | e in s.Monitored() ensures e in Wanted(s.chan, s.channels) {
      var i :| 0 <= i < |s.slots| && s.slots[i].fd >= 0 && s.slots[i].events != NONE_EVENT &&
        e == (s.slots[i].fd, s.slots[i].events);
      assert s.SlotOk(i) && s.RowOk(s.slots[i].fd, {});
    }
    forall e | e in Wanted(s.chan, s.channels) ensures e in s.Monitored() {
      var fd :| fd in s.channels && s.channels[fd] in s.chan && s.chan[s.channels[fd]].events != NONE_EVENT &&
        e == (fd as int, s.chan[s.channels[fd]].events);
      assert s.RowOk(fd, {});
      var i := s.index[fd];
      assert s.slots[i].fd >= 0 && s.slots[i].events != NONE_EVENT;
    }
  }

  // ---------------------------------------------------------------- active channels

  /** The descriptors of the first `n` slots with an event, in order. */
  ghost function Fired(slots: seq<PollFd>, n: int): seq<int> {
    if slots == [] || n <= 0 then []
    else if slots[0].revents != NONE_EVENT then [slots[0].fd] + Fired(slots[1..], n - 1)
    else Fired(slots[1..], n)
  }

  ghost function Count(slots: seq<PollFd>): nat {
    if slots == [] then 0 else (if slots[0].revents != NONE_EVENT then 1 else 0) + Count(slots[1..])
  }

  lemma FiredFrom(slots: seq<PollFd>, i: nat, n: int)
    requires i < |slots| && n > 0
    ensures Fired(slots[i..], n) ==
      if slots[i].revents != NONE_EVENT then [slots[i].fd] + Fired(slots[i + 1..], n - 1) else Fired(slots[i + 1..], n)
  {
    assert slots[i..][0] == slots[i] && slots[i..][1..] == slots[i + 1..];
  }

  /** poll(2) answers with the number of slots it marked; with that number, the scan
      reports every marked slot. */
  lemma {:induction false} FiredFindsAll(slots: seq<PollFd>, n: int)
    requires Count(slots) <= n
    ensures |Fired(slots, n)| == Count(slots)
    ensures forall i :: 0 <= i < |slots| && slots[i].revents != NONE_EVENT ==> slots[i].fd in Fired(slots, n)
    ensures forall fd :: fd in Fired(slots, n) ==>
      exists i :: 0 <= i < |slots| && slots[i].revents != NONE_EVENT && slots[i].fd == fd
  {
    if slots != [] {
      var m := if slots[0].revents != NONE_EVENT then n - 1 else n;
      FiredFindsAll(slots[1..], m);
      if n <= 0 { CountZero(slots); }
      forall i | 0 <= i < |slots| && slots[i].revents != NONE_EVENT ensures slots[i].fd in Fired(slots, n) {
        if i > 0 { assert slots[i] == slots[1..][i - 1]; }
      }
      forall fd | fd in Fired(slots, n)
        ensures exists i :: 0 <= i < |slots| && slots[i].revents != NONE_EVENT && slots[i].fd == fd
      {
        if fd in Fired(slots[1..], m) {
          var i :| 0 <= i < |slots[1..]| && slots[1..][i].revents != NONE_EVENT && slots[1..][i].fd == fd;
          assert slots[i + 1] == slots[1..][i];
        } else {
          assert slots[0].revents != NONE_EVENT && slots[0].fd == fd;
        }
      }
    }
  }

  lemma {:induction false} CountZero(slots: seq<PollFd>)
    requires Count(slots) == 0
    ensures forall i :: 0 <= i < |slots| ==> slots[i].revents == NONE_EVENT
  {
    if slots != [] {
      CountZero(slots[1..]);
      forall i | 0 <= i < |slots| ensures slots[i].revents == NONE_EVENT {
        if i > 0 { assert slots[i] == slots[1..][i - 1]; }
      }
    }
  }

  class PollPoller {
    var chan: map<Ptr, Chan>
    var channels: map<nat, Ptr>
    var pollfds: seq<PollFd>
    var fdInpollfdsIdx: map<int, int>

    ghost function State(): PollState
      reads this
    {
      PollState(chan, channels, pollfds, fdInpollfdsIdx)
    }

    constructor ()
      ensures State() == PollState(map[], map[], [], map[]) && State().Inv()
    {
      chan, channels, pollfds, fdInpollfdsIdx := map[], map[], [], map[];
    }

    method UpdateChannel(p: Ptr)
      requires p in chan && State().InvBut({p}) && State().FreshFd(p)
      modifies this
      ensures old(State()).UpdateAsserts(p)
      ensures State() == old(State()).Update(p) && State().Inv()
    {
      UpdateKeepsInv(State(), p);
      var fd: int := chan[p].fd;
      if fd !in fdInpollfdsIdx {
        assert fd !in channels;
        pollfds := pollfds + [PollFd(fd, chan[p].events, NONE_EVENT)];
        channels := channels[chan[p].fd := p];
        chan := chan[p := chan[p].(status := Added)];
        fdInpollfdsIdx := fdInpollfdsIdx[fd := |pollfds| - 1];
      } else {
        assert State().Registered(p);
        var idx := fdInpollfdsIdx[fd];
        assert 0 <= idx < |pollfds|;
        assert pollfds[idx].fd == fd || pollfds[idx].fd == -(fd + 1);
        var isIgnored := chan[p].events == NONE_EVENT;
        pollfds := pollfds[idx := PollFd(if !isIgnored then fd else -(fd + 1), chan[p].events, NONE_EVENT)];
      }
    }

    /** Enabling or disabling a direction of a channel, and telling the poller. */
    method Change(p: Ptr, change: Channels.Change)
      requires State().Inv() && p in chan && State().FreshFd(p)
      modifies this
      ensures old(State()).SetMask(p, change).UpdateAsserts(p)
      ensures State() == old(State()).SetMask(p, change).Update(p) && State().Inv()
    {
      ChangeKeepsInv(State(), p, change);
      chan := chan[p := chan[p].(events := Changed(chan[p].events, change))];
      UpdateChannel(p);
    }

    method RemoveChannel(p: Ptr)
      requires State().Inv() && p in chan && State().RemoveAsserts(p)
      modifies this
      ensures State() == old(State()).Remove(p)
      ensures State().Inv() <==> old(fdInpollfdsIdx[chan[p].fd] == |pollfds| - 1 || pollfds[|pollfds| - 1].fd >= 0)
    {
      RemoveKeepsInvIff(State(), p);
      var fd := chan[p].fd;
      var idx := fdInpollfdsIdx[fd];
      channels := channels - {fd};
      if idx == |pollfds| - 1 {
        pollfds := pollfds[..|pollfds| - 1];
      } else {
        var lastIdx := |pollfds| - 1;
        var lastFd := pollfds[lastIdx].fd;
        ghost var was := pollfds;
        pollfds := pollfds[lastIdx := pollfds[idx]][idx := pollfds[lastIdx]];
        fdInpollfdsIdx := fdInpollfdsIdx[lastFd := idx];
        pollfds := pollfds[..|pollfds| - 1];
        assert pollfds == was[idx := was[lastIdx]][..lastIdx];
      }
      fdInpollfdsIdx := fdInpollfdsIdx - {fd};
    }

    /** The channel has been given the events of its slot. */
    ghost predicate Delivered(p: Ptr)
      reads this
    {
      && p in chan && chan[p].fd in fdInpollfdsIdx && 0 <= fdInpollfdsIdx[chan[p].fd] < |pollfds|
      && chan[p].revents == pollfds[fdInpollfdsIdx[chan[p].fd]].revents
    }

    /** `p` is the channel registered for the slot's descriptor, and has its events. */
    ghost predicate Entered(slotFd: int, p: Ptr)
      reads this
    {
      slotFd >= 0 && slotFd in channels && p == channels[slotFd as nat] && Delivered(p)
    }

    /** The channels are as they were but for the events received. */
    ghost predicate SameButEvents(was: map<Ptr, Chan>)
      reads this
    {
      && chan.Keys == was.Keys
      && forall p :: p in chan ==> chan[p].(revents := NONE_EVENT) == was[p].(revents := NONE_EVENT)
    }

    /** The channel of a marked slot gets its events. */
    method Deliver(it: nat) returns (p: Ptr)
      requires State().Inv() && it < |pollfds| && pollfds[it].fd >= 0
      modifies this`chan
      ensures State().Inv() && Entered(pollfds[it].fd, p) && SameButEvents(old(chan))
      ensures forall q :: old(Delivered(q)) ==> Delivered(q)
    {
      ghost var s := State();
      var fd: nat := pollfds[it].fd;
      assert s.SlotOk(it) && s.RowOk(fd, {});
      assert fd in channels;
      p := channels[fd];
      chan := chan[p := chan[p].(revents := pollfds[it].revents)];
      forall g | g in channels ensures State().RowOk(g, {}) { assert s.RowOk(g, {}); }
      forall i: nat | i < |pollfds| ensures State().SlotOk(i) { assert s.SlotOk(i); }
    }

    /** The scan after poll(2): `revents` is set by the kernel, which leaves it empty in
        ignored slots. */
    method FillActiveChannels(numEvents: nat) returns (active: seq<Ptr>)
      requires State().Inv()
      requires forall i :: 0 <= i < |pollfds| && pollfds[i].revents != NONE_EVENT ==> pollfds[i].fd >= 0
      modifies this`chan
      ensures |active| == |Fired(pollfds, numEvents)|
      ensures forall k :: 0 <= k < |active| ==> Entered(Fired(pollfds, numEvents)[k], active[k])
      ensures State().Inv() && SameButEvents(old(chan))
    {
      active := [];
      var left: int := numEvents;
      var it := 0;
      ghost var fds: seq<int> := [];
      while it < |pollfds| && left > 0
        invariant 0 <= it <= |pollfds| && left >= 0 && State().Inv() && SameButEvents(old(chan))
        invariant fds + Fired(pollfds[it..], left) == Fired(pollfds, numEvents) && |fds| == |active|
        invariant forall k :: 0 <= k < |active| ==> Entered(fds[k], active[k])
      {
        FiredFrom(pollfds, it, left);
        if pollfds[it].revents != NONE_EVENT {
          left := left - 1;
          var p := Deliver(it);
          assert fds + ([pollfds[it].fd] + Fired(pollfds[it + 1..], left)) == fds + [pollfds[it].fd] +
            Fired(pollfds[it + 1..], left);
          active, fds := active + [p], fds + [pollfds[it].fd];
        }
        it := it + 1;
      }
      assert Fired(pollfds[it..], left) == [];
    }
  }
}
