/** The epoll poller of net/poller/EpollPoller.cpp.

    Channels are reached through pointers, as in the original: a channel table maps each
    pointer to its channel. The kernel's epoll instance is part of the state: `Ctl`
    refuses an ADD of a present descriptor and a MOD or DEL of an absent one, and
    `rejected` counts the refusals. */
module EpollPollers {
  import opened Channels

  datatype Operation = Add | Mod | Del

  /** What the kernel keeps for a descriptor: the user pointer and the wanted events. */
  datatype Entry = Entry(ptr: Ptr, mask: Mask)

  datatype EpollState = EpollState(chan: map<Ptr, Chan>, channels: map<nat, Ptr>, kernel: map<nat, Entry>,
    rejected: nat) {
    function Ctl(op: Operation, p: Ptr): EpollState
      requires p in chan
    {
      var fd := chan[p].fd;
      if (op == Add) == (fd in kernel) then this.(rejected := rejected + 1)
      else if op == Del then this.(kernel := kernel - {fd})
      else this.(kernel := kernel[fd := Entry(p, chan[p].events)])
    }

    function SetStatus(p: Ptr, s: Status): EpollState
      requires p in chan
    {
      this.(chan := chan[p := chan[p].(status := s)])
    }

    /** `updateChannel`. */
    function Update(p: Ptr): EpollState
      requires p in chan
    {
      var c := chan[p];
      if c.status == Init then this.(channels := channels[c.fd := p]).SetStatus(p, Added).Ctl(Add, p)
      else if c.status == Deleted then SetStatus(p, Added).Ctl(Add, p)
      else if c.events == NONE_EVENT then Ctl(Del, p).SetStatus(p, Deleted)
      else Ctl(Mod, p)
    }

    /** `RemoveChannel`. */
    function Remove(p: Ptr): EpollState
      requires p in chan
    {
      var s := this.(channels := channels - {chan[p].fd});
      (if chan[p].status == Added then s.Ctl(Del, p) else s).SetStatus(p, Init)
    }

    /** `Channel::EnableReadEvent` and its siblings: the mask, then the poller. */
    function Change(p: Ptr, change: Channels.Change): EpollState
      requires p in chan
    {
      this.(chan := chan[p := chan[p].(events := Changed(chan[p].events, change))]).Update(p)
    }

    function New(p: Ptr, fd: nat): EpollState {
      this.(chan := chan[p := Chan(fd, NONE_EVENT, NONE_EVENT, Init)])
    }

    /** The channel is deleted. */
    function Gone(p: Ptr): EpollState {
      this.(chan := chan - {p})
    }

    /** `channels_` leads from the descriptor of `p` back to `p`. */
    ghost predicate Registered(p: Ptr)
      requires p in chan
    {
      chan[p].fd in channels && channels[chan[p].fd] == p
    }

    /** What `updateChannel` asserts. */
    ghost predicate UpdateAsserts(p: Ptr)
      requires p in chan
    {
      chan[p].status != Init ==> Registered(p)
    }

    /** What `RemoveChannel` asserts. */
    ghost predicate RemoveAsserts(p: Ptr)
      requires p in chan
    {
      Registered(p) && chan[p].events == NONE_EVENT && chan[p].status != Init
    }

    /** The row of one registered descriptor. `stale` is a channel whose mask was changed
        and not yet passed on. */
    ghost predicate RowOk(fd: nat, stale: set<Ptr>)
      requires fd in channels
    {
      var p := channels[fd];
      && p in chan && chan[p].fd == fd && chan[p].status != Init
      && (fd in kernel <==> chan[p].status == Added)
      && (fd in kernel ==> kernel[fd].ptr == p && (p !in stale ==> kernel[fd].mask == chan[p].events))
      && (fd !in kernel && p !in stale ==> chan[p].events == NONE_EVENT)
    }

    ghost predicate InvBut(stale: set<Ptr>) {
      && kernel.Keys <= channels.Keys
      && (forall fd {:trigger RowOk(fd, stale)} :: fd in channels ==> RowOk(fd, stale))
      && (forall p {:trigger Registered(p)} :: p in chan ==> (Registered(p) <==> chan[p].status != Init))
      && rejected == 0
    }

    /** Status says exactly where a channel is: Init ones are in neither table, Added
        ones in both with their own mask in the kernel, Deleted ones only in `channels`
        and wanting nothing; and the kernel has refused nothing. */
    ghost predicate Inv() { InvBut({}) }

    /** The descriptor of a channel the poller does not know is not taken by another. */
    ghost predicate FreshFd(p: Ptr)
      requires p in chan
    {
      chan[p].status == Init ==> chan[p].fd !in channels
    }

    /** What the kernel watches for: the descriptors with their masks. */
    ghost function Monitored(): set<(int, Mask)> {
      set fd | fd in kernel && kernel[fd].mask != NONE_EVENT :: (fd as int, kernel[fd].mask)
    }
  }

  lemma NewKeepsInv(s: EpollState, p: Ptr, fd: nat)
    requires s.Inv() && p !in s.chan
    ensures s.New(p, fd).Inv()
  {
    var t := s.New(p, fd);
    forall g | g in t.channels ensures t.RowOk(g, {}) { assert s.RowOk(g, {}); }
    forall q | q in t.chan ensures t.Registered(q) <==> t.chan[q].status != Init {
      if q == p {
        if fd in s.channels { assert s.RowOk(fd, {}); }
      } else {
        assert s.Registered(q) <==> s.chan[q].status != Init;
      }
    }
  }

  /** A step that touches the channel `p` and the rows of its descriptor only keeps the
      invariant if it leaves those in order. */
  lemma LocalStep(s: EpollState, t: EpollState, p: Ptr)
    requires s.InvBut({p}) && p in s.chan && s.FreshFd(p)
    requires t.chan.Keys == s.chan.Keys && (forall q :: q in s.chan && q != p ==> t.chan[q] == s.chan[q])
    requires t.chan[p].fd == s.chan[p].fd && t.rejected == 0
    requires t.channels == s.channels[s.chan[p].fd := p] || t.channels == s.channels - {s.chan[p].fd}
    requires forall g :: g != s.chan[p].fd ==> (g in t.kernel <==> g in s.kernel) && (g in t.kernel ==>
      t.kernel[g] == s.kernel[g])
    requires if s.chan[p].fd in t.channels then t.RowOk(s.chan[p].fd, {})
             else t.chan[p].status == Init && s.chan[p].fd !in t.kernel
    ensures t.Inv()
  {
    var fd := s.chan[p].fd;
    assert s.Registered(p) <==> s.chan[p].status != Init;
    forall g | g in t.channels ensures t.RowOk(g, {}) {
      if g != fd { assert s.RowOk(g, {p}); }
    }
    forall q | q in t.chan ensures t.Registered(q) <==> t.chan[q].status != Init {
      if q != p { assert s.Registered(q) <==> s.chan[q].status != Init; }
    }
    forall g | g in t.kernel ensures g in t.channels { }
  }

  /** An update is one legal kernel call: the assertion on a channel seen before holds,
      nothing is refused, and afterwards the kernel has the channel exactly if it wants
      something or was new to the kernel. */
  lemma UpdateKeepsInv(s: EpollState, p: Ptr)
    requires s.InvBut({p}) && p in s.chan && s.FreshFd(p)
    ensures s.chan[p].status != Init ==> s.Registered(p)
    ensures s.Update(p).Inv()
    ensures s.Update(p).channels == s.channels[s.chan[p].fd := p]
    ensures s.chan[p].fd in s.Update(p).kernel
       <==> (s.chan[p].events != NONE_EVENT || s.chan[p].status != Added)
  {
    assert s.Registered(p) <==> s.chan[p].status != Init;
    if s.chan[p].status != Init { assert s.RowOk(s.chan[p].fd, {p}); }
    LocalStep(s, s.Update(p), p);
  }

  lemma ChangeKeepsInv(s: EpollState, p: Ptr, change: Change)
    requires s.Inv() && p in s.chan && s.FreshFd(p)
    ensures var m := s.(chan := s.chan[p := s.chan[p].(events := Changed(s.chan[p].events, change))]);
      m.InvBut({p}) && m.FreshFd(p)
    ensures s.Change(p, change).Inv()
    ensures s.Change(p, change).channels == s.channels[s.chan[p].fd := p]
    ensures s.Change(p, change).chan[p].events == Changed(s.chan[p].events, change)
  {
    var m := s.(chan := s.chan[p := s.chan[p].(events := Changed(s.chan[p].events, change))]);
    forall g | g in m.channels ensures m.RowOk(g, {p}) { assert s.RowOk(g, {}); }
    forall q | q in m.chan ensures m.Registered(q) <==> m.chan[q].status != Init {
      assert s.Registered(q) <==> s.chan[q].status != Init;
    }
    UpdateKeepsInv(m, p);
  }

  /** Removing a registered, idle channel is legal, and leaves no trace of it. */
  lemma RemoveKeepsInv(s: EpollState, p: Ptr)
    requires s.Inv() && p in s.chan && s.chan[p].status != Init && s.chan[p].events == NONE_EVENT
    ensures s.Registered(p)
    ensures s.Remove(p).Inv()
    ensures s.Remove(p).chan[p].status == Init
    ensures s.Remove(p).channels == s.channels - {s.chan[p].fd} && s.chan[p].fd !in s.Remove(p).kernel
  {
    assert s.Registered(p) <==> s.chan[p].status != Init;
    assert s.RowOk(s.chan[p].fd, {});
    forall g | g in s.channels ensures s.RowOk(g, {p}) { assert s.RowOk(g, {}); }
    LocalStep(s, s.Remove(p), p);
  }

  /** What a change does to the tables the poller shows to others. */
  lemma ChangeResult(s: EpollState, p: Ptr, change: Change)
    requires p in s.chan
    ensures var t, k := s.Change(p, change), s.chan[p];
      && t.chan.Keys == s.chan.Keys && (forall q :: q in s.chan && q != p ==> t.chan[q] == s.chan[q])
      && t.chan[p].fd == k.fd && t.chan[p].events == Changed(k.events, change)
      && t.channels == (if k.status == Init then s.channels[k.fd := p] else s.channels)
      && t.chan[p].status == (if k.status == Added && Changed(k.events, change) == NONE_EVENT then Deleted else Added)
  {
  }

  lemma GoneKeepsInv(s: EpollState, p: Ptr)
    requires s.Inv() && p in s.chan && s.chan[p].status == Init
    ensures s.Gone(p).Inv()
  {
    var t := s.Gone(p);
    assert s.Registered(p) <==> s.chan[p].status != Init;
    forall fd | fd in t.channels ensures t.RowOk(fd, {}) { assert s.RowOk(fd, {}); }
    forall q | q in t.chan ensures t.Registered(q) <==> t.chan[q].status != Init {
      assert s.Registered(q) <==> s.chan[q].status != Init;
    }
  }

  /** The kernel watches a descriptor exactly if its registered channel wants something,
      and then for just that. */
  lemma MonitoredExactly(s: EpollState)
    requires s.Inv()
    ensures s.Monitored() == Wanted(s.chan, s.channels)
  {
    forall fd | fd in s.channels ensures s.RowOk(fd, {}) { }
  }

  // ---------------------------------------------------------------- whole runs

  /** What the channels' owners see to: descriptors are not shared, and a channel is removed
      when it is registered and wants nothing. */
  ghost predicate Legal(s: EpollState, c: Call) {
    match c
    case Create(p, _) => p !in s.chan
    case Interest(p, _) => p in s.chan && s.FreshFd(p)
    case Drop(p) => p in s.chan && s.Registered(p) && s.chan[p].events == NONE_EVENT
  }

  ghost predicate Asserts(s: EpollState, c: Call)
    requires Legal(s, c)
  {
    match c
    case Create(_, _) => true
    case Interest(p, change) => s.UpdateAsserts(p)
    case Drop(p) => s.RemoveAsserts(p)
  }

  ghost function Next(s: EpollState, c: Call): EpollState
    requires Legal(s, c)
  {
    match c
    case Create(p, fd) => s.New(p, fd)
    case Interest(p, change) => s.Change(p, change)
    case Drop(p) => s.Remove(p)
  }

  datatype Run = Begin | Then(before: Run, call: Call)

  ghost predicate IsRun(r: Run) {
    r.Then? ==> IsRun(r.before) && Legal(End(r.before), r.call)
  }

  ghost function End(r: Run): EpollState {
    match r
    case Begin => EpollState(map[], map[], map[], 0)
    case Then(before, c) => if Legal(End(before), c) then Next(End(before), c) else End(before)
  }

  /** Epoll legality: over every run of legal calls no assert fails and the kernel refuses
      nothing, so no ADD meets a present descriptor and no MOD or DEL an absent one; and it
      watches exactly what the registered channels want. */
  lemma {:induction false} RunIsLegal(r: Run)
    requires IsRun(r)
    ensures End(r).Inv() && End(r).rejected == 0
    ensures End(r).Monitored() == Wanted(End(r).chan, End(r).channels)
    ensures r.Then? ==> Asserts(End(r.before), r.call)
  {
    if r.Then? {
      RunIsLegal(r.before);
      var s := End(r.before);
      match r.call {
        case Create(p, fd) => NewKeepsInv(s, p, fd);
        case Interest(p, change) =>
          ChangeKeepsInv(s, p, change);
          assert s.Registered(p) <==> s.chan[p].status != Init;
        case Drop(p) =>
          assert s.Registered(p) <==> s.chan[p].status != Init;
          RemoveKeepsInv(s, p);
      }
    }
    MonitoredExactly(End(r));
  }

  ghost function Calls(r: Run): seq<Call> {
    if r.Begin? then [] else Calls(r.before) + [r.call]
  }

  /** The channel is as the calls ask for. */
  ghost predicate AsAsked(s: EpollState, p: Ptr, w: Wish) {
    if p !in s.chan then w == NoChannel
    else w == Wish(s.chan[p].fd, s.chan[p].events, s.chan[p].status != Init)
  }

  lemma StepAsAsked(s: EpollState, c: Call, p: Ptr, w: Wish)
    requires s.Inv() && Legal(s, c) && AsAsked(s, p, w)
    ensures AsAsked(Next(s, c), p, if c.p == p then After(w, c) else w)
  {
    match c {
      case Create(q, fd) =>
      case Interest(q, change) =>
        ChangeResult(s, q, change);
        assert s.Registered(q) <==> s.chan[q].status != Init;
      case Drop(q) =>
        assert s.Registered(q) <==> s.chan[q].status != Init;
        assert s.RowOk(s.chan[q].fd, {});
    }
  }

  /** After any legal calls every channel is as they ask for, and the kernel watches the
      descriptors of the registered ones for just what was asked, no others. */
  lemma {:induction false} PollerDoesWhatWasAsked(r: Run)
    requires IsRun(r)
    ensures forall p {:trigger WishOf(Calls(r), p)} :: AsAsked(End(r), p, WishOf(Calls(r), p))
    ensures End(r).Monitored() ==
      set p | p in End(r).chan && WishOf(Calls(r), p).Wish? && WishOf(Calls(r), p).registered
              && WishOf(Calls(r), p).mask != {}
        :: (WishOf(Calls(r), p).fd as int, WishOf(Calls(r), p).mask)
  {
    ChannelsAsAsked(r);
    RunIsLegal(r);
    var s := End(r);
    forall p | p in s.chan
      ensures AsAsked(s, p, WishOf(Calls(r), p)) && (s.Registered(p) <==> s.chan[p].status != Init)
    {
    }
    forall fd | fd in s.channels ensures s.RowOk(fd, {}) { }
  }

  lemma {:induction false} ChannelsAsAsked(r: Run)
    requires IsRun(r)
    ensures forall p {:trigger WishOf(Calls(r), p)} :: AsAsked(End(r), p, WishOf(Calls(r), p))
  {
    if r.Then? {
      ChannelsAsAsked(r.before);
      RunIsLegal(r.before);
      forall p ensures AsAsked(End(r), p, WishOf(Calls(r), p)) {
        StepAsAsked(End(r.before), r.call, p, WishOf(Calls(r.before), p));
        WishOfNext(Calls(r.before), r.call, p);
      }
    }
  }

  // ---------------------------------------------------------------- the class

  class EpollPoller {
    var chan: map<Ptr, Chan>
    var channels: map<nat, Ptr>
    var kernel: map<nat, Entry>
    var rejected: nat

    ghost function State(): EpollState
      reads this
    {
      EpollState(chan, channels, kernel, rejected)
    }

    constructor ()
      ensures State() == EpollState(map[], map[], map[], 0) && State().Inv()
    {
      chan, channels, kernel, rejected := map[], map[], map[], 0;
    }

    method NewChannel(p: Ptr, fd: nat)
      requires State().Inv() && p !in chan
      modifies this`chan
      ensures State() == old(State()).New(p, fd) && State().Inv()
    {
      NewKeepsInv(State(), p, fd);
      chan := chan[p := Chan(fd, NONE_EVENT, NONE_EVENT, Init)];
    }

    /** `updateOperator2Poller`: `epoll_ctl` and its answer. */
    method UpdateOperator2Poller(op: Operation, p: Ptr) returns (ret: int)
      requires p in chan
      modifies this`kernel, this`rejected
      ensures State() == old(State()).Ctl(op, p)
      ensures ret == old(rejected) - rejected
    {
      var fd := chan[p].fd;
      ret := if (op == Add) == (fd in kernel) then -1 else 0;
      if ret < 0 {
        rejected := rejected + 1;
      } else if op == Del {
        kernel := kernel - {fd};
      } else {
        kernel := kernel[fd := Entry(p, chan[p].events)];
      }
    }

    method UpdateChannel(p: Ptr)
      requires p in chan && State().InvBut({p}) && State().FreshFd(p)
      modifies this
      ensures State() == old(State()).Update(p) && State().Inv()
    {
      UpdateKeepsInv(State(), p);
      var inPollerStatus, fd := chan[p].status, chan[p].fd;
      if inPollerStatus == Init || inPollerStatus == Deleted {
        if inPollerStatus == Init {
          channels := channels[fd := p];
        } else {
          assert fd in channels && channels[fd] == p;
        }
        chan := chan[p := chan[p].(status := Added)];
        var ret := UpdateOperator2Poller(Add, p);
      } else {
        assert fd in channels && channels[fd] == p;
        if chan[p].events == NONE_EVENT {
          var ret := UpdateOperator2Poller(Del, p);
          chan := chan[p := chan[p].(status := Deleted)];
        } else {
          var ret := UpdateOperator2Poller(Mod, p);
        }
      }
    }

    method RemoveChannel(p: Ptr)
      requires State().Inv() && p in chan
      requires chan[p].status != Init && chan[p].events == NONE_EVENT
      modifies this
      ensures State() == old(State()).Remove(p) && State().Inv()
    {
      RemoveKeepsInv(State(), p);
      var fd := chan[p].fd;
      assert fd in channels && channels[fd] == p;
      var inPollerStatus := chan[p].status;
      channels := channels - {fd};
      if inPollerStatus == Added {
        var ret := UpdateOperator2Poller(Del, p);
      }
      chan := chan[p := chan[p].(status := Init)];
    }

    method Change(p: Ptr, change: Channels.Change)
      requires State().Inv() && p in chan && State().FreshFd(p)
      modifies this
      ensures State() == old(State()).Change(p, change) && State().Inv()
    {
      ChangeKeepsInv(State(), p, change);
      chan := chan[p := chan[p].(events := Changed(chan[p].events, change))];
      UpdateChannel(p);
    }
  }
}
