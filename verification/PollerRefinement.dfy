/** The two pollers are interchangeable: driven by the same channel calls they register
    the same channels and watch the same descriptors for the same events. What the poll
    poller asks for beyond the epoll poller is stated exactly. */
module PollerRefinement {
  import opened Channels
  import E = EpollPollers
  import P = PollPollers

  datatype Pair = Pair(epoll: E.EpollState, poll: P.PollState)

  const INITIAL := Pair(E.EpollState(map[], map[], map[], 0), P.PollState(map[], map[], [], map[]))

  /** What the channels' owners see to: descriptors are not shared, and a channel is removed
      when it is registered and wants nothing. */
  ghost predicate Legal(s: Pair, c: Call) {
    match c
    case Create(p, fd) => p !in s.poll.chan
    case Interest(p, _) => p in s.poll.chan && s.poll.FreshFd(p)
    case Drop(p) => p in s.poll.chan && s.poll.Registered(p) && s.poll.chan[p].events == NONE_EVENT
  }

  ghost predicate EpollAsserts(s: Pair, c: Call) {
    match c
    case Create(p, _) => p !in s.epoll.chan
    case Interest(p, _) => p in s.epoll.chan && s.epoll.UpdateAsserts(p)
    case Drop(p) => p in s.epoll.chan && s.epoll.RemoveAsserts(p)
  }

  ghost predicate PollAsserts(s: Pair, c: Call) {
    match c
    case Create(p, _) => p !in s.poll.chan
    case Interest(p, change) => p in s.poll.chan && s.poll.SetMask(p, change).UpdateAsserts(p)
    case Drop(p) => p in s.poll.chan && s.poll.RemoveAsserts(p)
  }

  /** Both pollers perform the call; there is no such step if an assert of either fails. */
  ghost predicate Next(s: Pair, c: Call, t: Pair) {
    && EpollAsserts(s, c) && PollAsserts(s, c)
    && match c
       case Create(p, fd) => t == Pair(s.epoll.New(p, fd), s.poll.New(p, fd))
       case Interest(p, change) => t == Pair(s.epoll.Change(p, change), s.poll.SetMask(p, change).Update(p))
       case Drop(p) => t == Pair(s.epoll.Remove(p), s.poll.Remove(p))
  }

  /** The call makes the poll poller move an ignored slot into a gap. */
  ghost predicate MovesIgnored(s: Pair, c: Call) {
    && c.Drop? && PollAsserts(s, c)
    && s.poll.index[s.poll.chan[c.p].fd] != |s.poll.slots| - 1 && s.poll.slots[|s.poll.slots| - 1].fd < 0
  }

  /** The pollers agree on what is registered and on what every channel wants. */
  ghost predicate Agree(s: Pair) {
    && s.epoll.Inv() && s.poll.Inv()
    && s.epoll.channels == s.poll.channels
    && s.epoll.chan.Keys == s.poll.chan.Keys
    && (forall p {:trigger Same(s, p)} :: p in s.poll.chan ==> Same(s, p))
  }

  ghost predicate Same(s: Pair, p: Ptr)
    requires p in s.poll.chan && p in s.epoll.chan
  {
    s.epoll.chan[p].fd == s.poll.chan[p].fd && s.epoll.chan[p].events == s.poll.chan[p].events
  }

  /** The channel's slot is negated, as `RemoveChannel` wants it. */
  ghost predicate Negated(s: P.PollState, p: Ptr)
    requires p in s.chan && s.Registered(p) && s.Inv()
  {
    assert s.RowOk(s.chan[p].fd, {});
    s.slots[s.index[s.chan[p].fd]].fd < 0
  }

  /** In agreement, a legal call passes every assert of the epoll poller; and of the poll
      poller, except that a removal does exactly if the slot is negated. */
  lemma LegalForBoth(s: Pair, c: Call)
    requires Agree(s) && Legal(s, c)
    ensures EpollAsserts(s, c)
    ensures PollAsserts(s, c) <==> !c.Drop? || Negated(s.poll, c.p)
  {
    if !c.Create? {
      assert Same(s, c.p);
      assert s.epoll.Registered(c.p) <==> s.epoll.chan[c.p].status != Init;
      if c.Interest? {
        P.ChangeKeepsInv(s.poll, c.p, c.change);
      } else {
        assert s.poll.RowOk(s.poll.chan[c.p].fd, {});
      }
    }
  }

  lemma CreateKeepsAgreement(s: Pair, p: Ptr, fd: nat)
    requires Agree(s) && Legal(s, Create(p, fd))
    ensures Agree(Pair(s.epoll.New(p, fd), s.poll.New(p, fd)))
  {
    E.NewKeepsInv(s.epoll, p, fd);
    P.NewKeepsInv(s.poll, p, fd);
    var t := Pair(s.epoll.New(p, fd), s.poll.New(p, fd));
    forall q | q in t.poll.chan ensures Same(t, q) {
      if q != p { assert Same(s, q); }
    }
  }

  lemma InterestKeepsAgreement(s: Pair, p: Ptr, change: Change)
    requires Agree(s) && Legal(s, Interest(p, change))
    ensures s.poll.SetMask(p, change).UpdateAsserts(p)
    ensures Agree(Pair(s.epoll.Change(p, change), s.poll.SetMask(p, change).Update(p)))
  {
    LegalForBoth(s, Interest(p, change));
    assert Same(s, p) && (s.epoll.Registered(p) <==> s.epoll.chan[p].status != Init);
    E.ChangeKeepsInv(s.epoll, p, change);
    P.ChangeKeepsInv(s.poll, p, change);
    var t := Pair(s.epoll.Change(p, change), s.poll.SetMask(p, change).Update(p));
    forall q | q in t.poll.chan ensures q in t.epoll.chan && Same(t, q) {
      assert Same(s, q);
    }
  }

  lemma DropKeepsAgreement(s: Pair, p: Ptr)
    requires Agree(s) && Legal(s, Drop(p)) && PollAsserts(s, Drop(p)) && !MovesIgnored(s, Drop(p))
    ensures p in s.epoll.chan && Agree(Pair(s.epoll.Remove(p), s.poll.Remove(p)))
  {
    LegalForBoth(s, Drop(p));
    E.RemoveKeepsInv(s.epoll, p);
    P.RemoveKeepsInvIff(s.poll, p);
    var t := Pair(s.epoll.Remove(p), s.poll.Remove(p));
    forall q | q in t.poll.chan ensures q in t.epoll.chan && Same(t, q) {
      assert Same(s, q);
    }
  }

  lemma StepKeepsAgreement(s: Pair, c: Call, t: Pair)
    requires Agree(s) && Legal(s, c) && Next(s, c, t) && !MovesIgnored(s, c)
    ensures Agree(t)
  {
    match c {
      case Create(p, fd) => CreateKeepsAgreement(s, p, fd);
      case Interest(p, change) => InterestKeepsAgreement(s, p, change);
      case Drop(p) => DropKeepsAgreement(s, p);
    }
  }

  // ---------------------------------------------------------------- whole runs

  datatype Run = Begin | Then(before: Run, call: Call)

  /** `s` is reached by the calls of `r`, each legal when it is made and passing the asserts,
      and none moving an ignored slot. */
  ghost predicate Reached(r: Run, s: Pair) {
    match r
    case Begin => s == INITIAL
    case Then(before, c) =>
      exists prev :: Reached(before, prev) && Legal(prev, c) && Next(prev, c, s) && !MovesIgnored(prev, c)
  }

  /** How often the channel has been updated since it was registered, which the first update
      does. */
  ghost function Updates(r: Run, p: Ptr): nat {
    match r
    case Begin => 0
    case Then(before, c) =>
      if c.p != p then Updates(before, p) else if c.Interest? then Updates(before, p) + 1 else 0
  }

  /** With `n` updates so far, the channel's slot is negated if it wants nothing and was
      updated again after its registration. */
  ghost predicate Follows(s: P.PollState, p: Ptr, n: nat)
    requires s.Inv() && p in s.chan
  {
    && (s.Registered(p) <==> n > 0)
    && (s.Registered(p) ==> (Negated(s, p) <==> s.chan[p].events == NONE_EVENT && n > 1))
  }

  lemma InterestFollows(s: P.PollState, p: Ptr, change: Change, q: Ptr, n: nat)
    requires s.Inv() && p in s.chan && s.FreshFd(p) && q in s.chan && Follows(s, q, n)
    requires var t := s.SetMask(p, change); t.UpdateAsserts(p) && t.Update(p).Inv()
    ensures Follows(s.SetMask(p, change).Update(p), q, if p == q then n + 1 else n)
  {
    if s.Registered(p) { assert s.RowOk(s.chan[p].fd, {}); }
    if s.Registered(q) { assert s.RowOk(s.chan[q].fd, {}); }
  }

  lemma DropFollows(s: P.PollState, p: Ptr, q: Ptr, n: nat)
    requires s.Inv() && p in s.chan && s.RemoveAsserts(p) && q in s.chan && Follows(s, q, n)
    requires s.Remove(p).Inv()
    ensures Follows(s.Remove(p), q, if p == q then 0 else n)
  {
    P.RemoveKeepsInvIff(s, p);
    var last := |s.slots| - 1;
    assert s.SlotOk(last) && s.RowOk(s.chan[p].fd, {});
    if s.Registered(q) { assert s.RowOk(s.chan[q].fd, {}); }
  }

  lemma {:induction false} ReachedAgree(r: Run, s: Pair)
    requires Reached(r, s)
    ensures Agree(s)
    ensures forall p :: p in s.poll.chan ==> Follows(s.poll, p, Updates(r, p))
    ensures forall p :: p !in s.poll.chan ==> Updates(r, p) == 0
  {
    if r.Then? {
      var prev :| Reached(r.before, prev) && Legal(prev, r.call) && Next(prev, r.call, s) &&
        !MovesIgnored(prev, r.call);
      ReachedAgree(r.before, prev);
      StepKeepsAgreement(prev, r.call, s);
      forall p | p in s.poll.chan ensures Follows(s.poll, p, Updates(r, p)) {
        StepFollows(r, prev, s, p);
      }
    }
  }

  lemma StepFollows(r: Run, prev: Pair, s: Pair, p: Ptr)
    requires r.Then? && Agree(prev) && Legal(prev, r.call) && Next(prev, r.call, s) && Agree(s) && p in s.poll.chan
    requires if p in prev.poll.chan then Follows(prev.poll, p, Updates(r.before, p)) else Updates(r.before, p) == 0
    ensures Follows(s.poll, p, Updates(r, p))
  {
    match r.call {
      case Create(q, fd) =>
        if q == p {
          forall g | g in prev.poll.channels ensures prev.poll.channels[g] != p { assert prev.poll.RowOk(g, {}); }
        }
      case Interest(q, change) => InterestFollows(prev.poll, q, change, p, Updates(r.before, p));
      case Drop(q) => DropFollows(prev.poll, q, p, Updates(r.before, p));
    }
  }

  /** After any such sequence of calls both pollers watch exactly what the registered
      channels want, hence the same; no kernel call was refused. */
  lemma {:induction false} PollersWatchTheSame(r: Run, s: Pair)
    requires Reached(r, s)
    ensures s.epoll.Monitored() == s.poll.Monitored() == Wanted(s.poll.chan, s.poll.channels)
    ensures s.epoll.rejected == 0
  {
    ReachedAgree(r, s);
    E.MonitoredExactly(s.epoll);
    P.MonitoredExactly(s.poll);
    forall fd | fd in s.poll.channels
      ensures s.poll.channels[fd] in s.poll.chan && s.poll.channels[fd] in s.epoll.chan && Same(s, s.poll.channels[fd])
    {
      assert s.poll.RowOk(fd, {});
    }
    assert Wanted(s.epoll.chan, s.epoll.channels) == Wanted(s.poll.chan, s.poll.channels);
  }

  ghost function Calls(r: Run): seq<Call> {
    if r.Begin? then [] else Calls(r.before) + [r.call]
  }

  /** Both pollers have the channel as the calls ask for. */
  ghost predicate AsAsked(s: Pair, p: Ptr, w: Wish) {
    if p !in s.poll.chan then w == NoChannel
    else w == Wish(s.poll.chan[p].fd, s.poll.chan[p].events, s.poll.Registered(p))
  }

  lemma StepAsAsked(s: Pair, c: Call, t: Pair, p: Ptr, w: Wish)
    requires Agree(s) && Legal(s, c) && Next(s, c, t) && AsAsked(s, p, w)
    ensures AsAsked(t, p, if c.p == p then After(w, c) else w)
  {
    match c {
      case Create(q, fd) =>
        forall g | g in s.poll.channels ensures s.poll.channels[g] != q { assert s.poll.RowOk(g, {}); }
      case Interest(q, _) =>
      case Drop(q) =>
    }
  }

  /** After any such sequence of calls both pollers watch the descriptors of the registered
      channels for just what was asked, no others. */
  lemma {:induction false} PollersDoWhatWasAsked(r: Run, s: Pair)
    requires Reached(r, s)
    ensures forall p {:trigger WishOf(Calls(r), p)} :: AsAsked(s, p, WishOf(Calls(r), p))
    ensures s.epoll.Monitored() == s.poll.Monitored() ==
      set p | p in s.poll.chan && WishOf(Calls(r), p).Wish? && WishOf(Calls(r), p).registered
              && WishOf(Calls(r), p).mask != {}
        :: (WishOf(Calls(r), p).fd as int, WishOf(Calls(r), p).mask)
  {
    ChannelsAsAsked(r, s);
    PollersWatchTheSame(r, s);
    ReachedAgree(r, s);
    forall p | p in s.poll.chan ensures AsAsked(s, p, WishOf(Calls(r), p)) { }
    forall fd | fd in s.poll.channels ensures s.poll.RowOk(fd, {}) { }
  }

  lemma {:induction false} ChannelsAsAsked(r: Run, s: Pair)
    requires Reached(r, s)
    ensures forall p {:trigger WishOf(Calls(r), p)} :: AsAsked(s, p, WishOf(Calls(r), p))
  {
    if r.Then? {
      var prev :|
        Reached(r.before, prev) && Legal(prev, r.call) && Next(prev, r.call, s) && !MovesIgnored(prev, r.call);
      ChannelsAsAsked(r.before, prev);
      ReachedAgree(r.before, prev);
      forall p ensures AsAsked(s, p, WishOf(Calls(r), p)) {
        StepAsAsked(prev, r.call, s, p, WishOf(Calls(r.before), p));
        WishOfNext(Calls(r.before), r.call, p);
      }
    }
  }

  /** A legal call never fails an assert of the epoll poller. It fails one of the poll poller
      exactly if it removes a channel that was not updated again after its registration,
      for then its slot still holds the plain descriptor. */
  lemma {:induction false} CallFailsIff(r: Run, s: Pair, c: Call)
    requires Reached(r, s) && Legal(s, c)
    ensures EpollAsserts(s, c)
    ensures !PollAsserts(s, c) <==> c.Drop? && Updates(r, c.p) == 1
  {
    ReachedAgree(r, s);
    LegalForBoth(s, c);
    assert c.p in s.poll.chan ==> Follows(s.poll, c.p, Updates(r, c.p));
  }

  // ---------------------------------------------------------------- reached examples

  lemma Extend(r: Run, s: Pair, c: Call, t: Pair)
    requires Reached(r, s) && Legal(s, c) && Next(s, c, t) && !MovesIgnored(s, c)
    ensures Reached(Then(r, c), t)
  {
  }

  /** A channel registered wanting nothing, and removed: the epoll poller accepts this. */
  lemma UntouchedRemoveExample()
    ensures exists r, s :: Reached(r, s) && Legal(s, Drop(0)) && EpollAsserts(s, Drop(0)) && !PollAsserts(s, Drop(0))
  {
    var r1, s1 := Then(Begin, Create(0, 5)), Pair(INITIAL.epoll.New(0, 5), INITIAL.poll.New(0, 5));
    Extend(Begin, INITIAL, Create(0, 5), s1);
    var c := Interest(0, DisableAll);
    var r2, s2 := Then(r1, c), Pair(s1.epoll.Change(0, DisableAll), s1.poll.SetMask(0, DisableAll).Update(0));
    Extend(r1, s1, c, s2);
    assert Legal(s2, Drop(0)) && Updates(r2, 0) == 1;
    CallFailsIff(r2, s2, Drop(0));
  }

  ghost function Apply(s: Pair, p: Ptr, change: Change): Pair
    requires p in s.epoll.chan && p in s.poll.chan && s.poll.SetMask(p, change).UpdateAsserts(p)
  {
    Pair(s.epoll.Change(p, change), s.poll.SetMask(p, change).Update(p))
  }

  /** One more update of a channel in a reached state. */
  lemma Change(r: Run, s: Pair, p: Ptr, change: Change) returns (u: Run, t: Pair)
    requires Reached(r, s) && Legal(s, Interest(p, change))
    ensures s.poll.SetMask(p, change).UpdateAsserts(p)
    ensures Reached(u, t) && t.poll == s.poll.SetMask(p, change).Update(p)
  {
    CallFailsIff(r, s, Interest(p, change));
    u, t := Then(r, Interest(p, change)), Apply(s, p, change);
    Extend(r, s, Interest(p, change), t);
  }

  lemma TwoCreated() returns (r: Run, s: Pair)
    ensures Reached(r, s)
    ensures s.poll.chan.Keys == {0, 1} && s.poll.chan[0].fd == 5 && s.poll.chan[1].fd == 6
    ensures s.poll.channels == map[] && s.poll.index == map[] && s.poll.slots == []
  {
    var r1, s1 := Then(Begin, Create(0, 5)), Pair(INITIAL.epoll.New(0, 5), INITIAL.poll.New(0, 5));
    Extend(Begin, INITIAL, Create(0, 5), s1);
    r, s := Then(r1, Create(1, 6)), Pair(s1.epoll.New(1, 6), s1.poll.New(1, 6));
    Extend(r1, s1, Create(1, 6), s);
  }

  lemma OneRegistered() returns (r: Run, s: Pair)
    ensures Reached(r, s)
    ensures s.poll.chan.Keys == {0, 1} && s.poll.chan[0].fd == 5 && s.poll.chan[1].fd == 6
    ensures s.poll.channels == map[5 := 0] && s.poll.index == map[5 := 0] && |s.poll.slots| == 1
  {
    r, s := TwoCreated();
    r, s := Change(r, s, 0, EnableRead);
  }

  /** Two channels of the poll poller, in slots 0 and 1. */
  ghost predicate TwoChannels(s: P.PollState) {
    && s.chan.Keys == {0, 1} && s.chan[0].fd == 5 && s.chan[1].fd == 6
    && s.channels == map[5 := 0, 6 := 1] && s.index == map[5 := 0, 6 := 1] && |s.slots| == 2
  }

  lemma TwoRegistered() returns (r: Run, s: Pair)
    ensures Reached(r, s) && TwoChannels(s.poll)
  {
    r, s := OneRegistered();
    r, s := Change(r, s, 1, EnableRead);
  }

  lemma DisableKeepsPlaces(s: P.PollState, p: Ptr)
    requires TwoChannels(s) && p in s.chan
    ensures var t := s.SetMask(p, DisableAll).Update(p);
      && TwoChannels(t) && t.chan[p].events == NONE_EVENT && t.chan[1 - p].events == s.chan[1 - p].events
      && t.slots[p].fd < 0 && t.slots[1 - p] == s.slots[1 - p]
  {
  }

  /** Two channels are disabled, the second first. */
  lemma TwoDisabled() returns (r: Run, s: Pair)
    ensures Reached(r, s) && TwoChannels(s.poll)
    ensures s.poll.chan[0].events == NONE_EVENT && s.poll.slots[0].fd < 0 && s.poll.slots[1].fd < 0
  {
    r, s := TwoRegistered();
    DisableKeepsPlaces(s.poll, 1);
    r, s := Change(r, s, 1, DisableAll);
    DisableKeepsPlaces(s.poll, 0);
    r, s := Change(r, s, 0, DisableAll);
  }

  /** Removing the first is then legal and passes all asserts, and breaks the poll poller's
      index. */
  lemma BadRemoveExample()
    ensures exists r, s ::
      && Reached(r, s) && Legal(s, Drop(0)) && EpollAsserts(s, Drop(0)) && PollAsserts(s, Drop(0))
      && !s.poll.Remove(0).Inv()
  {
    var r, s := TwoDisabled();
    ReachedAgree(r, s);
    LegalForBoth(s, Drop(0));
    P.RemoveKeepsInvIff(s.poll, 0);
    assert Reached(r, s) && !s.poll.Remove(0).Inv();
  }
}
