/** Event masks and the dispatch of net/Channel.cpp. */
module Channels {
  /** The event bits of poll(2) and epoll(7); a mask is the set of its bits. */
  datatype Event = POLLIN | POLLPRI | POLLOUT | POLLERR | POLLHUP | POLLNVAL | POLLRDHUP

  type Mask = set<Event>

  const READ_EVENT: Mask := {POLLIN, POLLPRI}
  const WRITE_EVENT: Mask := {POLLOUT}
  const NONE_EVENT: Mask := {}

  /** What poll(2) and epoll_wait(2) can report for a channel: what channels ask for, and
      what is reported unasked. */
  const REPORTABLE: Mask := READ_EVENT + WRITE_EVENT + {POLLERR, POLLHUP, POLLNVAL}

  /** Where the epoll poller has the channel. */
  datatype Status = Init | Added | Deleted

  /** The pollers reach channels through pointers; a channel table maps each pointer to
      the part of its channel a poller looks at. */
  type Ptr = nat

  datatype Chan = Chan(fd: nat, events: Mask, revents: Mask, status: Status)

  datatype Change = EnableRead | DisableRead | EnableWrite | DisableWrite | DisableAll

  /** What is done to channels that concerns their poller. */
  datatype Call =
    | Create(p: Ptr, fd: nat)
    | Interest(p: Ptr, change: Change)
    | Drop(p: Ptr)

  datatype Callback = Close | Read | Write

  function Changed(m: Mask, c: Change): Mask {
    match c
    case EnableRead => m + READ_EVENT
    case DisableRead => m - READ_EVENT
    case EnableWrite => m + WRITE_EVENT
    case DisableWrite => m - WRITE_EVENT
    case DisableAll => NONE_EVENT
  }

  predicate Reads(m: Mask) { m * READ_EVENT != {} }

  predicate Writes(m: Mask) { m * WRITE_EVENT != {} }

  /** What the registered channels ask to have watched. */
  ghost function Wanted(chan: map<Ptr, Chan>, channels: map<nat, Ptr>): set<(int, Mask)> {
    set fd | fd in channels && channels[fd] in chan && chan[channels[fd]].events != NONE_EVENT
      :: (fd as int, chan[channels[fd]].events)
  }

  /** Turning one direction on or off leaves the other as it was. */
  lemma ChangesAreIndependent(m: Mask)
    ensures Reads(Changed(m, EnableRead)) && !Reads(Changed(m, DisableRead))
    ensures Writes(Changed(m, EnableWrite)) && !Writes(Changed(m, DisableWrite))
    ensures Writes(Changed(m, EnableRead)) == Writes(Changed(m, DisableRead)) == Writes(m)
    ensures Reads(Changed(m, EnableWrite)) == Reads(Changed(m, DisableWrite)) == Reads(m)
    ensures Changed(m, EnableRead) != NONE_EVENT && Changed(m, EnableWrite) != NONE_EVENT
  {
    assert POLLIN in Changed(m, EnableRead) * READ_EVENT;
    assert POLLOUT in Changed(m, EnableWrite) * WRITE_EVENT;
    assert Changed(m, EnableRead) * WRITE_EVENT == Changed(m, DisableRead) * WRITE_EVENT == m * WRITE_EVENT;
    assert Changed(m, EnableWrite) * READ_EVENT == Changed(m, DisableWrite) * READ_EVENT == m * READ_EVENT;
  }

  /** Bit by bit: reading is POLLIN and POLLPRI, writing is POLLOUT. */
  lemma ChangeOfBit(m: Mask, c: Change, e: Event)
    ensures e in Changed(m, c) <==>
      (match c
       case EnableRead => e in m || e == POLLIN || e == POLLPRI
       case DisableRead => e in m && e != POLLIN && e != POLLPRI
       case EnableWrite => e in m || e == POLLOUT
       case DisableWrite => e in m && e != POLLOUT
       case DisableAll => false)
    ensures Reads(m) <==> POLLIN in m || POLLPRI in m
    ensures Writes(m) <==> POLLOUT in m
  {
    assert POLLIN in m ==> POLLIN in m * READ_EVENT;
    assert POLLPRI in m ==> POLLPRI in m * READ_EVENT;
    assert POLLOUT in m ==> POLLOUT in m * WRITE_EVENT;
  }

  /** What the calls made so far ask for one channel, whatever a poller does about it. */
  datatype Wish = NoChannel | Wish(fd: nat, mask: Mask, registered: bool)

  function Asked(m: Mask, c: Change): Mask {
    match c
    case EnableRead => m + {POLLIN, POLLPRI}
    case DisableRead => m - {POLLIN, POLLPRI}
    case EnableWrite => m + {POLLOUT}
    case DisableWrite => m - {POLLOUT}
    case DisableAll => {}
  }

  function After(w: Wish, c: Call): Wish {
    match c
    case Create(_, fd) => Wish(fd, {}, false)
    case Interest(_, change) => if w.NoChannel? then w else Wish(w.fd, Asked(w.mask, change), true)
    case Drop(_) => if w.NoChannel? then w else Wish(w.fd, w.mask, false)
  }

  ghost function WishOf(calls: seq<Call>, p: Ptr): Wish {
    if calls == [] then NoChannel
    else
      var before, last := calls[..|calls| - 1], calls[|calls| - 1];
      if last.p == p then After(WishOf(before, p), last) else WishOf(before, p)
  }

  lemma WishOfNext(calls: seq<Call>, c: Call, p: Ptr)
    ensures WishOf(calls + [c], p) == if c.p == p then After(WishOf(calls, p), c) else WishOf(calls, p)
  {
    assert (calls + [c])[..|calls|] == calls;
  }

  predicate CloseEvent(r: Mask) { POLLHUP in r && POLLIN !in r }

  predicate ReadEvent(r: Mask) { r * {POLLIN, POLLPRI, POLLRDHUP} != {} }

  /** The callbacks one `HandleEvent` runs, in order; `installed` says which are set. */
  function Dispatch(r: Mask, installed: set<Callback>): seq<Callback> {
    (if CloseEvent(r) && Close in installed then [Close] else [])
    + (if ReadEvent(r) && Read in installed then [Read] else [])
    + (if POLLOUT in r && Write in installed then [Write] else [])
  }

  /** The close callback and the read callback run in one dispatch exactly when a hang-up
      without POLLIN comes together with POLLPRI or POLLRDHUP. */
  lemma CloseAndReadTogether(r: Mask)
    ensures (Close in Dispatch(r, {Close, Read, Write}) && Read in Dispatch(r, {Close, Read, Write}))
       <==> (POLLHUP in r && POLLIN !in r && (POLLPRI in r || POLLRDHUP in r))
  {
    if POLLPRI in r { assert POLLPRI in r * {POLLIN, POLLPRI, POLLRDHUP}; }
    if POLLRDHUP in r { assert POLLRDHUP in r * {POLLIN, POLLPRI, POLLRDHUP}; }
    if POLLIN !in r && POLLPRI !in r && POLLRDHUP !in r { assert r * {POLLIN, POLLPRI, POLLRDHUP} == {}; }
  }

  function Place(c: Callback): nat {
    match c
    case Close => 0
    case Read => 1
    case Write => 2
  }

  /** A dispatch runs each installed callback at most once, closing before reading before
      writing, and exactly for the events that call for it. */
  lemma DispatchExactly(r: Mask, installed: set<Callback>)
    ensures var ran := Dispatch(r, installed);
      && (Close in ran <==> Close in installed && POLLHUP in r && POLLIN !in r)
      && (Read in ran <==> Read in installed && (POLLIN in r || POLLPRI in r || POLLRDHUP in r))
      && (Write in ran <==> Write in installed && POLLOUT in r)
      && forall i, j :: 0 <= i < j < |ran| ==> Place(ran[i]) < Place(ran[j])
  {
    assert POLLIN in r ==> POLLIN in r * {POLLIN, POLLPRI, POLLRDHUP};
    assert POLLPRI in r ==> POLLPRI in r * {POLLIN, POLLPRI, POLLRDHUP};
    assert POLLRDHUP in r ==> POLLRDHUP in r * {POLLIN, POLLPRI, POLLRDHUP};
  }

  class Channel {
    const fd: int
    var events: Mask
    var revents: Mask
    var status: Status
    const callbacks: set<Callback>

    constructor (fd: int, callbacks: set<Callback>)
      ensures this.fd == fd && events == NONE_EVENT && status == Init && this.callbacks == callbacks
    {
      this.fd := fd;
      this.callbacks := callbacks;
      events, revents, status := NONE_EVENT, NONE_EVENT, Init;
    }

    predicate IsEnableWriteEvent()
      reads this
    {
      events * WRITE_EVENT != {}
    }

    /** The mask half of `EnableReadEvent` and its siblings; the poller's half follows
        in the pollers' own `Change` methods. */
    method SetInterest(c: Change)
      modifies this`events
      ensures events == Changed(old(events), c)
    {
      match c {
        case EnableRead => events := events + READ_EVENT;
        case DisableRead => events := events - READ_EVENT;
        case EnableWrite => events := events + WRITE_EVENT;
        case DisableWrite => events := events - WRITE_EVENT;
        case DisableAll => events := NONE_EVENT;
      }
    }

    method SetReceiveEvent(r: Mask)
      modifies this`revents
      ensures revents == r
    {
      revents := r;
    }

    method HandleEvent() returns (ran: seq<Callback>)
      ensures ran == Dispatch(revents, callbacks)
    {
      ran := [];
      if POLLHUP in revents && !(POLLIN in revents) {
        if Close in callbacks { ran := ran + [Close]; }
      }
      if revents * {POLLIN, POLLPRI, POLLRDHUP} != {} {
        if Read in callbacks { ran := ran + [Read]; }
      }
      if POLLOUT in revents {
        if Write in callbacks { ran := ran + [Write]; }
      }
    }
  }
}
