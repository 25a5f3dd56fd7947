/** The life of connections across event loops: net/TcpServer.cpp with the lifecycle part
    of net/TcpConnection.cpp.

    The base loop owns the table of connections, every connection is driven by its own io
    loop, which may be the base loop, and the two talk through functors queued on each
    other's loops. The steps are what one thread does without interruption as far as the
    others can tell: one event handled, one functor run, one call of a user. */
module TcpServers {
  import opened Channels

  type ConnId = int
  type LoopId = int

  const BASE: LoopId := 0

  datatype State = Connecting | Connected | Disconnecting | Disconnected

  /** A connection object. `watched` says that its channel's mask is not empty, and
      `status` is what the poller has stored in the channel. */
  datatype Conn = Conn(loop: LoopId, fd: int, state: State, status: Status, watched: bool, destroyed: bool) {
    predicate Open() { state == Connected || state == Disconnecting }
  }

  /** Functors holding a shared pointer to a connection. */
  datatype Functor =
    | Establish(c: ConnId)
    | RemoveInLoop(c: ConnId)
    | Destroy(c: ConnId)
    | ForceCloseInLoop(c: ConnId)

  datatype World = World(
    /** The connection objects not yet deleted. */
    conns: map<ConnId, Conn>,
    /** `connections_`, keyed by the name, which is the number of the connection. */
    connections: set<ConnId>,
    nextConnId: int,
    queues: map<LoopId, seq<Functor>>,
    /** `channels_` of each loop's poller. */
    channels: map<LoopId, map<int, ConnId>>,
    /** Delayed forced closes whose timers have not fired. */
    timers: multiset<ConnId>,
    /** Connections the last poll of their loop reported an event for, not handled yet. */
    active: set<ConnId>)
  {
    predicate Known(c: ConnId) {
      c in conns && conns[c].loop in queues && conns[c].loop in channels
    }

    /** The event reported for `c` is being handled. */
    function Taken(c: ConnId): World { this.(active := active - {c}) }

    function Put(c: ConnId, k: Conn): World { this.(conns := conns[c := k]) }

    function QueueInLoop(l: LoopId, f: Functor): World
      requires l in queues
    {
      this.(queues := queues[l := queues[l] + [f]])
    }

    /** `channel_->EnableReadEvent()`, or with `watch` false `DisableAllEvent()`, through
        the epoll poller: its table of channels and the status it keeps in the channel. */
    function Update(c: ConnId, watch: bool): World
      requires Known(c)
    {
      var k := conns[c];
      this.(conns := conns[c := k.(watched := watch, status := if k.status == Added && !watch then Deleted else Added)],
            channels := if k.status == Init then channels[k.loop := channels[k.loop][k.fd := c]] else channels)
    }

    /** `channel_->remove()`. */
    function RemoveChannel(c: ConnId): World
      requires Known(c)
    {
      var k := conns[c];
      this.(conns := conns[c := k.(status := Init)],
            channels := channels[k.loop := channels[k.loop] - {k.fd}])
    }

    function ConnectEstablished(c: ConnId): World
      requires Known(c)
    {
      Put(c, conns[c].(state := Connected)).Update(c, true)
    }

    function ConnectDestroyed(c: ConnId): World
      requires Known(c)
    {
      var w := if conns[c].state == Connected then Put(c, conns[c].(state := Disconnected)).Update(c, false) else this;
      var v := w.Put(c, w.conns[c].(destroyed := true));
      v.RemoveChannel(c)
    }

    function RemoveConnectionInLoop(c: ConnId): World
      requires Known(c)
    {
      this.(connections := connections - {c}).QueueInLoop(conns[c].loop, Destroy(c))
    }

    /** `runInLoop` on the base loop, from the thread of the connection's loop. */
    function RemoveConnection(c: ConnId): World
      requires Known(c) && BASE in queues
    {
      if conns[c].loop == BASE then RemoveConnectionInLoop(c) else QueueInLoop(BASE, RemoveInLoop(c))
    }

    function HandleClose(c: ConnId): World
      requires Known(c) && BASE in queues
    {
      Put(c, conns[c].(state := Disconnected)).Update(c, false).RemoveConnection(c)
    }

    /** `forceCloseInLoop`. */
    function CloseIfOpen(c: ConnId): World
      requires Known(c) && BASE in queues
    {
      if conns[c].Open() then HandleClose(c) else this
    }

    function NewConnection(l: LoopId, fd: int): World
      requires l in queues && l in channels
    {
      var c := nextConnId;
      var w := this.(conns := conns[c := Conn(l, fd, Connecting, Init, false, false)],
                     connections := connections + {c}, nextConnId := nextConnId + 1);
      if l == BASE then w.ConnectEstablished(c) else w.QueueInLoop(l, Establish(c))
    }

    function Run(f: Functor): World
      requires Known(f.c) && BASE in queues
    {
      match f
      case Establish(c) => ConnectEstablished(c)
      case RemoveInLoop(c) => RemoveConnectionInLoop(c)
      case Destroy(c) => ConnectDestroyed(c)
      case ForceCloseInLoop(c) => CloseIfOpen(c)
    }

    /** Some smart pointer to the connection is left. */
    ghost predicate Referenced(c: ConnId) {
      c in connections || c in timers
      || exists l, f :: l in queues && f in queues[l] && f.c == c
    }
  }

  // ---------------------------------------------------------------- one event of a connection

  /** What `handleClose` asserts, with what follows from it on the same thread. */
  predicate CloseAsserts(w: World, c: ConnId) {
    w.Known(c) && w.conns[c].Open() && (w.conns[c].loop == BASE ==> c in w.connections)
  }

  datatype Outcome = Went(w: World) | AssertFailed

  /** The callbacks of one dispatch, in order; `eof` says that a read returns no bytes.
      Writing and reading bytes leave the life of the connection as it is. */
  function Handle(w: World, c: ConnId, ran: seq<Callback>, eof: bool): Outcome
    requires w.Known(c) && BASE in w.queues
    decreases |ran|
  {
    if ran == [] then Went(w)
    else if ran[0] == Close || (ran[0] == Read && eof) then
      if CloseAsserts(w, c) then Handle(w.HandleClose(c), c, ran[1..], eof) else AssertFailed
    else Handle(w, c, ran[1..], eof)
  }

  function HandleEvent(w: World, c: ConnId, r: Mask, eof: bool): Outcome
    requires w.Known(c) && BASE in w.queues
  {
    Handle(w, c, Dispatch(r, {Close, Read, Write}), eof)
  }

  /** The event closes the connection. */
  predicate EventCloses(r: Mask, eof: bool) { CloseEvent(r) || (ReadEvent(r) && eof) }

  /** The event closes it, and its read finds the end of the stream. */
  predicate ClosesTwice(r: Mask, eof: bool) { eof && CloseEvent(r) && ReadEvent(r) }

  /** Of what pollers report only a hang-up without POLLIN but with POLLPRI does so. */
  lemma ClosesTwiceIff(r: Mask, eof: bool)
    requires r <= REPORTABLE
    ensures ClosesTwice(r, eof) <==> eof && POLLHUP in r && POLLIN !in r && POLLPRI in r
  {
    assert ReadEvent(r) <==> POLLIN in r || POLLPRI in r by {
      assert forall e :: e in r * {POLLIN, POLLPRI, POLLRDHUP} <==> e in r && (e == POLLIN || e == POLLPRI);
      if POLLIN in r || POLLPRI in r {
        assert (if POLLIN in r then POLLIN else POLLPRI) in r * {POLLIN, POLLPRI, POLLRDHUP};
      }
    }
  }

  /** An event fails the assert of `handleClose` exactly if it closes a connection that has
      been closed before, or closes it twice by itself. */
  lemma EventFailsIff(w: World, c: ConnId, r: Mask, eof: bool)
    requires w.Known(c) && BASE in w.queues && (w.conns[c].Open() ==> CloseAsserts(w, c))
    ensures HandleEvent(w, c, r, eof).AssertFailed? <==>
      EventCloses(r, eof) && (!w.conns[c].Open() || ClosesTwice(r, eof))
    ensures HandleEvent(w, c, r, eof).Went? ==>
      HandleEvent(w, c, r, eof).w == if EventCloses(r, eof) then w.HandleClose(c) else w
  {
    assert Dispatch(r, {Close, Read, Write}) == Listed(CloseEvent(r), ReadEvent(r), POLLOUT in r);
    HandleListed(w, c, CloseEvent(r), ReadEvent(r), POLLOUT in r, eof);
  }

  function Listed(close: bool, read: bool, write: bool): seq<Callback> {
    (if close then [Close] else []) + Rest(read, write)
  }

  function Rest(read: bool, write: bool): seq<Callback> {
    (if read then [Read] else []) + (if write then [Write] else [])
  }

  lemma HandleRest(w: World, c: ConnId, read: bool, write: bool, eof: bool)
    requires w.Known(c) && BASE in w.queues
    ensures Handle(w, c, Rest(read, write), eof) ==
      if !(read && eof) then Went(w) else if CloseAsserts(w, c) then Went(w.HandleClose(c)) else AssertFailed
  {
    var tail := if write then [Write] else [];
    assert forall v: World :: v.Known(c) && BASE in v.queues ==> Handle(v, c, tail, eof) == Went(v);
    if read { assert Rest(read, write)[1..] == tail; } else { assert Rest(read, write) == tail; }
  }

  lemma HandleListed(w: World, c: ConnId, close: bool, read: bool, write: bool, eof: bool)
    requires w.Known(c) && BASE in w.queues && (w.conns[c].Open() ==> CloseAsserts(w, c))
    ensures var o := Handle(w, c, Listed(close, read, write), eof);
      && (o.AssertFailed? <==> (close || (read && eof)) && (!w.conns[c].Open() || (eof && close && read)))
      && (o.Went? ==> o.w == if close || (read && eof) then w.HandleClose(c) else w)
  {
    HandleRest(w, c, read, write, eof);
    HandleRest(w.HandleClose(c), c, read, write, eof);
    if close {
      assert Listed(close, read, write)[1..] == Rest(read, write);
    } else {
      assert Listed(close, read, write) == Rest(read, write);
    }
  }

  // ---------------------------------------------------------------- steps

  datatype Step =
    /** The acceptor hands over descriptor `fd`; the thread pool chooses loop `l`. */
    | Accept(l: LoopId, fd: int)
    | Poll(l: LoopId, reported: set<ConnId>)
    /** A reported event of the connection's channel is handled. */
    | Event(c: ConnId, r: Mask, eof: bool)
    /** The first functor; a loop handles what its poll reported before it runs any. */
    | RunFront(l: LoopId)
    | Shutdown(c: ConnId)
    | ForceClose(c: ConnId)
    | ForceCloseWithDelay(c: ConnId)
    | TimerFires(c: ConnId)
    /** The last pointer goes: the object is deleted and its descriptor closed. */
    | Delete(c: ConnId)

  ghost predicate Enabled(w: World, s: Step) {
    match s
    case Accept(l, fd) => l in w.queues && forall c :: c in w.conns ==> w.conns[c].fd != fd
    case Poll(l, reported) =>
      && Handled(w, l)
      && forall c :: c in reported ==>
         c in w.conns && w.conns[c].loop == l && w.conns[c].watched && w.conns[c].status == Added
    case Event(c, r, _) => c in w.active && r <= REPORTABLE
    case RunFront(l) => l in w.queues && w.queues[l] != [] && Handled(w, l)
    case Shutdown(c) => c in w.conns
    case ForceClose(c) => w.Known(c)
    case ForceCloseWithDelay(c) => w.Known(c)
    case TimerFires(c) => c in w.timers
    case Delete(c) => c in w.conns && !w.Referenced(c)
  }

  ghost predicate Handled(w: World, l: LoopId) {
    forall c :: c in w.active && c in w.conns ==> w.conns[c].loop != l
  }

  /** Enabling a channel the poller does not know enters its descriptor. */
  ghost predicate EstablishAsserts(w: World, c: ConnId) {
    && w.Known(c) && w.conns[c].state == Connecting
    && w.conns[c].status == Init && w.conns[c].fd !in w.channels[w.conns[c].loop]
  }

  /** What the code asserts when the step is taken; in the last case that the destructor
      finds the connection disconnected, and its channel gone from the poller. */
  ghost predicate Asserts(w: World, s: Step)
    requires Enabled(w, s) && BASE in w.queues
  {
    match s
    case Accept(l, fd) => l == BASE && l in w.channels ==> fd !in w.channels[l]
    case RunFront(l) =>
      (match w.queues[l][0]
       case Establish(c) => EstablishAsserts(w, c)
       case RemoveInLoop(c) => w.Known(c) && l == BASE && c in w.connections
       case Destroy(c) =>
         && w.Known(c) && w.conns[c].loop == l
         && w.conns[c].fd in w.channels[l] && w.channels[l][w.conns[c].fd] == c
         && !w.conns[c].watched && (w.conns[c].status == Added || w.conns[c].status == Deleted)
       case ForceCloseInLoop(c) => w.Known(c) && w.conns[c].loop == l && (w.conns[c].Open() ==> CloseAsserts(w, c)))
    case Event(c, r, eof) => w.Known(c) && HandleEvent(w.Taken(c), c, r, eof).Went?
    case TimerFires(c) => w.Known(c) && (w.conns[c].Open() ==> CloseAsserts(w, c))
    case Delete(c) =>
      && w.conns[c].state == Disconnected && w.conns[c].status == Init
      && forall l, fd :: l in w.channels && fd in w.channels[l] ==> w.channels[l][fd] != c
    case _ => true
  }

  ghost function Next(w: World, s: Step): World
    requires Enabled(w, s) && BASE in w.queues && w.queues.Keys == w.channels.Keys
  {
    match s
    case Accept(l, fd) => w.NewConnection(l, fd)
    case RunFront(l) =>
      var f, v := w.queues[l][0], w.(queues := w.queues[l := w.queues[l][1..]]);
      if v.Known(f.c) then v.Run(f) else v
    case Poll(l, reported) => w.(active := w.active + reported)
    case Event(c, r, eof) =>
      if w.Known(c) && HandleEvent(w.Taken(c), c, r, eof).Went? then HandleEvent(w.Taken(c), c, r, eof).w
      else w.Taken(c)
    case Shutdown(c) => if w.conns[c].state == Connected then w.Put(c, w.conns[c].(state := Disconnecting)) else w
    case ForceClose(c) =>
      if w.conns[c].Open() then
        w.Put(c, w.conns[c].(state := Disconnecting)).QueueInLoop(w.conns[c].loop, ForceCloseInLoop(c))
      else w
    case ForceCloseWithDelay(c) =>
      if w.conns[c].Open() then w.Put(c, w.conns[c].(state := Disconnecting)).(timers := w.timers + multiset{c})
      else w
    case TimerFires(c) =>
      var v := w.(timers := w.timers - multiset{c});
      if v.Known(c) then v.CloseIfOpen(c) else v
    case Delete(c) => w.(conns := w.conns - {c})
  }

  // ---------------------------------------------------------------- the invariant

  /** Where a connection of each state is: an open one is in the table and registered; a
      closed one is registered but unwatched until it is destroyed, exactly once. */
  ghost predicate ConnOk(w: World, c: ConnId)
    requires c in w.conns
  {
    var k := w.conns[c];
    && 1 <= c < w.nextConnId && w.Known(c)
    && (k.state == Connecting ==> c in w.connections && k.status == Init && !k.watched && !k.destroyed)
    && (k.Open() ==> c in w.connections && k.status == Added && k.watched && !k.destroyed)
    && (k.state == Disconnected ==> !k.watched)
    && (k.state == Disconnected && !k.destroyed ==> k.status == Deleted)
    && (k.destroyed ==> k.state == Disconnected && k.status == Init && c !in w.connections)
    && (k.status != Init <==> k.fd in w.channels[k.loop] && w.channels[k.loop][k.fd] == c)
  }

  ghost predicate RowOk(w: World, l: LoopId, fd: int)
    requires l in w.channels && fd in w.channels[l]
  {
    var c := w.channels[l][fd];
    c in w.conns && w.conns[c].loop == l && w.conns[c].fd == fd && w.conns[c].status != Init
  }

  /** How many times a functor is due to be in a loop's queue: each connection has one
      message under way that its state is waiting for. */
  ghost function DueCount(w: World, l: LoopId, f: Functor): nat {
    if f.c !in w.conns then 0
    else
      var k := w.conns[f.c];
      match f
      case Establish(c) => if l == k.loop && k.state == Connecting then 1 else 0
      case RemoveInLoop(c) => if l == BASE && k.state == Disconnected && c in w.connections then 1 else 0
      case Destroy(c) => if l == k.loop && k.state == Disconnected && c !in w.connections && !k.destroyed then 1 else 0
      case ForceCloseInLoop(c) => 0
  }

  ghost predicate QueueOk(w: World, l: LoopId, f: Functor)
    requires l in w.queues
  {
    if f.ForceCloseInLoop? then
      f in w.queues[l] ==> f.c in w.conns && w.conns[f.c].loop == l && w.conns[f.c].state != Connecting
    else
      multiset(w.queues[l])[f] == DueCount(w, l, f)
  }

  ghost predicate Distinct(w: World, c: ConnId, d: ConnId)
    requires c in w.conns && d in w.conns
  {
    c != d ==> w.conns[c].fd != w.conns[d].fd
  }

  ghost predicate Inv(w: World) {
    && BASE in w.queues && w.queues.Keys == w.channels.Keys && 1 <= w.nextConnId
    && (forall c {:trigger ConnOk(w, c)} :: c in w.conns ==> ConnOk(w, c))
    && (forall c, d {:trigger Distinct(w, c, d)} :: c in w.conns && d in w.conns ==> Distinct(w, c, d))
    && (forall l, fd {:trigger RowOk(w, l, fd)} :: l in w.channels && fd in w.channels[l] ==> RowOk(w, l, fd))
    && (forall l, f {:trigger QueueOk(w, l, f)} :: l in w.queues ==> QueueOk(w, l, f))
    && w.connections <= w.conns.Keys
    && (forall c :: c in w.timers ==> c in w.conns && w.conns[c].state != Connecting)
    && (forall c :: c in w.active ==> c in w.conns && w.conns[c].state != Connecting && !w.conns[c].destroyed)
  }

  // ---------------------------------------------------------------- the proof

  lemma PushCount(q: seq<Functor>, m: Functor, f: Functor)
    ensures multiset(q + [m])[f] == multiset(q)[f] + if f == m then 1 else 0
  {
  }

  lemma PopCount(q: seq<Functor>, f: Functor)
    requires q != []
    ensures multiset(q[1..])[f] == multiset(q)[f] - if f == q[0] then 1 else 0
  {
    assert q == [q[0]] + q[1..];
  }

  /** `t` differs from `w` only in what concerns `c`, whose channel is that of descriptor
      `fd` on loop `l`. */
  ghost predicate OnlyChanged(w: World, t: World, c: ConnId, l: LoopId, fd: int) {
    && t.queues.Keys == w.queues.Keys && t.channels.Keys == w.channels.Keys
    && w.nextConnId <= t.nextConnId
    && t.conns.Keys - {c} == w.conns.Keys - {c}
    && (forall d :: d in w.conns && d != c ==> d in t.conns && t.conns[d] == w.conns[d])
    && (c in w.conns ==> w.conns[c].loop == l && w.conns[c].fd == fd)
    && t.connections - {c} == w.connections - {c}
    && (forall m :: m in w.channels && m != l ==> t.channels[m] == w.channels[m])
    && (l in w.channels ==> t.channels[l] - {fd} == w.channels[l] - {fd})
    && (forall m: LoopId, f: Functor {:trigger SameCount(w, t, m, f)} :: m in w.queues && f.c != c ==>
        SameCount(w, t, m, f))
    && (forall d :: d != c ==> (d in t.timers <==> d in w.timers))
    && (forall d :: d != c ==> (d in t.active <==> d in w.active))
  }

  ghost predicate SameCount(w: World, t: World, m: LoopId, f: Functor)
    requires m in w.queues && m in t.queues
  {
    multiset(t.queues[m])[f] == multiset(w.queues[m])[f]
  }

  /** Then it is enough to look at `c`. */
  ghost predicate InOrder(t: World, c: ConnId, l: LoopId, fd: int)
    requires t.queues.Keys == t.channels.Keys
  {
    && (c in t.conns ==> ConnOk(t, c) && t.conns[c].loop == l && t.conns[c].fd == fd)
    && (c in t.connections ==> c in t.conns)
    && (l in t.channels && fd in t.channels[l] ==> RowOk(t, l, fd))
    && (forall m: LoopId, f: Functor {:trigger QueueOk(t, m, f)} :: m in t.queues && f.c == c ==> QueueOk(t, m, f))
    && (c in t.timers ==> c in t.conns && t.conns[c].state != Connecting)
    && (c in t.active ==> c in t.conns && t.conns[c].state != Connecting && !t.conns[c].destroyed)
  }

  lemma LocalStep(w: World, t: World, c: ConnId, l: LoopId, fd: int)
    requires Inv(w) && OnlyChanged(w, t, c, l, fd) && InOrder(t, c, l, fd)
    requires forall d :: d in w.conns && d != c ==> w.conns[d].fd != fd
    ensures Inv(t)
  {
    forall d | d in t.conns ensures ConnOk(t, d) {
      if d != c {
        assert d in t.conns.Keys - {c} && d in w.conns.Keys - {c};
        assert ConnOk(w, d);
        OtherConn(w, t, c, l, fd, d);
      }
    }
    forall d, e | d in t.conns && e in t.conns ensures Distinct(t, d, e) {
      if d != c && e != c {
        assert d in w.conns.Keys - {c} && e in w.conns.Keys - {c};
        assert Distinct(w, d, e);
      } else if d != c {
        assert d in w.conns.Keys - {c};
      } else if e != c {
        assert e in w.conns.Keys - {c};
      }
    }
    forall m, g | m in t.channels && g in t.channels[m] ensures RowOk(t, m, g) {
      if m != l || g != fd { OtherRow(w, t, c, l, fd, m, g); }
    }
    forall m: LoopId, f: Functor | m in t.queues ensures QueueOk(t, m, f) {
      if f.c != c { OtherQueue(w, t, c, l, fd, m, f); }
    }
    forall d | d in t.connections ensures d in t.conns {
      if d != c {
        assert d in t.connections - {c} && d in w.connections - {c};
        assert d in w.conns.Keys - {c} && d in t.conns.Keys - {c};
      }
    }
    forall d | d in t.timers ensures d in t.conns && t.conns[d].state != Connecting {
      if d != c { assert d in w.conns.Keys - {c} && d in t.conns.Keys - {c}; }
    }
    forall d | d in t.active ensures d in t.conns && t.conns[d].state != Connecting && !t.conns[d].destroyed {
      if d != c { assert d in w.conns.Keys - {c} && d in t.conns.Keys - {c}; }
    }
  }

  lemma OtherConn(w: World, t: World, c: ConnId, l: LoopId, fd: int, d: ConnId)
    requires OnlyChanged(w, t, c, l, fd) && w.queues.Keys == w.channels.Keys
    requires d in w.conns && d in t.conns && d != c && ConnOk(w, d) && w.conns[d].fd != fd
    ensures ConnOk(t, d)
  {
    var k := w.conns[d];
    assert d in t.connections - {c} <==> d in w.connections - {c};
    if k.loop == l {
      assert k.fd in t.channels[l] - {fd} <==> k.fd in w.channels[l] - {fd};
      assert k.fd in w.channels[l] ==> (t.channels[l] - {fd})[k.fd] == (w.channels[l] - {fd})[k.fd];
    }
  }

  lemma OtherRow(w: World, t: World, c: ConnId, l: LoopId, fd: int, m: LoopId, g: int)
    requires Inv(w) && OnlyChanged(w, t, c, l, fd) && InOrder(t, c, l, fd) && t.queues.Keys == t.channels.Keys
    requires m in t.channels && g in t.channels[m] && (m != l || g != fd)
    ensures RowOk(t, m, g)
  {
    if m == l {
      assert g in t.channels[l] - {fd} && g in w.channels[l] - {fd};
      assert (t.channels[l] - {fd})[g] == (w.channels[l] - {fd})[g];
    }
    assert RowOk(w, m, g);
    var d := w.channels[m][g];
    assert ConnOk(w, d);
    assert d != c;
    assert d in w.conns.Keys - {c} && d in t.conns.Keys - {c};
  }

  lemma OtherQueue(w: World, t: World, c: ConnId, l: LoopId, fd: int, m: LoopId, f: Functor)
    requires OnlyChanged(w, t, c, l, fd) && m in w.queues && QueueOk(w, m, f) && f.c != c
    ensures QueueOk(t, m, f)
  {
    assert SameCount(w, t, m, f);
    assert f.c in t.conns.Keys - {c} <==> f.c in w.conns.Keys - {c};
    assert f.c in t.connections - {c} <==> f.c in w.connections - {c};
    assert f in t.queues[m] <==> multiset(t.queues[m])[f] > 0;
    assert f in w.queues[m] <==> multiset(w.queues[m])[f] > 0;
  }

  /** `t.queues` is `w.queues` with `m` pushed on loop `l`. */
  lemma Pushed(w: World, t: World, l: LoopId, m: Functor)
    requires l in w.queues && t.queues == w.queues[l := w.queues[l] + [m]]
    ensures forall n: LoopId, f: Functor {:trigger SameCount(w, t, n, f)} :: n in w.queues && f.c != m.c ==>
      SameCount(w, t, n, f)
    ensures forall f: Functor :: multiset(t.queues[l])[f] == multiset(w.queues[l])[f] + (if f == m then 1 else 0)
  {
    forall f: Functor ensures multiset(t.queues[l])[f] == multiset(w.queues[l])[f] + (if f == m then 1 else 0) {
      PushCount(w.queues[l], m, f);
    }
    forall n: LoopId, f: Functor | n in w.queues && f.c != m.c ensures SameCount(w, t, n, f) { }
  }

  /** `t.queues` is `w.queues` without the front of loop `l`. */
  lemma Popped(w: World, t: World, l: LoopId)
    requires l in w.queues && w.queues[l] != [] && t.queues == w.queues[l := w.queues[l][1..]]
    ensures forall n: LoopId, f: Functor {:trigger SameCount(w, t, n, f)} ::
      n in w.queues && f.c != w.queues[l][0].c ==> SameCount(w, t, n, f)
    ensures forall f: Functor ::
      multiset(t.queues[l])[f] == multiset(w.queues[l])[f] - (if f == w.queues[l][0] then 1 else 0)
    ensures multiset(w.queues[l])[w.queues[l][0]] > 0
  {
    forall f: Functor
      ensures multiset(t.queues[l])[f] == multiset(w.queues[l])[f] - (if f == w.queues[l][0] then 1 else 0)
    {
      PopCount(w.queues[l], f);
    }
    forall n: LoopId, f: Functor | n in w.queues && f.c != w.queues[l][0].c ensures SameCount(w, t, n, f) { }
  }

  lemma SameQueues(w: World, t: World)
    requires t.queues == w.queues
    ensures forall n: LoopId, f: Functor {:trigger SameCount(w, t, n, f)} :: n in w.queues ==> SameCount(w, t, n, f)
  {
  }

  lemma OthersFds(w: World, c: ConnId)
    requires Inv(w) && c in w.conns
    ensures forall d :: d in w.conns && d != c ==> w.conns[d].fd != w.conns[c].fd
    ensures ConnOk(w, c)
    ensures forall l: LoopId, f: Functor {:trigger QueueOk(w, l, f)} :: l in w.queues ==> QueueOk(w, l, f)
  {
    forall d | d in w.conns && d != c ensures w.conns[d].fd != w.conns[c].fd { assert Distinct(w, d, c); }
  }

  lemma AcceptKeeps(w: World, l: LoopId, fd: int)
    requires Inv(w) && Enabled(w, Accept(l, fd))
    ensures Asserts(w, Accept(l, fd)) && Inv(Next(w, Accept(l, fd)))
  {
    var c := w.nextConnId;
    forall d | d in w.conns ensures d < c { assert ConnOk(w, d); }
    forall g | g in w.channels[l] ensures g != fd { assert RowOk(w, l, g); }
    forall m: LoopId, f: Functor | m in w.queues && f.c == c ensures multiset(w.queues[m])[f] == 0 {
      assert QueueOk(w, m, f);
    }
    AcceptedOnlyAdds(w, l, fd);
    AcceptedIsInOrder(w, l, fd);
    LocalStep(w, w.NewConnection(l, fd), c, l, fd);
  }

  lemma AcceptedOnlyAdds(w: World, l: LoopId, fd: int)
    requires l in w.queues && w.queues.Keys == w.channels.Keys && BASE in w.queues
    requires w.nextConnId !in w.conns
    ensures OnlyChanged(w, w.NewConnection(l, fd), w.nextConnId, l, fd)
  {
    var t := w.NewConnection(l, fd);
    if l == BASE { SameQueues(w, t); } else { Pushed(w, t, l, Establish(w.nextConnId)); }
  }

  lemma AcceptedIsInOrder(w: World, l: LoopId, fd: int)
    requires l in w.queues && w.queues.Keys == w.channels.Keys && BASE in w.queues && 1 <= w.nextConnId
    requires w.nextConnId !in w.timers && w.nextConnId !in w.active && fd !in w.channels[l]
    requires forall m: LoopId, f: Functor :: m in w.queues && f.c == w.nextConnId ==> multiset(w.queues[m])[f] == 0
    ensures InOrder(w.NewConnection(l, fd), w.nextConnId, l, fd)
  {
    var c, t := w.nextConnId, w.NewConnection(l, fd);
    forall m: LoopId, f: Functor | m in t.queues && f.c == c ensures QueueOk(t, m, f) {
      assert multiset(w.queues[m])[f] == 0;
      PushCount(w.queues[m], Establish(c), f);
      assert f in t.queues[m] <==> multiset(t.queues[m])[f] > 0;
    }
    assert ConnOk(t, c);
  }

  lemma HandleCloseKeeps(w: World, c: ConnId)
    requires Inv(w) && c in w.conns && w.conns[c].Open()
    ensures CloseAsserts(w, c) && Inv(w.HandleClose(c))
  {
    OthersFds(w, c);
    var k := w.conns[c];
    ClosedOnlyChanges(w, c);
    forall m: LoopId, f: Functor | m in w.queues && f.c == c ensures QueueOk(w.HandleClose(c), m, f) {
      ClosedQueueOk(w, c, m, f);
    }
    assert ConnOk(w.HandleClose(c), c);
    LocalStep(w, w.HandleClose(c), c, k.loop, k.fd);
  }

  lemma ClosedOnlyChanges(w: World, c: ConnId)
    requires w.Known(c) && BASE in w.queues
    ensures OnlyChanged(w, w.HandleClose(c), c, w.conns[c].loop, w.conns[c].fd)
  {
    Pushed(w, w.HandleClose(c), BASE, if w.conns[c].loop == BASE then Destroy(c) else RemoveInLoop(c));
  }

  /** The close sends the message its connection is then waiting for. */
  lemma ClosedQueueOk(w: World, c: ConnId, m: LoopId, f: Functor)
    requires w.Known(c) && BASE in w.queues && ConnOk(w, c) && w.conns[c].Open()
    requires m in w.queues && f.c == c && QueueOk(w, m, f)
    ensures QueueOk(w.HandleClose(c), m, f)
  {
    var t := w.HandleClose(c);
    var g := if w.conns[c].loop == BASE then Destroy(c) else RemoveInLoop(c);
    PushCount(w.queues[m], g, f);
    assert t.queues[m] == if m == BASE then w.queues[m] + [g] else w.queues[m];
    assert f in t.queues[m] <==> multiset(t.queues[m])[f] > 0;
    assert f in w.queues[m] <==> multiset(w.queues[m])[f] > 0;
  }

  /** A message at the front of a queue is for a connection that is waiting for it. */
  lemma FrontIsDue(w: World, l: LoopId)
    requires Inv(w) && l in w.queues && w.queues[l] != []
    ensures var f := w.queues[l][0];
      f.c in w.conns && w.Known(f.c) && ConnOk(w, f.c)
      && (f.ForceCloseInLoop? || (DueCount(w, l, f) == 1 && multiset(w.queues[l])[f] == 1))
  {
    var f := w.queues[l][0];
    assert QueueOk(w, l, f);
    assert multiset(w.queues[l])[f] > 0;
    assert ConnOk(w, f.c);
  }

  lemma EstablishKeeps(w: World, l: LoopId)
    requires Inv(w) && Enabled(w, RunFront(l)) && w.queues[l][0].Establish?
    ensures Asserts(w, RunFront(l)) && Inv(Next(w, RunFront(l)))
  {
    FrontIsDue(w, l);
    var c, t := w.queues[l][0].c, Next(w, RunFront(l));
    OthersFds(w, c);
    var k := w.conns[c];
    forall g | g in w.channels[l] ensures g != k.fd {
      assert RowOk(w, l, g) && Distinct(w, w.channels[l][g], c);
    }
    Popped(w, t, l);
    forall m: LoopId, f: Functor | m in t.queues && f.c == c ensures QueueOk(t, m, f) {
      assert QueueOk(w, m, f);
      assert f in t.queues[m] <==> multiset(t.queues[m])[f] > 0;
      assert f in w.queues[m] <==> multiset(w.queues[m])[f] > 0;
    }
    assert ConnOk(t, c);
    LocalStep(w, t, c, k.loop, k.fd);
  }

  lemma RemoveInLoopKeeps(w: World, l: LoopId)
    requires Inv(w) && Enabled(w, RunFront(l)) && w.queues[l][0].RemoveInLoop?
    ensures Asserts(w, RunFront(l)) && Inv(Next(w, RunFront(l)))
  {
    FrontIsDue(w, l);
    var c, t := w.queues[l][0].c, Next(w, RunFront(l));
    OthersFds(w, c);
    var k := w.conns[c];
    forall m: LoopId, f: Functor | m in w.queues && f.c != c ensures SameCount(w, t, m, f) {
      RemovedCount(w, l, m, f);
    }
    forall m: LoopId, f: Functor | m in t.queues && f.c == c ensures QueueOk(t, m, f) {
      RemovedQueueOk(w, l, m, f);
    }
    assert ConnOk(t, c);
    LocalStep(w, t, c, k.loop, k.fd);
  }

  /** The request is taken off the base loop's queue and answered on the connection's. */
  lemma RemovedCount(w: World, l: LoopId, m: LoopId, f: Functor)
    requires BASE in w.queues && w.queues.Keys == w.channels.Keys && Enabled(w, RunFront(l))
    requires w.queues[l][0].RemoveInLoop? && w.Known(w.queues[l][0].c) && m in w.queues
    ensures var t, g := Next(w, RunFront(l)), w.queues[l][0];
      && m in t.queues
      && multiset(t.queues[m])[f] == multiset(w.queues[m])[f] - (if m == l && f == g then 1 else 0)
                                     + (if m == w.conns[g.c].loop && f == Destroy(g.c) then 1 else 0)
  {
    var c := w.queues[l][0].c;
    var rest := if m == l then w.queues[l][1..] else w.queues[m];
    PopCount(w.queues[l], f);
    PushCount(rest, Destroy(c), f);
    assert Next(w, RunFront(l)).queues[m] == if m == w.conns[c].loop then rest + [Destroy(c)] else rest;
  }

  lemma RemovedQueueOk(w: World, l: LoopId, m: LoopId, f: Functor)
    requires BASE in w.queues && w.queues.Keys == w.channels.Keys && Enabled(w, RunFront(l))
    requires w.queues[l][0].RemoveInLoop? && w.Known(w.queues[l][0].c) && m in w.queues
    requires f.c == w.queues[l][0].c && DueCount(w, l, w.queues[l][0]) == 1 && ConnOk(w, f.c) && QueueOk(w, m, f)
    ensures QueueOk(Next(w, RunFront(l)), m, f)
  {
    RemovedCount(w, l, m, f);
    assert f in Next(w, RunFront(l)).queues[m] <==> multiset(Next(w, RunFront(l)).queues[m])[f] > 0;
    assert f in w.queues[m] <==> multiset(w.queues[m])[f] > 0;
  }

  lemma DestroyKeeps(w: World, l: LoopId)
    requires Inv(w) && Enabled(w, RunFront(l)) && w.queues[l][0].Destroy?
    ensures Asserts(w, RunFront(l)) && Inv(Next(w, RunFront(l)))
  {
    FrontIsDue(w, l);
    var c, t := w.queues[l][0].c, Next(w, RunFront(l));
    OthersFds(w, c);
    var k := w.conns[c];
    Popped(w, t, l);
    forall m: LoopId, f: Functor | m in t.queues && f.c == c ensures QueueOk(t, m, f) {
      assert QueueOk(w, m, f);
      assert f in t.queues[m] <==> multiset(t.queues[m])[f] > 0;
      assert f in w.queues[m] <==> multiset(w.queues[m])[f] > 0;
    }
    assert ConnOk(t, c);
    LocalStep(w, t, c, k.loop, k.fd);
  }

  lemma ForceCloseRunKeeps(w: World, l: LoopId)
    requires Inv(w) && Enabled(w, RunFront(l)) && w.queues[l][0].ForceCloseInLoop?
    ensures Asserts(w, RunFront(l)) && Inv(Next(w, RunFront(l)))
  {
    FrontIsDue(w, l);
    var c := w.queues[l][0].c;
    OthersFds(w, c);
    assert QueueOk(w, l, w.queues[l][0]);
    var k := w.conns[c];
    var v := w.(queues := w.queues[l := w.queues[l][1..]]);
    Popped(w, v, l);
    forall m: LoopId, f: Functor | m in v.queues && f.c == c ensures QueueOk(v, m, f) {
      assert QueueOk(w, m, f);
      assert f in v.queues[m] <==> multiset(v.queues[m])[f] > 0;
      assert f in w.queues[m] <==> multiset(w.queues[m])[f] > 0;
    }
    assert ConnOk(v, c);
    if k.fd in w.channels[k.loop] { assert RowOk(w, k.loop, k.fd) && RowOk(v, k.loop, k.fd); }
    LocalStep(w, v, c, k.loop, k.fd);
    if k.Open() { HandleCloseKeeps(v, c); }
  }

  /** A change of a connection from Connected or Disconnecting to Disconnecting, perhaps
      with a forced close queued or timed. */
  lemma DisconnectingKeeps(w: World, t: World, c: ConnId)
    requires Inv(w) && c in w.conns && w.conns[c].Open()
    requires var v := w.Put(c, w.conns[c].(state := Disconnecting));
      t == v || t == v.(timers := w.timers + multiset{c})
      || (w.Known(c) && t == v.QueueInLoop(w.conns[c].loop, ForceCloseInLoop(c)))
    ensures Inv(t)
  {
    OthersFds(w, c);
    var k := w.conns[c];
    if t.queues == w.queues { SameQueues(w, t); } else { Pushed(w, t, k.loop, ForceCloseInLoop(c)); }
    forall m: LoopId, f: Functor | m in t.queues && f.c == c ensures QueueOk(t, m, f) {
      assert QueueOk(w, m, f);
      assert f in t.queues[m] <==> multiset(t.queues[m])[f] > 0;
      assert f in w.queues[m] <==> multiset(w.queues[m])[f] > 0;
    }
    assert RowOk(w, k.loop, k.fd) && RowOk(t, k.loop, k.fd);
    assert ConnOk(t, c);
    LocalStep(w, t, c, k.loop, k.fd);
  }

  /** The reports of a poll, and the end of one's handling, say nothing about the rest. */
  lemma ActiveKeeps(w: World, active: set<ConnId>)
    requires Inv(w)
    requires forall c :: c in active ==> c in w.conns && w.conns[c].state != Connecting && !w.conns[c].destroyed
    ensures Inv(w.(active := active))
  {
    var t := w.(active := active);
    forall c | c in t.conns ensures ConnOk(t, c) { assert ConnOk(w, c); }
    forall c, d | c in t.conns && d in t.conns ensures Distinct(t, c, d) { assert Distinct(w, c, d); }
    forall l, fd | l in t.channels && fd in t.channels[l] ensures RowOk(t, l, fd) { assert RowOk(w, l, fd); }
    forall l: LoopId, f: Functor | l in t.queues ensures QueueOk(t, l, f) { assert QueueOk(w, l, f); }
  }

  lemma PollKeeps(w: World, l: LoopId, reported: set<ConnId>)
    requires Inv(w) && Enabled(w, Poll(l, reported))
    ensures Inv(Next(w, Poll(l, reported)))
  {
    forall c | c in reported ensures w.conns[c].state != Connecting && !w.conns[c].destroyed { assert ConnOk(w, c); }
    ActiveKeeps(w, w.active + reported);
  }

  lemma EventKeeps(w: World, c: ConnId, r: Mask, eof: bool)
    requires Inv(w) && Enabled(w, Event(c, r, eof))
    ensures w.Known(c)
    ensures !Asserts(w, Event(c, r, eof)) <==> EventCloses(r, eof) && (!w.conns[c].Open() || ClosesTwice(r, eof))
    ensures Asserts(w, Event(c, r, eof)) ==>
      && Next(w, Event(c, r, eof)) == (if EventCloses(r, eof) then w.Taken(c).HandleClose(c) else w.Taken(c))
      && Inv(Next(w, Event(c, r, eof)))
  {
    var v := w.Taken(c);
    assert ConnOk(w, c);
    ActiveKeeps(w, w.active - {c});
    if v.conns[c].Open() { HandleCloseKeeps(v, c); }
    EventFailsIff(v, c, r, eof);
  }

  lemma TimerKeeps(w: World, c: ConnId)
    requires Inv(w) && Enabled(w, TimerFires(c))
    ensures Asserts(w, TimerFires(c)) && Inv(Next(w, TimerFires(c)))
  {
    OthersFds(w, c);
    var v, k := w.(timers := w.timers - multiset{c}), w.conns[c];
    SameQueues(w, v);
    forall m: LoopId, f: Functor | m in v.queues && f.c == c ensures QueueOk(v, m, f) { assert QueueOk(w, m, f); }
    if k.fd in w.channels[k.loop] { assert RowOk(w, k.loop, k.fd) && RowOk(v, k.loop, k.fd); }
    assert ConnOk(v, c);
    LocalStep(w, v, c, k.loop, k.fd);
    if k.Open() { HandleCloseKeeps(v, c); }
  }

  /** An object nothing refers to has been through its whole life: the destructor finds it
      disconnected and out of every poller. */
  lemma DeleteKeeps(w: World, c: ConnId)
    requires Inv(w) && Enabled(w, Delete(c))
    ensures w.conns[c].destroyed
    ensures Asserts(w, Delete(c)) && Inv(Next(w, Delete(c)))
  {
    OthersFds(w, c);
    var t, k := Next(w, Delete(c)), w.conns[c];
    forall l: LoopId, f: Functor | l in w.queues && f.c == c ensures multiset(w.queues[l])[f] == 0 &&
      f !in w.queues[l] {
      assert f !in w.queues[l];
    }
    assert QueueOk(w, k.loop, Establish(c)) && QueueOk(w, k.loop, Destroy(c));
    assert k.destroyed;
    SameQueues(w, t);
    forall m: LoopId, f: Functor | m in t.queues && f.c == c ensures QueueOk(t, m, f) { assert QueueOk(w, m, f); }
    forall l, fd | l in w.channels && fd in w.channels[l] ensures w.channels[l][fd] != c { assert RowOk(w, l, fd); }
    forall g | g in w.channels[k.loop] ensures g != k.fd {
      assert RowOk(w, k.loop, g) && Distinct(w, w.channels[k.loop][g], c);
    }
    LocalStep(w, t, c, k.loop, k.fd);
  }

  /** A step fails an assert exactly if it is an event that closes a connection closed
      before, or closes it twice by itself. */
  ghost predicate FailingEvent(w: World, s: Step) {
    && s.Event? && s.c in w.conns
    && EventCloses(s.r, s.eof) && (!w.conns[s.c].Open() || ClosesTwice(s.r, s.eof))
  }

  lemma StepKeepsInv(w: World, s: Step)
    requires Inv(w) && Enabled(w, s)
    ensures !Asserts(w, s) <==> FailingEvent(w, s)
    ensures Asserts(w, s) ==> Inv(Next(w, s))
  {
    match s {
      case Accept(l, fd) => AcceptKeeps(w, l, fd);
      case RunFront(l) =>
        match w.queues[l][0] {
          case Establish(_) => EstablishKeeps(w, l);
          case RemoveInLoop(_) => RemoveInLoopKeeps(w, l);
          case Destroy(_) => DestroyKeeps(w, l);
          case ForceCloseInLoop(_) => ForceCloseRunKeeps(w, l);
        }
      case Poll(l, reported) => PollKeeps(w, l, reported);
      case Event(c, r, eof) => EventKeeps(w, c, r, eof);
      case Shutdown(c) => if w.conns[c].state == Connected { DisconnectingKeeps(w, Next(w, s), c); }
      case ForceClose(c) => if w.conns[c].Open() { DisconnectingKeeps(w, Next(w, s), c); }
      case ForceCloseWithDelay(c) => if w.conns[c].Open() { DisconnectingKeeps(w, Next(w, s), c); }
      case TimerFires(c) => TimerKeeps(w, c);
      case Delete(c) => DeleteKeeps(w, c);
    }
  }

  // ---------------------------------------------------------------- whole runs

  datatype Run = Begin(loops: set<LoopId>) | Then(before: Run, step: Step)

  /** The program ends when an assert fails. */
  ghost predicate IsRun(r: Run) {
    match r
    case Begin(loops) => BASE in loops
    case Then(before, s) =>
      IsRun(before) && Enabled(End(before), s) && BASE in End(before).queues && Asserts(End(before), s)
  }

  ghost function Fresh(loops: set<LoopId>): World {
    World(map[], {}, 1, map l | l in loops :: [], map l | l in loops :: map[], multiset{}, {})
  }

  ghost function End(r: Run): (w: World) {
    match r
    case Begin(loops) => Fresh(loops)
    case Then(before, s) =>
      var w := End(before);
      if BASE in w.queues && w.queues.Keys == w.channels.Keys && Enabled(w, s) then Next(w, s) else w
  }

  lemma {:induction false} RunKeepsInv(r: Run)
    requires IsRun(r)
    ensures Inv(End(r))
  {
    if r.Then? {
      RunKeepsInv(r.before);
      StepKeepsInv(End(r.before), r.step);
    }
  }

  /** However the loops' threads interleave, exactly these steps fail an assert. */
  lemma {:induction false} AssertFailsIff(r: Run, s: Step)
    requires IsRun(r)
    ensures BASE in End(r).queues
    ensures Enabled(End(r), s) ==> (!Asserts(End(r), s) <==> FailingEvent(End(r), s))
  {
    RunKeepsInv(r);
    if Enabled(End(r), s) { StepKeepsInv(End(r), s); }
  }

  /** A reported event is handled before its connection can be deleted: the pointer the
      poller gives back never dangles. */
  lemma {:induction false} ReportedIsAlive(r: Run)
    requires IsRun(r)
    ensures forall c :: c in End(r).active ==> End(r).Known(c) && !Enabled(End(r), Delete(c))
  {
    RunKeepsInv(r);
    forall c | c in End(r).active ensures End(r).Known(c) && !Enabled(End(r), Delete(c)) {
      assert ConnOk(End(r), c);
      if Enabled(End(r), Delete(c)) {
        DeleteKeeps(End(r), c);
        assert false;
      }
    }
  }

  /** An event has been reported for a connection that has been closed since. */
  ghost predicate Stale(w: World) { exists c :: c in w.active && c in w.conns && !w.conns[c].Open() }

  /** A delayed close comes due while the same poll's report for its connection is still to
      be handled. */
  ghost predicate Races(w: World, s: Step) {
    s.TimerFires? && s.c in w.active && s.c in w.conns && w.conns[s.c].Open()
  }

  /** That is the only way a report becomes stale, for the functors that close connections
      run when all reports of the loop have been handled. */
  lemma StaleIffRaces(w: World, s: Step)
    requires Inv(w) && !Stale(w) && Enabled(w, s) && Asserts(w, s)
    ensures Stale(Next(w, s)) <==> Races(w, s)
  {
    match s {
      case Event(c, r, eof) => EventKeeps(w, c, r, eof);
      case RunFront(l) => FrontIsDue(w, l); FrontLeavesActive(w, l);
      case TimerFires(c) => TimerStale(w, c);
      case _ => CallLeavesActive(w, s);
    }
  }

  lemma TimerStale(w: World, c: ConnId)
    requires Inv(w) && !Stale(w) && Enabled(w, TimerFires(c))
    ensures Stale(Next(w, TimerFires(c))) <==> Races(w, TimerFires(c))
  {
    var t := Next(w, TimerFires(c));
    assert ConnOk(w, c);
    if Races(w, TimerFires(c)) { assert c in t.active && c in t.conns && !t.conns[c].Open(); }
  }

  lemma CallLeavesActive(w: World, s: Step)
    requires Inv(w) && !Stale(w) && Enabled(w, s)
    requires !s.Event? && !s.RunFront? && !s.TimerFires?
    ensures !Stale(Next(w, s))
  {
    var t := Next(w, s);
    forall c | c in t.active && c in t.conns ensures t.conns[c].Open() {
      if c in w.conns { assert ConnOk(w, c); }
      if s.Accept? { assert forall d :: d in w.conns ==> ConnOk(w, d); }
    }
  }

  lemma FrontLeavesActive(w: World, l: LoopId)
    requires Inv(w) && Enabled(w, RunFront(l)) && Asserts(w, RunFront(l)) && w.Known(w.queues[l][0].c)
    ensures var t := Next(w, RunFront(l));
      t.active == w.active && forall c :: c in w.active ==> c in t.conns && t.conns[c] == w.conns[c]
  {
    var d := w.queues[l][0].c;
    if !w.queues[l][0].RemoveInLoop? {
      assert d !in w.active;
    }
  }

  ghost predicate NeverRaces(r: Run) {
    r.Then? ==> NeverRaces(r.before) && !Races(End(r.before), r.step)
  }

  lemma {:induction false} NoRaceNothingStale(r: Run)
    requires IsRun(r) && NeverRaces(r)
    ensures !Stale(End(r))
  {
    if r.Then? {
      NoRaceNothingStale(r.before);
      RunKeepsInv(r.before);
      StaleIffRaces(End(r.before), r.step);
    }
  }

  /** Without such a race, and but for an event that closes twice by itself, no step fails
      an assert. */
  lemma {:induction false} AssertsNeverFail(r: Run, s: Step)
    requires IsRun(r) && NeverRaces(r)
    ensures BASE in End(r).queues
    ensures Enabled(End(r), s) && !(s.Event? && ClosesTwice(s.r, s.eof)) ==> Asserts(End(r), s)
  {
    AssertFailsIff(r, s);
    NoRaceNothingStale(r);
  }

  ghost function World1(state: State, timers: multiset<ConnId>, active: set<ConnId>): World {
    World(map[1 := Conn(BASE, 5, state, Added, true, false)], {1}, 2,
          map[BASE := []], map[BASE := map[5 := 1]], timers, active)
  }

  lemma Accepted() returns (r: Run)
    ensures IsRun(r) && End(r) == World1(Connected, multiset{}, {})
  {
    r := Then(Begin({BASE}), Accept(BASE, 5));
    var w := Fresh({BASE});
    assert w.queues == map[BASE := []] && w.channels == map[BASE := map[]];
    assert w.NewConnection(BASE, 5) == World1(Connected, multiset{}, {});
  }

  /** One more step of a run. */
  lemma Extend(r: Run, s: Step) returns (t: Run)
    requires IsRun(r) && Enabled(End(r), s) && !FailingEvent(End(r), s)
    ensures BASE in End(r).queues && End(r).queues.Keys == End(r).channels.Keys
    ensures IsRun(t) && End(t) == Next(End(r), s)
  {
    RunKeepsInv(r);
    StepKeepsInv(End(r), s);
    t := Then(r, s);
  }

  lemma Delayed() returns (r: Run)
    ensures IsRun(r) && End(r) == World1(Disconnecting, multiset{1}, {})
  {
    var r0 := Accepted();
    DelayStep(End(r0));
    r := Extend(r0, ForceCloseWithDelay(1));
  }

  lemma DelayStep(w: World)
    requires w == World1(Connected, multiset{}, {})
    ensures Enabled(w, ForceCloseWithDelay(1))
    ensures Next(w, ForceCloseWithDelay(1)) == World1(Disconnecting, multiset{1}, {})
  {
  }

  lemma Reported(r: Run, state: State, timers: multiset<ConnId>) returns (t: Run)
    requires IsRun(r) && End(r) == World1(state, timers, {})
    ensures IsRun(t) && End(t) == World1(state, timers, {1})
  {
    assert Handled(End(r), BASE);
    t := Extend(r, Poll(BASE, {1}));
    assert End(t) == World1(state, timers, {1});
  }

  lemma ClosedMeanwhile(w: World)
    requires w == World1(Disconnecting, multiset{1}, {1})
    ensures Enabled(w, TimerFires(1))
    ensures var t := Next(w, TimerFires(1)); 1 in t.active && t.Known(1) && !t.conns[1].Open()
  {
  }

  /** Both failures can be reached. A connection is closed after a delay and by its peer at
      the same time. */
  lemma RaceIsReachable()
    ensures exists r, s :: IsRun(r) && Enabled(End(r), s) && FailingEvent(End(r), s) && !ClosesTwice(s.r, s.eof)
  {
    var r0 := Delayed();
    var r1 := Reported(r0, Disconnecting, multiset{1});
    ClosedMeanwhile(End(r1));
    var r := Extend(r1, TimerFires(1));
    StaleEventFails(End(r));
  }

  lemma StaleEventFails(w: World)
    requires 1 in w.active && w.Known(1) && !w.conns[1].Open()
    ensures Enabled(w, Event(1, {POLLIN}, true)) && FailingEvent(w, Event(1, {POLLIN}, true))
    ensures !ClosesTwice({POLLIN}, true)
  {
    assert POLLIN in {POLLIN} * {POLLIN, POLLPRI, POLLRDHUP};
  }

  /** A hang-up is reported with urgent data. */
  lemma DoubleCloseIsReachable()
    ensures exists r, s :: IsRun(r) && Enabled(End(r), s) && FailingEvent(End(r), s) && End(r).conns[s.c].Open()
  {
    var r0 := Accepted();
    var r := Reported(r0, Connected, multiset{});
    UrgentHangUpFails(End(r));
  }

  lemma UrgentHangUpFails(w: World)
    requires 1 in w.active && 1 in w.conns
    ensures Enabled(w, Event(1, {POLLHUP, POLLPRI}, true)) && FailingEvent(w, Event(1, {POLLHUP, POLLPRI}, true))
  {
    assert POLLPRI in {POLLHUP, POLLPRI} * {POLLIN, POLLPRI, POLLRDHUP};
  }

  /** The connection is in the table, under its own number, and its own loop's poller knows
      its channel, which no other loop's does. */
  ghost predicate Tracked(w: World, c: ConnId)
    requires c in w.conns
  {
    var k := w.conns[c];
    && c in w.connections && k.watched
    && forall l: LoopId, fd: int ::
       (l in w.channels && fd in w.channels[l] && w.channels[l][fd] == c) <==> (l == k.loop && fd == k.fd)
  }

  lemma {:induction false} OpenConnectionIsTracked(r: Run)
    requires IsRun(r)
    ensures forall c {:trigger Tracked(End(r), c)} :: c in End(r).conns && End(r).conns[c].Open() ==> Tracked(End(r), c)
  {
    RunKeepsInv(r);
    forall c | c in End(r).conns && End(r).conns[c].Open() ensures Tracked(End(r), c) { OpenIsTracked(End(r), c); }
  }

  lemma OpenIsTracked(w: World, c: ConnId)
    requires Inv(w) && c in w.conns && w.conns[c].Open()
    ensures Tracked(w, c)
  {
    assert ConnOk(w, c);
    forall l: LoopId, fd: int
      ensures (l in w.channels && fd in w.channels[l] && w.channels[l][fd] == c) <==>
        (l == w.conns[c].loop && fd == w.conns[c].fd)
    {
      assert l in w.channels && fd in w.channels[l] ==> RowOk(w, l, fd);
    }
  }

  /** The step runs `handleClose` of `c`. */
  ghost predicate Closes(w: World, s: Step, c: ConnId)
    requires Enabled(w, s)
  {
    match s
    case Event(d, r, eof) => d == c && EventCloses(r, eof)
    case RunFront(l) => w.queues[l][0] == ForceCloseInLoop(c) && c in w.conns && w.conns[c].Open()
    case TimerFires(d) => d == c && c in w.conns && w.conns[c].Open()
    case _ => false
  }

  ghost predicate Destroys(w: World, s: Step, c: ConnId)
    requires Enabled(w, s)
  {
    s.RunFront? && w.queues[s.l][0] == Destroy(c)
  }

  ghost function Closings(r: Run, c: ConnId): nat {
    match r
    case Begin(_) => 0
    case Then(before, s) => Closings(before, c) + if Enabled(End(before), s) && Closes(End(before), s, c) then 1 else 0
  }

  ghost function Destructions(r: Run, c: ConnId): nat {
    match r
    case Begin(_) => 0
    case Then(before, s) =>
      Destructions(before, c) + (if Enabled(End(before), s) && Destroys(End(before), s, c) then 1 else 0)
  }

  ghost predicate HasClosed(w: World, c: ConnId) {
    1 <= c < w.nextConnId && (c in w.conns ==> w.conns[c].state == Disconnected)
  }

  ghost predicate HasBeenDestroyed(w: World, c: ConnId) {
    1 <= c < w.nextConnId && (c in w.conns ==> w.conns[c].destroyed)
  }

  /** What the step does to the counts of `c` shows in its state. */
  ghost predicate Counted(w: World, s: Step, c: ConnId)
    requires Enabled(w, s) && BASE in w.queues && w.queues.Keys == w.channels.Keys
  {
    var t := Next(w, s);
    && (Closes(w, s, c) <==> !HasClosed(w, c) && HasClosed(t, c))
    && (Destroys(w, s, c) <==> !HasBeenDestroyed(w, c) && HasBeenDestroyed(t, c))
    && (HasClosed(w, c) ==> HasClosed(t, c))
    && (HasBeenDestroyed(w, c) ==> HasBeenDestroyed(t, c))
  }

  lemma FrontCounts(w: World, l: LoopId, c: ConnId)
    requires Inv(w) && Enabled(w, RunFront(l)) && (c in w.conns ==> ConnOk(w, c))
    ensures Counted(w, RunFront(l), c)
  {
    FrontIsDue(w, l);
    var t := Next(w, RunFront(l));
    assert t.nextConnId == w.nextConnId && t.conns.Keys == w.conns.Keys;
  }

  lemma EventCounts(w: World, e: Step, c: ConnId)
    requires Inv(w) && Enabled(w, e) && Asserts(w, e) && e.Event?
    requires c in w.conns ==> ConnOk(w, c)
    ensures Counted(w, e, c)
  {
    assert ConnOk(w, e.c);
    EventKeeps(w, e.c, e.r, e.eof);
    var t := Next(w, e);
    assert t.nextConnId == w.nextConnId && t.conns.Keys == w.conns.Keys;
  }

  lemma TimerCounts(w: World, d: ConnId, c: ConnId)
    requires Inv(w) && Enabled(w, TimerFires(d))
    requires c in w.conns ==> ConnOk(w, c)
    ensures Counted(w, TimerFires(d), c)
  {
    assert ConnOk(w, d);
    var t := Next(w, TimerFires(d));
    assert t.nextConnId == w.nextConnId && t.conns.Keys == w.conns.Keys;
  }

  lemma BirthAndDeathCount(w: World, s: Step, c: ConnId)
    requires Inv(w) && Enabled(w, s) && (s.Accept? || s.Delete?)
    requires c in w.conns ==> ConnOk(w, c)
    ensures Counted(w, s, c)
  {
    forall d | d in w.conns ensures 1 <= d < w.nextConnId { assert ConnOk(w, d); }
    if s.Delete? { DeleteKeeps(w, s.c); }
  }

  lemma StepCounts(w: World, s: Step, c: ConnId)
    requires Inv(w) && Enabled(w, s) && Asserts(w, s)
    ensures Counted(w, s, c)
  {
    if c in w.conns { assert ConnOk(w, c); }
    match s {
      case RunFront(l) => FrontCounts(w, l, c);
      case Event(_, _, _) => EventCounts(w, s, c);
      case TimerFires(d) => TimerCounts(w, d, c);
      case Accept(_, _) => BirthAndDeathCount(w, s, c);
      case Delete(_) => BirthAndDeathCount(w, s, c);
      case _ =>
    }
  }

  /** `handleClose` and `ConnectDestoryed` each run at most once for a connection: the
      first exactly when it is closed, the second only later, and between the two exactly
      one message is under way for it. */
  lemma {:induction false} ClosedAndDestroyedOnce(r: Run, c: ConnId)
    requires IsRun(r)
    ensures Closings(r, c) == if HasClosed(End(r), c) then 1 else 0
    ensures Destructions(r, c) == if HasBeenDestroyed(End(r), c) then 1 else 0
    ensures Destructions(r, c) <= Closings(r, c)
  {
    RunKeepsInv(r);
    if c in End(r).conns { assert ConnOk(End(r), c); }
    if r.Then? {
      ClosedAndDestroyedOnce(r.before, c);
      RunKeepsInv(r.before);
      StepCounts(End(r.before), r.step, c);
    }
  }

  /** One message is under way that will have the connection destroyed. */
  ghost predicate BeingDestroyed(w: World, c: ConnId) {
    && w.Known(c) && BASE in w.queues
    && multiset(w.queues[BASE])[RemoveInLoop(c)] + multiset(w.queues[w.conns[c].loop])[Destroy(c)] == 1
  }

  /** Between the two calls the destruction is under way, by exactly one message. */
  lemma {:induction false} DestructionIsUnderWay(r: Run, c: ConnId)
    requires IsRun(r)
    ensures Closings(r, c) == 1 && Destructions(r, c) == 0 ==> BeingDestroyed(End(r), c)
  {
    RunKeepsInv(r);
    ClosedAndDestroyedOnce(r, c);
    if Closings(r, c) == 1 && Destructions(r, c) == 0 { ClosedIsBeingDestroyed(End(r), c); }
  }

  lemma ClosedIsBeingDestroyed(w: World, c: ConnId)
    requires Inv(w) && HasClosed(w, c) && !HasBeenDestroyed(w, c)
    ensures BeingDestroyed(w, c)
  {
    assert ConnOk(w, c);
    assert QueueOk(w, BASE, RemoveInLoop(c)) && QueueOk(w, w.conns[c].loop, Destroy(c));
  }

  ghost predicate Idle(w: World) { forall l :: l in w.queues ==> w.queues[l] == [] }

  /** Once the loops have run what was queued, every connection that closed has been
      destroyed, and unless a delayed close still holds it nothing does: none leaks. */
  lemma {:induction false} NoClosedConnectionLeaks(r: Run, c: ConnId)
    requires IsRun(r)
    ensures Closings(r, c) == 1 && Idle(End(r)) ==> Destructions(r, c) == 1
    ensures Closings(r, c) == 1 && Idle(End(r)) && c in End(r).conns && c !in End(r).timers ==>
      Enabled(End(r), Delete(c))
  {
    RunKeepsInv(r);
    ClosedAndDestroyedOnce(r, c);
    DestructionIsUnderWay(r, c);
    if c in End(r).conns { assert ConnOk(End(r), c); }
  }

  // ---------------------------------------------------------------- what is asked for happens

  /** Forced closes asked for while the connection was open, and those that have run. */
  ghost function Forced(r: Run, c: ConnId): nat {
    match r
    case Begin(_) => 0
    case Then(before, s) =>
      Forced(before, c) + (if s == Step.ForceClose(c) && IsOpen(End(before), c) then 1 else 0)
  }

  ghost function ForcedRun(r: Run, c: ConnId): nat {
    match r
    case Begin(_) => 0
    case Then(before, s) => ForcedRun(before, c) + (if RunsForced(End(before), s, c) then 1 else 0)
  }

  ghost predicate IsOpen(w: World, c: ConnId) { c in w.conns && w.conns[c].Open() }

  ghost predicate RunsForced(w: World, s: Step, c: ConnId) {
    s.RunFront? && s.l in w.queues && w.queues[s.l] != [] && w.queues[s.l][0] == Functor.ForceCloseInLoop(c)
  }

  /** Forced closes waiting in the queue of the connection's loop. */
  ghost function Waiting(w: World, c: ConnId): nat {
    if w.Known(c) then multiset(w.queues[w.conns[c].loop])[Functor.ForceCloseInLoop(c)] else 0
  }

  /** `g` is queued on `m`, and the connection stays on its loop. */
  lemma WaitingPush(w: World, t: World, m: LoopId, g: Functor, c: ConnId)
    requires m in w.queues && t.queues == w.queues[m := w.queues[m] + [g]] && t.channels.Keys == w.channels.Keys
    requires c in w.conns <==> c in t.conns
    requires c in w.conns ==> t.conns[c].loop == w.conns[c].loop
    ensures Waiting(t, c) == Waiting(w, c) +
      (if g == Functor.ForceCloseInLoop(c) && w.Known(c) && m == w.conns[c].loop then 1 else 0)
  {
    PushCount(w.queues[m], g, Functor.ForceCloseInLoop(c));
  }

  lemma WaitingClose(w: World, d: ConnId, c: ConnId)
    requires w.Known(d) && BASE in w.queues
    ensures Waiting(w.HandleClose(d), c) == Waiting(w, c)
  {
    var g := if w.conns[d].loop == BASE then Destroy(d) else RemoveInLoop(d);
    WaitingPush(w, w.HandleClose(d), BASE, g, c);
  }

  lemma WaitingPop(w: World, l: LoopId, c: ConnId)
    requires l in w.queues && w.queues[l] != []
    requires w.queues[l][0] == Functor.ForceCloseInLoop(c) ==> w.Known(c) && w.conns[c].loop == l
    ensures Waiting(w.(queues := w.queues[l := w.queues[l][1..]]), c)
         == Waiting(w, c) - (if w.queues[l][0] == Functor.ForceCloseInLoop(c) then 1 else 0)
  {
    PopCount(w.queues[l], Functor.ForceCloseInLoop(c));
  }

  lemma WaitingFront(w: World, l: LoopId, c: ConnId)
    requires Inv(w) && Enabled(w, RunFront(l))
    ensures Waiting(Next(w, RunFront(l)), c) + (if RunsForced(w, RunFront(l), c) then 1 else 0) == Waiting(w, c)
  {
    FrontIsDue(w, l);
    assert QueueOk(w, l, w.queues[l][0]);
    var f, v := w.queues[l][0], w.(queues := w.queues[l := w.queues[l][1..]]);
    WaitingPop(w, l, c);
    match f {
      case Establish(d) =>
      case RemoveInLoop(d) =>
        WaitingPush(v, v.RemoveConnectionInLoop(d), v.conns[d].loop, Destroy(d), c);
      case Destroy(d) =>
      case ForceCloseInLoop(d) => if v.conns[d].Open() { WaitingClose(v, d, c); }
    }
  }

  lemma WaitingAccept(w: World, l: LoopId, fd: int, c: ConnId)
    requires Inv(w) && Enabled(w, Accept(l, fd))
    ensures Waiting(Next(w, Accept(l, fd)), c) == Waiting(w, c)
  {
    var t, n := Next(w, Accept(l, fd)), w.nextConnId;
    forall d | d in w.conns ensures d < n { assert ConnOk(w, d); }
    PushCount(w.queues[l], Establish(n), Functor.ForceCloseInLoop(c));
    assert QueueOk(w, l, Functor.ForceCloseInLoop(n));
    assert Functor.ForceCloseInLoop(n) in w.queues[l] <==> multiset(w.queues[l])[Functor.ForceCloseInLoop(n)] > 0;
  }

  lemma WaitingDelete(w: World, d: ConnId, c: ConnId)
    requires Inv(w) && Enabled(w, Delete(d))
    ensures Waiting(Next(w, Delete(d)), c) == Waiting(w, c)
  {
    if c == d && w.Known(c) {
      assert Functor.ForceCloseInLoop(c) !in w.queues[w.conns[c].loop];
    }
  }

  lemma StepWaiting(w: World, s: Step, c: ConnId)
    requires Inv(w) && Enabled(w, s) && Asserts(w, s)
    ensures Waiting(Next(w, s), c) + (if RunsForced(w, s, c) then 1 else 0)
         == Waiting(w, c) + (if s == Step.ForceClose(c) && IsOpen(w, c) then 1 else 0)
  {
    match s {
      case Accept(l, fd) => WaitingAccept(w, l, fd, c);
      case RunFront(l) => WaitingFront(w, l, c);
      case Event(d, r, eof) =>
        EventKeeps(w, d, r, eof);
        if EventCloses(r, eof) { WaitingClose(w.Taken(d), d, c); }
      case ForceClose(d) =>
        if w.conns[d].Open() {
          WaitingPush(w, Next(w, s), w.conns[d].loop, Functor.ForceCloseInLoop(d), c);
        }
      case TimerFires(d) =>
        var v := w.(timers := w.timers - multiset{d});
        assert ConnOk(w, d);
        if v.conns[d].Open() { WaitingClose(v, d, c); }
      case Delete(d) => WaitingDelete(w, d, c);
      case _ =>
    }
  }

  /** A forced close is queued once for every call on an open connection, and taken off only
      by running; and once one has run the connection is closed. */
  lemma {:induction false} ForcedClosesAreQueued(r: Run, c: ConnId)
    requires IsRun(r)
    ensures Waiting(End(r), c) + ForcedRun(r, c) == Forced(r, c)
    ensures ForcedRun(r, c) > 0 ==> HasClosed(End(r), c)
  {
    if r.Then? {
      ForcedClosesAreQueued(r.before, c);
      RunKeepsInv(r.before);
      StepWaiting(End(r.before), r.step, c);
      StepCounts(End(r.before), r.step, c);
      if RunsForced(End(r.before), r.step, c) { ForcedRunCloses(End(r.before), r.step.l, c); }
    }
  }

  lemma ForcedRunCloses(w: World, l: LoopId, c: ConnId)
    requires Inv(w) && Enabled(w, RunFront(l)) && RunsForced(w, RunFront(l), c)
    ensures HasClosed(Next(w, RunFront(l)), c)
  {
    FrontIsDue(w, l);
    assert QueueOk(w, l, w.queues[l][0]);
  }

  /** So a forced close of an open connection closes it as soon as its loop has run what is
      queued. */
  lemma {:induction false} ForceCloseCloses(r: Run, c: ConnId)
    requires IsRun(r)
    ensures Forced(r, c) > 0 && Idle(End(r)) ==> HasClosed(End(r), c)
  {
    ForcedClosesAreQueued(r, c);
  }

  /** The same for delayed closes and their timers. */
  ghost function DelaysAsked(r: Run, c: ConnId): nat {
    match r
    case Begin(_) => 0
    case Then(before, s) =>
      DelaysAsked(before, c) + (if s == Step.ForceCloseWithDelay(c) && IsOpen(End(before), c) then 1 else 0)
  }

  ghost function DelaysFired(r: Run, c: ConnId): nat {
    match r
    case Begin(_) => 0
    case Then(before, s) => DelaysFired(before, c) + (if s == TimerFires(c) then 1 else 0)
  }

  lemma StepTimers(w: World, s: Step, c: ConnId)
    requires Inv(w) && Enabled(w, s) && Asserts(w, s)
    ensures Next(w, s).timers[c] + (if s == TimerFires(c) then 1 else 0)
         == w.timers[c] + (if s == Step.ForceCloseWithDelay(c) && IsOpen(w, c) then 1 else 0)
  {
    match s {
      case RunFront(l) => FrontIsDue(w, l);
      case Event(d, r, eof) => EventKeeps(w, d, r, eof);
      case _ =>
    }
  }

  lemma {:induction false} DelayedCloseCloses(r: Run, c: ConnId)
    requires IsRun(r)
    ensures End(r).timers[c] + DelaysFired(r, c) == DelaysAsked(r, c)
    ensures DelaysFired(r, c) > 0 ==> HasClosed(End(r), c)
  {
    if r.Then? {
      DelayedCloseCloses(r.before, c);
      RunKeepsInv(r.before);
      StepTimers(End(r.before), r.step, c);
      StepCounts(End(r.before), r.step, c);
      if r.step == TimerFires(c) { assert ConnOk(End(r.before), c); }
    }
  }

  /** How far a connection's life has gone. */
  function Stage(k: Conn): nat {
    match k.state
    case Connecting => 0
    case Connected => 1
    case Disconnecting => 2
    case Disconnected => 3
  }

  /** A connection accepted is the next one, on the loop chosen and with the descriptor
      handed over, and enters the table; the others stay as they are. */
  ghost predicate HasAccepted(w: World, t: World, l: LoopId, fd: int) {
    var c := w.nextConnId;
    && t.nextConnId == c + 1 && c !in w.conns && t.conns.Keys == w.conns.Keys + {c}
    && t.conns[c].loop == l && t.conns[c].fd == fd && !t.conns[c].destroyed
    && t.connections == w.connections + {c}
    && (l == BASE <==> t.conns[c].state == Connected) && (l != BASE <==> t.conns[c].state == Connecting)
    && forall d :: d in w.conns ==> t.conns[d] == w.conns[d]
  }

  lemma AcceptedIsHeld(w: World, l: LoopId, fd: int)
    requires Inv(w) && Enabled(w, Accept(l, fd))
    ensures HasAccepted(w, Next(w, Accept(l, fd)), l, fd)
  {
    forall d | d in w.conns ensures d < w.nextConnId { assert ConnOk(w, d); }
  }

  /** A shutdown or a forced close starts to disconnect a connected connection, and takes no
      other along. */
  lemma AskedIsDisconnecting(w: World, s: Step, c: ConnId)
    requires Enabled(w, s) && c in w.conns && BASE in w.queues && w.queues.Keys == w.channels.Keys
    requires s == Step.Shutdown(c) || s == Step.ForceClose(c) || s == Step.ForceCloseWithDelay(c)
    ensures var t := Next(w, s);
      && t.conns.Keys == w.conns.Keys
      && t.conns[c].state == (if w.conns[c].state == Connected then Disconnecting else w.conns[c].state)
      && forall d :: d in w.conns && d != c ==> t.conns[d] == w.conns[d]
  {
  }

  predicate Advances(j: Conn, k: Conn) { Stage(j) <= Stage(k) && k.loop == j.loop && k.fd == j.fd }

  lemma CloseAdvances(w: World, d: ConnId, c: ConnId)
    requires w.Known(d) && BASE in w.queues && c in w.conns
    ensures c in w.HandleClose(d).conns && Advances(w.conns[c], w.HandleClose(d).conns[c])
  {
  }

  lemma FrontAdvances(w: World, l: LoopId, c: ConnId)
    requires Inv(w) && Enabled(w, RunFront(l)) && c in w.conns
    ensures c in Next(w, RunFront(l)).conns && Advances(w.conns[c], Next(w, RunFront(l)).conns[c])
  {
    FrontIsDue(w, l);
  }

  lemma EventAdvances(w: World, e: Step, c: ConnId)
    requires Inv(w) && Enabled(w, e) && Asserts(w, e) && e.Event? && c in w.conns
    ensures c in Next(w, e).conns && Advances(w.conns[c], Next(w, e).conns[c])
  {
    EventKeeps(w, e.c, e.r, e.eof);
    if EventCloses(e.r, e.eof) { CloseAdvances(w.Taken(e.c), e.c, c); }
  }

  lemma TimerAdvances(w: World, d: ConnId, c: ConnId)
    requires Inv(w) && Enabled(w, TimerFires(d)) && c in w.conns
    ensures c in Next(w, TimerFires(d)).conns && Advances(w.conns[c], Next(w, TimerFires(d)).conns[c])
  {
    assert ConnOk(w, d);
    if w.conns[d].Open() { CloseAdvances(w.(timers := w.timers - multiset{d}), d, c); }
  }

  /** A step takes no connection back in its life, and keeps each on its loop and
      descriptor. */
  lemma StepAdvances(w: World, s: Step, c: ConnId)
    requires Inv(w) && Enabled(w, s) && Asserts(w, s) && c in w.conns
    ensures c in Next(w, s).conns ==> Advances(w.conns[c], Next(w, s).conns[c])
  {
    match s {
      case Accept(l, fd) => AcceptedIsHeld(w, l, fd);
      case RunFront(l) => FrontAdvances(w, l, c);
      case Event(_, _, _) => EventAdvances(w, s, c);
      case TimerFires(d) => TimerAdvances(w, d, c);
      case _ =>
    }
  }

  /** With the loops idle, every connection is open or has been destroyed: none is left
      half-way. */
  lemma {:induction false} IdleIsSettled(r: Run)
    requires IsRun(r)
    ensures Idle(End(r)) ==> forall c :: c in End(r).conns ==> End(r).conns[c].Open() || End(r).conns[c].destroyed
  {
    RunKeepsInv(r);
    var w := End(r);
    forall c | c in w.conns && Idle(w) ensures w.conns[c].Open() || w.conns[c].destroyed {
      assert ConnOk(w, c);
      assert QueueOk(w, w.conns[c].loop, Establish(c)) && QueueOk(w, w.conns[c].loop, Destroy(c));
      assert QueueOk(w, BASE, RemoveInLoop(c));
    }
  }

  // ---------------------------------------------------------------- the class

  /** The server with the connection objects it has created and the queues and pollers of
      the loops that drive them. */
  class TcpServer {
    var conns: map<ConnId, Conn>
    var connections: set<ConnId>
    var nextConnId: int
    var queues: map<LoopId, seq<Functor>>
    var channels: map<LoopId, map<int, ConnId>>
    var timers: multiset<ConnId>
    var active: set<ConnId>

    ghost function View(): World
      reads this
    {
      World(conns, connections, nextConnId, queues, channels, timers, active)
    }

    constructor (loops: set<LoopId>)
      ensures View() == Fresh(loops)
    {
      conns, connections, nextConnId := map[], {}, 1;
      queues, channels := map l | l in loops :: [], map l | l in loops :: map[];
      timers, active := multiset{}, {};
    }

    method QueueInLoop(l: LoopId, f: Functor)
      requires l in queues
      modifies this`queues
      ensures View() == old(View()).QueueInLoop(l, f)
    {
      queues := queues[l := queues[l] + [f]];
    }

    /** The poller's `updateChannel` for a channel whose mask has just been set. */
    method UpdateChannel(c: ConnId, watch: bool)
      requires View().Known(c)
      modifies this`conns, this`channels
      ensures View() == old(View()).Update(c, watch)
    {
      var k := conns[c].(watched := watch);
      if k.status == Init || k.status == Deleted {
        if k.status == Init {
          channels := channels[k.loop := channels[k.loop][k.fd := c]];
        }
        k := k.(status := Added);
      } else if !watch {
        k := k.(status := Deleted);
      }
      conns := conns[c := k];
    }

    method SetState(c: ConnId, state: State)
      requires c in conns
      modifies this`conns
      ensures View() == old(View()).Put(c, old(conns)[c].(state := state))
    {
      conns := conns[c := conns[c].(state := state)];
    }

    method NewConnection(l: LoopId, fd: int)
      requires l in queues && l in channels
      modifies this
      ensures View() == old(View()).NewConnection(l, fd)
    {
      var c := nextConnId;
      conns := conns[c := Conn(l, fd, Connecting, Init, false, false)];
      connections := connections + {c};
      if l == BASE {
        ConnectEstablished(c);
      } else {
        QueueInLoop(l, Establish(c));
      }
      nextConnId := nextConnId + 1;
    }

    method ConnectEstablished(c: ConnId)
      requires View().Known(c)
      modifies this`conns, this`channels
      ensures View() == old(View()).ConnectEstablished(c)
    {
      SetState(c, Connected);
      UpdateChannel(c, true);
    }

    method ConnectDestroyed(c: ConnId)
      requires View().Known(c)
      modifies this`conns, this`channels
      ensures View() == old(View()).ConnectDestroyed(c)
    {
      if conns[c].state == Connected {
        SetState(c, Disconnected);
        UpdateChannel(c, false);
      }
      var k := conns[c];
      channels := channels[k.loop := channels[k.loop] - {k.fd}];
      conns := conns[c := k.(status := Init, destroyed := true)];
    }

    method RemoveConnection(c: ConnId)
      requires View().Known(c) && BASE in queues
      modifies this`connections, this`queues
      ensures View() == old(View()).RemoveConnection(c)
    {
      if conns[c].loop == BASE {
        RemoveConnectionInLoop(c);
      } else {
        QueueInLoop(BASE, RemoveInLoop(c));
      }
    }

    method RemoveConnectionInLoop(c: ConnId)
      requires View().Known(c)
      modifies this`connections, this`queues
      ensures View() == old(View()).RemoveConnectionInLoop(c)
    {
      connections := connections - {c};
      QueueInLoop(conns[c].loop, Destroy(c));
    }

    method HandleClose(c: ConnId)
      requires View().Known(c) && BASE in queues
      modifies this
      ensures View() == old(View()).HandleClose(c)
    {
      SetState(c, Disconnected);
      UpdateChannel(c, false);
      RemoveConnection(c);
    }

    method ForceCloseInLoop(c: ConnId)
      requires View().Known(c) && BASE in queues
      modifies this
      ensures View() == old(View()).CloseIfOpen(c)
    {
      if conns[c].state == Connected || conns[c].state == Disconnecting {
        HandleClose(c);
      }
    }

    method ForceClose(c: ConnId)
      requires Inv(View()) && Enabled(View(), Step.ForceClose(c))
      modifies this
      ensures View() == Next(old(View()), Step.ForceClose(c))
    {
      if conns[c].state == Connected || conns[c].state == Disconnecting {
        SetState(c, Disconnecting);
        QueueInLoop(conns[c].loop, Functor.ForceCloseInLoop(c));
      }
    }

    method ForceCloseWithDelay(c: ConnId)
      requires Inv(View()) && Enabled(View(), Step.ForceCloseWithDelay(c))
      modifies this
      ensures View() == Next(old(View()), Step.ForceCloseWithDelay(c))
    {
      if conns[c].state == Connected || conns[c].state == Disconnecting {
        SetState(c, Disconnecting);
        timers := timers + multiset{c};
      }
    }

    method Shutdown(c: ConnId)
      requires Inv(View()) && Enabled(View(), Step.Shutdown(c))
      modifies this
      ensures View() == Next(old(View()), Step.Shutdown(c))
    {
      if conns[c].state == Connected {
        SetState(c, Disconnecting);
      }
    }

    /** The loop runs the functor at the front of what was queued on it. */
    method RunFunctor(l: LoopId)
      requires Inv(View()) && Enabled(View(), RunFront(l))
      modifies this
      ensures View() == Next(old(View()), RunFront(l))
      ensures Asserts(old(View()), RunFront(l)) && Inv(View())
    {
      ghost var w := View();
      StepKeepsInv(w, RunFront(l));
      FrontIsDue(w, l);
      var f := queues[l][0];
      queues := queues[l := queues[l][1..]];
      match f {
        case Establish(c) => ConnectEstablished(c);
        case RemoveInLoop(c) => RemoveConnectionInLoop(c);
        case Destroy(c) => ConnectDestroyed(c);
        case ForceCloseInLoop(c) => ForceCloseInLoop(c);
      }
    }
  }
}
