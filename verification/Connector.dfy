/** The client's connector with its retries, and the client that owns it:
    net/Connector.cpp with net/TcpClient.cpp:80-155.

    The state is that of one event loop: its timers and events come first, then the functors
    that had been queued when the events were done. Each socket the connector creates is a
    number of its own, so that who owns it can be followed over a whole run. */
module Connectors {
  const MAX_RETRY_DELAY_MS := 30 * 1000
  const INIT_RETRY_DELAY_MS := 500

  type Sock = nat

  datatype Option<T> = None | Some(value: T)

  datatype State = Disconnected | Connecting | Connected

  /** `errno` after `connect`, or ZERO when it succeeded. */
  datatype Errno =
    | ZERO | EINPROGRESS | EINTR | EISCONN
    | EAGAIN | EADDRINUSE | EADDRNOTAVAIL | ECONNREFUSED | ENETUNREACH
    | EACCES | EPERM | EAFNOSUPPORT | EALREADY | EBADF | EFAULT | ENOTSOCK
    | OTHER(n: int)

  predicate UnderWay(e: Errno) { e.ZERO? || e.EINPROGRESS? || e.EINTR? || e.EISCONN? }

  predicate Passing(e: Errno) { e.EAGAIN? || e.EADDRINUSE? || e.EADDRNOTAVAIL? || e.ECONNREFUSED? || e.ENETUNREACH? }

  /** `channel_`: the object, and whether the poller still watches it. */
  datatype Chan = Chan(sock: Sock, watched: bool)

  datatype Functor =
    | StartInLoop
    | StopInLoop
    | ResetChannel
    | ForceCloseInLoop(conn: Sock)
    | ConnectDestroyed(conn: Sock)

  /** What the loop is doing. */
  datatype Phase = Events | Functors

  /** Of a connecting channel that became writable: `getSocketError`, `isSelfConnect`. */
  datatype Probe = Probe(error: bool, self: bool)

  function Min(a: int, b: int): int { if a < b then a else b }

  /** The client: its own switch, its retry flag, and the connection it holds. */
  datatype Client = Client(enable: bool, retry: bool, connection: Option<Sock>, nextConnId: int)

  /** The loop: `pendingFunctors_`, those swapped out, and whether the poll reported the
      channel and the connection and their events are still to be handled. */
  datatype Loop = Loop(phase: Phase, pending: seq<Functor>, batch: seq<Functor>, channelActive: bool, connActive: bool)

  /** What became of the sockets created so far. */
  datatype Ledger = Ledger(nextSock: Sock, closed: multiset<Sock>, handed: multiset<Sock>)
  {
    function Close(s: Sock): Ledger { this.(closed := closed + multiset{s}) }
  }

  datatype World = World(
    state: State, enableConnect: bool, retryDelayMs: int, channel: Option<Chan>,
    /** Whether `newConnectionCallback_` is set. */
    callback: bool,
    /** Whether the one call of `start` has been made. */
    started: bool,
    /** Retry timers set and not fired. */
    retries: nat,
    client: Client, loop: Loop, ledger: Ledger)
  {
    function Queue(): seq<Functor> { loop.batch + loop.pending }

    /** Handlers leave alone what the loop is doing. */
    ghost predicate SameLoop(t: World) {
      t.loop.phase == loop.phase && t.loop.batch == loop.batch && t.callback == callback
    }

    /** The front functor leaves the batch. */
    function Popped(): World
      requires loop.batch != []
    {
      this.(loop := loop.(batch := loop.batch[1..]))
    }

    function ConnHandled(): World { this.(loop := loop.(connActive := false)) }

    function ChannelHandled(): World { this.(loop := loop.(channelActive := false)) }

    function Begun(): World { this.(started := true, client := client.(enable := true), enableConnect := true) }

    function QueueInLoop(f: Functor): World { this.(loop := loop.(pending := loop.pending + [f])) }

    function StartInLoop(e: Errno): (t: World)
      ensures SameLoop(t)
    {
      if enableConnect then Connect(e) else this
    }

    function Connect(e: Errno): (t: World)
      ensures SameLoop(t)
    {
      var s := ledger.nextSock;
      var w := this.(ledger := ledger.(nextSock := s + 1));
      if UnderWay(e) then w.ToConnecting(s)
      else if Passing(e) then w.Retry(s)
      else w.(ledger := w.ledger.Close(s))
    }

    function ToConnecting(s: Sock): (t: World)
      ensures SameLoop(t)
    {
      this.(state := State.Connecting, channel := Some(Chan(s, true)))
    }

    function Retry(s: Sock): (t: World)
      ensures SameLoop(t)
    {
      var w := this.(ledger := ledger.Close(s), state := Disconnected);
      if enableConnect then w.(retries := retries + 1, retryDelayMs := Min(retryDelayMs * 2, MAX_RETRY_DELAY_MS)) else w
    }

    function RemoveAndResetChannel(): (t: World)
      requires channel.Some?
      ensures SameLoop(t)
    {
      this.(channel := Some(channel.value.(watched := false))).QueueInLoop(ResetChannel)
    }

    function HandleWrite(p: Probe): (t: World)
      requires channel.Some?
      ensures SameLoop(t)
    {
      if state != Connecting then this
      else
        var s, w := channel.value.sock, RemoveAndResetChannel();
        if p.error || p.self then w.Retry(s) else w.Established(s)
    }

    function Established(s: Sock): (t: World)
      ensures SameLoop(t)
    {
      var w := this.(state := Connected);
      if !enableConnect then w.(ledger := ledger.Close(s))
      else if callback then w.NewConnection(s)
      else w
    }

    function NewConnection(s: Sock): (t: World)
      ensures SameLoop(t)
    {
      this.(client := client.(nextConnId := client.nextConnId + 1, connection := Some(s)),
            ledger := ledger.(handed := ledger.handed + multiset{s}))
    }

    function Restart(e: Errno): (t: World)
      ensures SameLoop(t)
    {
      this.(state := Disconnected, retryDelayMs := INIT_RETRY_DELAY_MS, enableConnect := true).StartInLoop(e)
    }

    /** The client's side of `handleClose` of connection `s`. */
    function RemoveConnection(s: Sock, e: Errno): (t: World)
      ensures SameLoop(t)
    {
      var w := this.(client := client.(connection := None)).QueueInLoop(ConnectDestroyed(s));
      if client.retry && client.enable then w.Restart(e) else w
    }

    function StopInLoop(): (t: World)
      requires state == Connecting ==> channel.Some?
      ensures SameLoop(t)
    {
      if state == Connecting then
        this.(state := Disconnected).RemoveAndResetChannel().Retry(channel.value.sock)
      else this
    }

    function Run(f: Functor, e: Errno): (t: World)
      requires state == Connecting ==> channel.Some?
      ensures SameLoop(t)
    {
      match f
      case StartInLoop => StartInLoop(e)
      case StopInLoop => StopInLoop()
      case ResetChannel => this.(channel := None)
      case ForceCloseInLoop(s) => if client.connection == Some(s) then RemoveConnection(s, e) else this
      case ConnectDestroyed(_) => this
    }
  }

  function Fresh(callback: bool): World {
    World(Disconnected, false, INIT_RETRY_DELAY_MS, None, callback, false, 0,
          Client(true, false, None, 0), Loop(Events, [], [], false, false), Ledger(0, multiset{}, multiset{}))
  }

  // ---------------------------------------------------------------- steps

  /** One event of a connection can run `handleClose` once, or twice. */
  datatype Closing = Not | Once | Twice

  datatype Step =
    /** The client's `connect`: `e` is for a call from the loop's own thread. */
    | Start(inLoop: bool, e: Errno)
    | Stop
    | EnableRetry
    | Disconnect
    | Poll(channelReady: bool, connReady: bool)
    | ChannelEvent(p: Probe)
    /** An event of the connection, and how often it closes it. */
    | ConnEvent(how: Closing, e: Errno)
    | RetryFires(e: Errno)
    | ForceClose
    /** A delayed forced close comes due. */
    | TimedClose(e: Errno)
    | Swap
    | RunFunctor(e: Errno)

  ghost predicate Enabled(w: World, s: Step) {
    match s
    case Start(inLoop, _) => !w.started
    case Poll(channelReady, connReady) =>
      && w.loop.phase == Functors && w.loop.batch == []
      && (channelReady ==> w.channel.Some? && w.channel.value.watched)
      && (connReady ==> w.client.connection.Some?)
    case ChannelEvent(_) => w.loop.phase == Events && w.loop.channelActive
    case ConnEvent(_, _) => w.loop.phase == Events && w.loop.connActive
    case RetryFires(_) => w.loop.phase == Events && w.retries > 0
    case ForceClose => w.client.connection.Some?
    case TimedClose(_) => w.loop.phase == Events && w.client.connection.Some?
    case Swap => w.loop.phase == Events && !w.loop.channelActive && !w.loop.connActive
    case RunFunctor(_) => w.loop.phase == Functors && w.loop.batch != []
    case _ => true
  }

  /** `startInLoop` asserts that no attempt is under way, and `connecting` that there is no
      channel. */
  ghost predicate StartAsserts(w: World, e: Errno) {
    w.state == Disconnected && (w.enableConnect && UnderWay(e) ==> w.channel.None?)
  }

  /** A closed connection is the one the client holds; with `restart` only from Connected. */
  ghost predicate RemoveAsserts(w: World, e: Errno) {
    && w.client.connection.Some? && w.state == Connected
    && (w.client.retry && w.client.enable && UnderWay(e) ==> w.channel.None?)
  }

  /** What the code asserts in the step, and that it uses `channel_` only when it is there
      and gives it up only when the poller does not know it. */
  ghost predicate Asserts(w: World, s: Step)
    requires Enabled(w, s)
  {
    match s
    case Start(inLoop, e) => inLoop ==> StartAsserts(w.(enableConnect := true), e)
    case ChannelEvent(_) => w.state == Connecting && w.channel.Some? && w.channel.value.watched
    case ConnEvent(how, e) => how != Not ==> RemoveAsserts(w, e) && how == Once
    case RetryFires(e) => StartAsserts(w, e)
    case TimedClose(e) => RemoveAsserts(w, e)
    case RunFunctor(e) =>
      (match w.loop.batch[0]
       case StartInLoop => StartAsserts(w, e)
       case StopInLoop => w.state == Connecting ==> w.channel.Some? && w.channel.value.watched
       case ResetChannel => w.channel.Some? && !w.channel.value.watched
       case ForceCloseInLoop(s) => w.client.connection == Some(s) ==> RemoveAsserts(w, e)
       case ConnectDestroyed(_) => true)
    case _ => true
  }

  ghost predicate Usable(w: World) {
    (w.state == Connecting ==> w.channel.Some?) && (w.loop.channelActive ==> w.channel.Some?)
  }

  ghost function Next(w: World, s: Step): World
    requires Usable(w) && Enabled(w, s)
  {
    match s
    case Start(inLoop, e) =>
      var v := w.Begun();
      if inLoop then v.StartInLoop(e) else v.QueueInLoop(Functor.StartInLoop)
    case Stop => w.(enableConnect := false).QueueInLoop(Functor.StopInLoop)
    case EnableRetry => w.(client := w.client.(retry := true))
    case Disconnect => w.(client := w.client.(enable := false))
    case Poll(channelReady, connReady) => w.(loop := w.loop.(phase := Events, channelActive :=
      channelReady, connActive := connReady))
    case ChannelEvent(p) => w.ChannelHandled().HandleWrite(p)
    case ConnEvent(how, e) =>
      var v := w.ConnHandled();
      if how != Not && w.client.connection.Some? then v.RemoveConnection(w.client.connection.value, e) else v
    case RetryFires(e) => w.(retries := w.retries - 1).StartInLoop(e)
    case ForceClose => w.QueueInLoop(ForceCloseInLoop(w.client.connection.value))
    case TimedClose(e) => w.RemoveConnection(w.client.connection.value, e)
    case Swap => w.(loop := w.loop.(phase := Functors, batch := w.loop.pending, pending := []))
    case RunFunctor(e) => w.Popped().Run(w.loop.batch[0], e)
  }

  // ---------------------------------------------------------------- the invariant

  function Count(q: seq<Functor>, f: Functor): nat { multiset(q)[f] }

  function B2N(b: bool): nat { if b then 1 else 0 }

  /** Attempts: not yet begun, queued, waiting for a retry, under way, or successful. */
  function Attempts(w: World): nat {
    B2N(!w.started) + Count(w.Queue(), Functor.StartInLoop) + w.retries + B2N(w.state != Disconnected)
  }

  /** A forced close of the connection at `i` has no reset of the channel at `j` after it. */
  ghost predicate Ordered(q: seq<Functor>, connection: Option<Sock>, i: int, j: int)
    requires 0 <= i < j < |q|
  {
    q[j] == ResetChannel && q[i].ForceCloseInLoop? ==> connection != Some(q[i].conn)
  }

  ghost predicate AllOrdered(q: seq<Functor>, connection: Option<Sock>) {
    forall i, j {:trigger Ordered(q, connection, i, j)} :: 0 <= i < j < |q| ==> Ordered(q, connection, i, j)
  }

  predicate Watched(w: World) { w.channel.Some? && w.channel.value.watched }

  ghost predicate QueueOk(w: World) {
    var q := w.Queue();
    && Count(q, ResetChannel) == B2N(w.channel.Some? && !w.channel.value.watched)
    && AllOrdered(q, w.client.connection)
    && (forall s: Sock {:trigger ForceCloseInLoop(s)} :: ForceCloseInLoop(s) in q ==> s < w.ledger.nextSock)
    && (Watched(w) ==> ForceCloseInLoop(w.channel.value.sock) !in q)
    && (Count(q, Functor.StartInLoop) > 0 || !w.started ==> w.channel.None?)
    && (w.loop.phase == Events ==> w.loop.batch == [])
    && (w.loop.phase == Functors && w.client.connection.Some? ==> Count(w.loop.pending, ResetChannel) == 0)
  }

  ghost predicate StateOk(w: World) {
    && (w.state == Connecting <==> Watched(w))
    && (w.channel.Some? ==> w.channel.value.sock < w.ledger.nextSock)
    && (w.client.connection.Some? ==> w.state == Connected && w.client.connection.value < w.ledger.nextSock)
    && Attempts(w) <= 1
    && (w.loop.channelActive ==> w.loop.phase == Events && w.state == Connecting)
    && (w.loop.connActive ==> w.loop.phase == Events && !w.loop.channelActive)
    && (w.loop.connActive && w.client.connection.Some? ==> w.channel.None?)
    && INIT_RETRY_DELAY_MS <= w.retryDelayMs <= MAX_RETRY_DELAY_MS
  }

  ghost predicate Inv(w: World) {
    StateOk(w) && QueueOk(w)
  }

  // ---------------------------------------------------------------- the proof

  lemma Push(w: World, f: Functor)
    ensures w.QueueInLoop(f).Queue() == w.Queue() + [f]
    ensures forall g :: Count(w.Queue() + [f], g) == Count(w.Queue(), g) + B2N(g == f)
    ensures forall g :: Count(w.loop.pending + [f], g) == Count(w.loop.pending, g) + B2N(g == f)
    ensures forall g :: g in w.Queue() + [f] <==> g in w.Queue() || g == f
  {
    assert w.loop.batch + (w.loop.pending + [f]) == (w.loop.batch + w.loop.pending) + [f];
  }

  lemma Pop(w: World)
    requires w.loop.batch != []
    ensures var v := w.Popped();
      && v.Queue() == w.Queue()[1..] && w.Queue()[0] == w.loop.batch[0]
      && (forall g :: Count(w.Queue(), g) == Count(v.Queue(), g) + B2N(g == w.loop.batch[0]))
      && (forall g :: g in v.Queue() ==> g in w.Queue())
  {
    assert w.Queue() == [w.loop.batch[0]] + (w.loop.batch[1..] + w.loop.pending);
  }

  lemma OrderedPush(q: seq<Functor>, connection: Option<Sock>, f: Functor)
    requires AllOrdered(q, connection) && f != ResetChannel
    ensures AllOrdered(q + [f], connection)
  {
    forall i, j | 0 <= i < j < |q + [f]| ensures Ordered(q + [f], connection, i, j) {
      if j < |q| { assert Ordered(q, connection, i, j); }
    }
  }

  lemma OrderedPop(q: seq<Functor>, connection: Option<Sock>)
    requires AllOrdered(q, connection) && q != []
    ensures AllOrdered(q[1..], connection)
  {
    forall i, j | 0 <= i < j < |q[1..]| ensures Ordered(q[1..], connection, i, j) {
      assert Ordered(q, connection, i + 1, j + 1);
    }
  }

  lemma PushKeeps(w: World, f: Functor)
    requires Inv(w)
    requires f == StopInLoop || f.ConnectDestroyed? || (f.ForceCloseInLoop? && w.client.connection == Some(f.conn))
    ensures Inv(w.QueueInLoop(f))
  {
    Push(w, f);
    OrderedPush(w.Queue(), w.client.connection, f);
  }

  lemma PopKeeps(w: World)
    requires Inv(w) && w.loop.phase == Functors && w.loop.batch != [] && w.loop.batch[0] != ResetChannel
    ensures Inv(w.Popped())
  {
    Pop(w);
    OrderedPop(w.Queue(), w.client.connection);
  }

  lemma ResetKeeps(w: World)
    requires Inv(w) && w.loop.phase == Functors && w.loop.batch != [] && w.loop.batch[0] == ResetChannel
    ensures w.channel.Some? && !w.channel.value.watched
    ensures Inv(w.Popped().(channel := None))
  {
    Pop(w);
    OrderedPop(w.Queue(), w.client.connection);
  }

  /** A new attempt from where none is outstanding. */
  lemma StartKeeps(w: World, e: Errno)
    requires Inv(w) && Attempts(w) == 0 && (w.enableConnect && UnderWay(e) ==> w.channel.None?)
    ensures Inv(w.StartInLoop(e))
  {
    var t := w.StartInLoop(e);
    assert t.Queue() == w.Queue();
  }

  /** The client lets go of its connection. */
  lemma LetGoKeeps(w: World)
    requires Inv(w) && w.client.connection.Some?
    ensures var u := w.(client := w.client.(connection :=
      None)).QueueInLoop(ConnectDestroyed(w.client.connection.value));
      && Inv(u) && u.state == Connected
  {
    var v := w.(client := w.client.(connection := None));
    assert v.Queue() == w.Queue();
    PushKeeps(v, ConnectDestroyed(w.client.connection.value));
  }

  lemma RestartKeeps(w: World, e: Errno)
    requires Inv(w) && w.state == Connected && w.client.connection.None?
    requires UnderWay(e) ==> w.channel.None?
    ensures Inv(w.Restart(e))
  {
    var x := w.(state := Disconnected, retryDelayMs := INIT_RETRY_DELAY_MS, enableConnect := true);
    assert x.Queue() == w.Queue();
    StartKeeps(x, e);
  }

  lemma RemoveConnectionKeeps(w: World, e: Errno)
    requires Inv(w) && w.client.connection.Some?
    requires w.client.retry && w.client.enable && UnderWay(e) ==> w.channel.None?
    ensures Inv(w.RemoveConnection(w.client.connection.value, e))
  {
    LetGoKeeps(w);
    if w.client.retry && w.client.enable {
      RestartKeeps(w.(client := w.client.(connection :=
        None)).QueueInLoop(ConnectDestroyed(w.client.connection.value)), e);
    }
  }

  /** An attempt under way ends: the channel leaves the poller and its reset is queued. */
  lemma EndAttempt(w: World, s: Sock)
    requires Inv(w) && w.state == Connecting && s == w.channel.value.sock
    ensures var q := w.Queue() + [ResetChannel];
      && w.RemoveAndResetChannel().Queue() == q
      && Count(q, ResetChannel) == 1 && Count(q, Functor.StartInLoop) == 0 && w.retries == 0 && w.started
      && AllOrdered(q, None) && AllOrdered(q, Some(s))
      && (forall s: Sock {:trigger ForceCloseInLoop(s)} :: ForceCloseInLoop(s) in q ==> s < w.ledger.nextSock)
    ensures w.client.connection == None
  {
    Push(w, ResetChannel);
    var q := w.Queue() + [ResetChannel];
    forall i, j | 0 <= i < j < |q| ensures Ordered(q, Some(s), i, j) && Ordered(q, None, i, j) {
      assert q[i].ForceCloseInLoop? ==> q[i] in w.Queue();
    }
  }

  lemma GiveUpKeeps(w: World, s: Sock)
    requires Inv(w) && w.state == Connecting && !w.loop.channelActive && s == w.channel.value.sock
    ensures Inv(w.RemoveAndResetChannel().Retry(s))
  {
    EndAttempt(w, s);
    assert w.RemoveAndResetChannel().Retry(s).Queue() == w.Queue() + [ResetChannel];
  }

  lemma SucceedKeeps(w: World, s: Sock)
    requires Inv(w) && w.state == Connecting && !w.loop.channelActive && s == w.channel.value.sock &&
      w.loop.phase == Events
    requires !w.loop.connActive
    ensures Inv(w.RemoveAndResetChannel().Established(s))
  {
    EndAttempt(w, s);
    assert w.RemoveAndResetChannel().Established(s).Queue() == w.Queue() + [ResetChannel];
  }

  lemma StopIsGivingUp(w: World)
    requires w.state == Connecting && w.channel.Some?
    ensures w.StopInLoop() == w.RemoveAndResetChannel().Retry(w.channel.value.sock)
  {
  }

  lemma StopKeeps(w: World)
    requires Inv(w) && w.loop.phase == Functors
    ensures w.state == Connecting ==> Watched(w)
    ensures Inv(w.StopInLoop())
  {
    if w.state == Connecting {
      StopIsGivingUp(w);
      GiveUpKeeps(w, w.channel.value.sock);
    }
  }

  lemma ForceCloseKeeps(w: World, s: Sock, e: Errno)
    requires Inv(w) && w.loop.phase == Functors && w.loop.batch != [] && w.loop.batch[0] == ForceCloseInLoop(s) &&
      w.client.connection == Some(s)
    ensures w.channel.None?
    ensures Inv(w.Popped().RemoveConnection(s, e))
  {
    var q := w.Queue();
    forall j | 0 <= j < |q| ensures q[j] != ResetChannel {
      if j > 0 { assert Ordered(q, w.client.connection, 0, j); }
    }
    PopKeeps(w);
    RemoveConnectionKeeps(w.Popped(), e);
  }

  lemma StartFunctorKeeps(w: World, e: Errno)
    requires Inv(w) && w.loop.phase == Functors && w.loop.batch != [] && w.loop.batch[0] == Functor.StartInLoop
    ensures StartAsserts(w, e) && Inv(w.Popped().StartInLoop(e))
  {
    Pop(w);
    PopKeeps(w);
    StartKeeps(w.Popped(), e);
  }

  lemma FunctorKeeps(w: World, e: Errno)
    requires Inv(w) && Enabled(w, RunFunctor(e))
    ensures Asserts(w, RunFunctor(e)) && Inv(Next(w, RunFunctor(e)))
  {
    var v := w.Popped();
    match w.loop.batch[0] {
      case StartInLoop =>
        StartFunctorKeeps(w, e);
        assert v.Run(w.loop.batch[0], e) == v.StartInLoop(e);
      case StopInLoop =>
        PopKeeps(w);
        StopKeeps(v);
        assert v.Run(w.loop.batch[0], e) == v.StopInLoop();
      case ResetChannel =>
        ResetKeeps(w);
        assert v.Run(w.loop.batch[0], e) == v.(channel := None);
      case ForceCloseInLoop(s) =>
        if w.client.connection == Some(s) {
          ForceCloseKeeps(w, s, e);
          assert v.Run(w.loop.batch[0], e) == v.RemoveConnection(s, e);
        } else {
          PopKeeps(w);
          assert v.Run(w.loop.batch[0], e) == v;
        }
      case ConnectDestroyed(_) => PopKeeps(w);
    }
  }

  lemma StartCallKeeps(w: World, inLoop: bool, e: Errno)
    requires Inv(w) && Enabled(w, Start(inLoop, e))
    ensures Asserts(w, Start(inLoop, e)) && Inv(Next(w, Start(inLoop, e)))
  {
    var v := w.Begun();
    assert v.Queue() == w.Queue();
    if inLoop {
      StartKeeps(v, e);
    } else {
      Push(v, Functor.StartInLoop);
      OrderedPush(v.Queue(), v.client.connection, Functor.StartInLoop);
    }
  }

  /** The handler only ever runs for an attempt under way, so its other branch, and the
      assert there, are never reached. */
  lemma ChannelEventKeeps(w: World, p: Probe)
    requires Inv(w) && Enabled(w, ChannelEvent(p))
    ensures Asserts(w, ChannelEvent(p)) && Inv(Next(w, ChannelEvent(p)))
  {
    var v, s := w.ChannelHandled(), w.channel.value.sock;
    assert v.Queue() == w.Queue();
    if p.error || p.self { GiveUpKeeps(v, s); } else { SucceedKeeps(v, s); }
  }

  lemma ConnEventKeeps(w: World, e: Errno)
    requires Inv(w) && Enabled(w, ConnEvent(Once, e))
    ensures RemoveAsserts(w, e) <==> w.client.connection.Some?
    ensures w.client.connection.Some? ==> Inv(Next(w, ConnEvent(Once, e)))
  {
    var v := w.ConnHandled();
    assert v.Queue() == w.Queue();
    if w.client.connection.Some? { RemoveConnectionKeeps(v, e); }
  }

  lemma RetryFiresKeeps(w: World, e: Errno)
    requires Inv(w) && Enabled(w, RetryFires(e)) && Asserts(w, RetryFires(e))
    ensures Inv(Next(w, RetryFires(e)))
  {
    LastRetry(w);
    StartKeeps(w.(retries := w.retries - 1), e);
  }

  lemma LastRetry(w: World)
    requires Inv(w) && w.retries > 0
    ensures w.state == Disconnected
    ensures Inv(w.(retries := w.retries - 1)) && Attempts(w.(retries := w.retries - 1)) == 0
  {
    assert w.(retries := w.retries - 1).Queue() == w.Queue();
  }

  lemma QuietKeeps(w: World, s: Step)
    requires Inv(w) && Enabled(w, s)
    requires s.EnableRetry? || s.Disconnect? || s.Poll? || s.Swap? || (s.ConnEvent? && s.how == Not)
    ensures Inv(Next(w, s))
  {
    var t := Next(w, s);
    assert t.Queue() == w.Queue();
  }

  /** A timer comes due in the very iteration that gave a channel up: it starts an attempt,
      by a retry or a restart, before `resetChannel` has run. */
  ghost predicate TooEarly(w: World, s: Step) {
    && ResetChannel in w.loop.pending
    && ((s.RetryFires? && w.enableConnect && UnderWay(s.e))
        || (s.TimedClose? && w.client.retry && w.client.enable && UnderWay(s.e)))
  }

  /** An event that closes the connection was reported before a delayed close did. */
  ghost predicate Overtaken(w: World, s: Step) {
    s.ConnEvent? && s.how != Not && w.client.connection.None?
  }

  /** An event closes the connection twice by itself. */
  ghost predicate ClosesTwice(s: Step) { s.ConnEvent? && s.how == Twice }

  lemma ChannelIsResetByQueue(w: World)
    requires Inv(w) && w.loop.phase == Events
    ensures w.channel.Some? && !Watched(w) <==> ResetChannel in w.loop.pending
  {
    assert w.Queue() == w.loop.pending;
    assert ResetChannel in w.loop.pending <==> Count(w.Queue(), ResetChannel) > 0;
  }

  lemma TimerAsserts(w: World, s: Step)
    requires Inv(w) && Enabled(w, s) && (s.RetryFires? || s.TimedClose?)
    ensures !Asserts(w, s) <==> TooEarly(w, s)
  {
    ChannelIsResetByQueue(w);
    if s.RetryFires? { LastRetry(w); }
  }

  /** A step passes its asserts exactly if it is none of these, and then keeps the
      invariant. */
  lemma StepKeepsInv(w: World, s: Step)
    requires Inv(w) && Enabled(w, s)
    ensures !Asserts(w, s) <==> TooEarly(w, s) || Overtaken(w, s) || ClosesTwice(s)
    ensures Asserts(w, s) ==> Inv(Next(w, s))
  {
    match s {
      case Start(inLoop, e) => StartCallKeeps(w, inLoop, e);
      case Stop =>
        assert w.(enableConnect := false).Queue() == w.Queue();
        PushKeeps(w.(enableConnect := false), Functor.StopInLoop);
      case ChannelEvent(p) => ChannelEventKeeps(w, p);
      case ConnEvent(how, e) =>
        match how {
          case Not => QuietKeeps(w, s);
          case Once => ConnEventKeeps(w, e);
          case Twice =>
        }
      case RetryFires(e) => TimerAsserts(w, s); if Asserts(w, s) { RetryFiresKeeps(w, e); }
      case ForceClose => PushKeeps(w, ForceCloseInLoop(w.client.connection.value));
      case TimedClose(e) => TimerAsserts(w, s); if Asserts(w, s) { RemoveConnectionKeeps(w, e); }
      case RunFunctor(e) => FunctorKeeps(w, e);
      case _ => QuietKeeps(w, s);
    }
  }

  // ---------------------------------------------------------------- who owns a socket

  /** A socket that has been created is exactly one of closed once, handed over once, or
      held by the channel of the attempt under way. */
  ghost predicate Owned(w: World, s: Sock) {
    w.ledger.closed[s] + w.ledger.handed[s] + B2N(Watched(w) && w.channel.value.sock == s) == B2N(s < w.ledger.nextSock)
  }

  ghost predicate Linear(w: World) {
    forall s: Sock {:trigger Owned(w, s)} :: Owned(w, s)
  }

  /** `t` does to sockets what `w` has done. */
  ghost predicate SameLedger(w: World, t: World) {
    && t.ledger.closed == w.ledger.closed && t.ledger.handed == w.ledger.handed &&
       t.ledger.nextSock == w.ledger.nextSock
    && Watched(t) == Watched(w) && (Watched(w) ==> t.channel.value.sock == w.channel.value.sock)
  }

  lemma SameIsLinear(w: World, t: World)
    requires SameLedger(w, t) && Linear(w)
    ensures Linear(t)
  {
    forall s: Sock ensures Owned(t, s) { assert Owned(w, s); }
  }

  lemma StartIsLinear(w: World, e: Errno)
    requires Linear(w) && !Watched(w)
    ensures Linear(w.StartInLoop(e))
  {
    var t, c := w.StartInLoop(e), w.ledger.nextSock;
    if w.enableConnect {
      assert t.ledger.nextSock == c + 1 && t.ledger.handed == w.ledger.handed;
      assert t.ledger.closed == w.ledger.closed + if UnderWay(e) then multiset{} else multiset{c};
      assert if UnderWay(e) then t.channel == Some(Chan(c, true)) else t.channel == w.channel;
      AddedIsLinear(w, t, UnderWay(e));
    }
  }

  /** A new socket, held or closed at once. */
  lemma AddedIsLinear(w: World, t: World, held: bool)
    requires Linear(w) && !Watched(w)
    requires t.ledger.nextSock == w.ledger.nextSock + 1 && t.ledger.handed == w.ledger.handed
    requires t.ledger.closed == w.ledger.closed + if held then multiset{} else multiset{w.ledger.nextSock}
    requires if held then t.channel == Some(Chan(w.ledger.nextSock, true)) else t.channel == w.channel
    ensures Linear(t)
  {
    forall s: Sock ensures Owned(t, s) { assert Owned(w, s); }
  }

  lemma RemoveConnectionIsLinear(w: World, c: Sock, e: Errno)
    requires Linear(w) && !Watched(w)
    ensures Linear(w.RemoveConnection(c, e))
  {
    var v := w.(client := w.client.(connection := None)).QueueInLoop(ConnectDestroyed(c));
    var u := v.(state := Disconnected, retryDelayMs := INIT_RETRY_DELAY_MS, enableConnect := true);
    SameIsLinear(w, v);
    SameIsLinear(v, u);
    StartIsLinear(u, e);
  }

  lemma GiveUpIsLinear(w: World)
    requires Linear(w) && Watched(w)
    ensures Linear(w.RemoveAndResetChannel().Retry(w.channel.value.sock))
  {
    var t := w.RemoveAndResetChannel().Retry(w.channel.value.sock);
    forall s: Sock ensures Owned(t, s) { assert Owned(w, s); }
  }

  lemma SucceedIsLinearIff(w: World)
    requires Linear(w) && Watched(w) && w.channel.value.sock < w.ledger.nextSock
    ensures Linear(w.RemoveAndResetChannel().Established(w.channel.value.sock)) <==> w.callback || !w.enableConnect
  {
    var c := w.channel.value.sock;
    var t := w.RemoveAndResetChannel().Established(c);
    assert Owned(w, c);
    if w.callback || !w.enableConnect {
      forall s: Sock ensures Owned(t, s) { assert Owned(w, s); }
    } else {
      assert !Owned(t, c);
    }
  }

  lemma FunctorIsLinear(w: World, e: Errno)
    requires Inv(w) && Enabled(w, RunFunctor(e)) && Linear(w)
    ensures Linear(Next(w, RunFunctor(e)))
  {
    FunctorKeeps(w, e);
    var v := w.Popped();
    SameIsLinear(w, v);
    match w.loop.batch[0] {
      case StartInLoop => StartIsLinear(v, e);
      case StopInLoop => if v.state == Connecting { StopIsGivingUp(v); GiveUpIsLinear(v); }
      case ResetChannel => SameIsLinear(v, v.(channel := None));
      case ForceCloseInLoop(s) => if v.client.connection == Some(s) { RemoveConnectionIsLinear(v, s, e); }
      case ConnectDestroyed(_) =>
    }
  }

  lemma StartCallIsLinear(w: World, inLoop: bool, e: Errno)
    requires Inv(w) && Enabled(w, Start(inLoop, e)) && Linear(w)
    ensures Linear(Next(w, Start(inLoop, e)))
  {
    StartCallKeeps(w, inLoop, e);
    var v := w.Begun();
    SameIsLinear(w, v);
    if inLoop { StartIsLinear(v, e); } else { SameIsLinear(v, v.QueueInLoop(Functor.StartInLoop)); }
  }

  lemma CloseIsLinear(w: World, e: Errno)
    requires Inv(w) && w.client.connection.Some? && Linear(w)
    ensures Linear(w.RemoveConnection(w.client.connection.value, e))
    ensures Linear(w.ConnHandled().RemoveConnection(w.client.connection.value, e))
  {
    RemoveConnectionIsLinear(w, w.client.connection.value, e);
    SameIsLinear(w, w.ConnHandled());
    RemoveConnectionIsLinear(w.ConnHandled(), w.client.connection.value, e);
  }

  lemma RetryFiresIsLinear(w: World, e: Errno)
    requires Inv(w) && Enabled(w, RetryFires(e)) && Linear(w)
    ensures Linear(Next(w, RetryFires(e)))
  {
    LastRetry(w);
    SameIsLinear(w, w.(retries := w.retries - 1));
    StartIsLinear(w.(retries := w.retries - 1), e);
  }

  /** An attempt succeeds and nobody takes its socket. */
  ghost predicate Leaks(w: World, s: Step) {
    s.ChannelEvent? && !s.p.error && !s.p.self && w.enableConnect && !w.callback
  }

  /** A step keeps every socket owned exactly once, unless it succeeds without a callback. */
  lemma StepIsLinearIff(w: World, s: Step)
    requires Inv(w) && Enabled(w, s) && Linear(w)
    ensures Linear(Next(w, s)) <==> !Leaks(w, s)
  {
    match s {
      case RunFunctor(e) => FunctorIsLinear(w, e);
      case ChannelEvent(p) =>
        var v := w.ChannelHandled();
        SameIsLinear(w, v);
        if p.error || p.self { GiveUpIsLinear(v); } else { SucceedIsLinearIff(v); }
      case Stop => SameIsLinear(w, Next(w, s));
      case EnableRetry => SameIsLinear(w, Next(w, s));
      case Disconnect => SameIsLinear(w, Next(w, s));
      case Poll(_, _) => SameIsLinear(w, Next(w, s));
      case ForceClose => SameIsLinear(w, Next(w, s));
      case Swap => SameIsLinear(w, Next(w, s));
      case Start(inLoop, e) => StartCallIsLinear(w, inLoop, e);
      case ConnEvent(how, e) =>
        if how != Not && w.client.connection.Some? { CloseIsLinear(w, e); } else { SameIsLinear(w, Next(w, s)); }
      case TimedClose(e) => CloseIsLinear(w, e);
      case RetryFires(e) => RetryFiresIsLinear(w, e);
    }
  }

  // ---------------------------------------------------------------- whole runs

  datatype Run = Begin(callback: bool) | Then(before: Run, step: Step)

  /** The program ends when an assert fails. */
  ghost predicate IsRun(r: Run) {
    r.Then? ==> IsRun(r.before) && Enabled(End(r.before), r.step) && Asserts(End(r.before), r.step)
  }

  ghost function End(r: Run): World {
    match r
    case Begin(callback) => Fresh(callback)
    case Then(before, s) =>
      if Usable(End(before)) && Enabled(End(before), s) then Next(End(before), s) else End(before)
  }

  /** Over every run with one `start`, and `restart` from a closed connection, at most one
      attempt or retry is outstanding and the back-off stays in its range. */
  lemma {:induction false} RunKeepsInv(r: Run)
    requires IsRun(r)
    ensures Inv(End(r)) && Attempts(End(r)) <= 1
  {
    if r.Then? {
      RunKeepsInv(r.before);
      StepKeepsInv(End(r.before), r.step);
    }
  }

  /** The asserts of `startInLoop`, `connecting` and `handleWrite` fail in a step exactly if a
      timer is too early, and that of the connection's `handleClose`, which comes before the
      client's own, exactly if a timer has overtaken an event or the event closes twice. */
  lemma {:induction false} AssertFailsIff(r: Run, s: Step)
    requires IsRun(r)
    ensures Enabled(End(r), s) ==>
      (!Asserts(End(r), s) <==> TooEarly(End(r), s) || Overtaken(End(r), s) || ClosesTwice(s))
  {
    RunKeepsInv(r);
    if Enabled(End(r), s) { StepKeepsInv(End(r), s); }
  }

  lemma StepKeepsCallback(w: World, s: Step)
    requires Inv(w) && Enabled(w, s)
    ensures Next(w, s).callback == w.callback
  {
    match s {
      case Start(inLoop, e) =>
        var v := w.Begun();
        assert Next(w, s) == if inLoop then v.StartInLoop(e) else v.QueueInLoop(Functor.StartInLoop);
      case ChannelEvent(p) => assert Next(w, s) == w.ChannelHandled().HandleWrite(p);
      case RetryFires(e) => assert Next(w, s) == w.(retries := w.retries - 1).StartInLoop(e);
      case RunFunctor(e) => assert Next(w, s) == w.Popped().Run(w.loop.batch[0], e);
      case _ =>
    }
  }

  /** With the callback set, every socket created is exactly one of held by the attempt
      under way, closed once, or handed over once. */
  lemma {:induction false} RunOwnsEachSocketOnce(r: Run)
    requires IsRun(r) && End(r).callback
    ensures Linear(End(r))
  {
    if r.Then? {
      RunKeepsInv(r.before);
      StepKeepsCallback(End(r.before), r.step);
      RunOwnsEachSocketOnce(r.before);
      StepIsLinearIff(End(r.before), r.step);
    }
  }

  // ---------------------------------------------------------------- what is asked for happens

  /** What `connect` answers decides: an attempt under way holds the new socket, watched; a
      passing error closes it and sets a timer; any other closes it, and that is all. */
  lemma AttemptByErrno(w: World, e: Errno)
    ensures var t, s := w.StartInLoop(e), w.ledger.nextSock;
      if !w.enableConnect then t == w
      else
        && t.ledger.nextSock == s + 1 && t.ledger.handed == w.ledger.handed
        && t.client == w.client && t.loop == w.loop && t.enableConnect
        && match e
           case ZERO | EINPROGRESS | EINTR | EISCONN =>
             && t.state == Connecting && t.channel == Some(Chan(s, true))
             && t.retries == w.retries && t.ledger.closed == w.ledger.closed
           case EAGAIN | EADDRINUSE | EADDRNOTAVAIL | ECONNREFUSED | ENETUNREACH =>
             && t.state == Disconnected && t.channel == w.channel
             && t.retries == w.retries + 1 && t.ledger.closed == w.ledger.closed + multiset{s}
           case EACCES | EPERM | EAFNOSUPPORT | EALREADY | EBADF | EFAULT | ENOTSOCK | OTHER(_) =>
             && t.state == w.state && t.channel == w.channel && t.retryDelayMs == w.retryDelayMs
             && t.retries == w.retries && t.ledger.closed == w.ledger.closed + multiset{s}
  {
  }

  /** Giving up a socket closes it, and tries again by a timer if connecting is enabled. */
  ghost predicate GivesUp(w: World, t: World, s: Sock) {
    && t.state == Disconnected && t.ledger == w.ledger.(closed := w.ledger.closed + multiset{s})
    && t.retries == w.retries + B2N(w.enableConnect) && t.client == w.client
  }

  /** A writable channel's attempt ends: an error and a connection to oneself are given up;
      success hands the socket to the client, or closes it if connecting was disabled. */
  lemma ProbeDecides(w: World, p: Probe)
    requires w.state == Connecting && w.channel.Some?
    ensures var t, s := w.HandleWrite(p), w.channel.value.sock;
      && t.channel == Some(Chan(s, false)) && t.loop.pending == w.loop.pending + [ResetChannel]
      && if p.error || p.self then GivesUp(w, t, s)
         else
           && t.state == Connected && t.retries == w.retries
           && if !w.enableConnect then
                t.client == w.client && t.ledger == w.ledger.(closed := w.ledger.closed + multiset{s})
              else if w.callback then
                && t.client.connection == Some(s) && t.client.nextConnId == w.client.nextConnId + 1
                && t.client.retry == w.client.retry && t.client.enable == w.client.enable
                && t.ledger == w.ledger.(handed := w.ledger.handed + multiset{s})
              else t.client == w.client && t.ledger == w.ledger
  {
  }

  /** Stopping gives up an attempt under way, and does nothing else. */
  lemma StopDecides(w: World)
    requires w.state == Connecting ==> w.channel.Some?
    ensures var t := w.StopInLoop();
      if w.state == Connecting then
        && GivesUp(w, t, w.channel.value.sock)
        && t.channel == Some(Chan(w.channel.value.sock, false)) && t.loop.pending == w.loop.pending + [ResetChannel]
      else t == w
  {
  }

  /** A closed connection is let go and its destruction queued; and a client that retries and
      was not disconnected attempts again, from the initial delay. */
  lemma CloseDecides(w: World, s: Sock, e: Errno)
    ensures var t := w.RemoveConnection(s, e);
      && t.client.connection == None && t.loop.pending == w.loop.pending + [ConnectDestroyed(s)]
      && if w.client.retry && w.client.enable then
           && t.ledger.nextSock == w.ledger.nextSock + 1 && t.enableConnect && t.state != Connected
           && (t.retries > w.retries ==> t.retryDelayMs == 2 * INIT_RETRY_DELAY_MS)
           && (t.retries == w.retries ==> t.retryDelayMs == INIT_RETRY_DELAY_MS)
         else
           t.ledger == w.ledger && t.state == w.state && t.retries == w.retries && t.enableConnect == w.enableConnect
  {
  }

  /** The step neither disables connecting nor meets an error that ends the attempts. */
  predicate Hopeful(s: Step) {
    match s
    case Stop => false
    case Start(_, e) => Recoverable(e)
    case ConnEvent(_, e) => Recoverable(e)
    case RetryFires(e) => Recoverable(e)
    case TimedClose(e) => Recoverable(e)
    case RunFunctor(e) => Recoverable(e)
    case _ => true
  }

  predicate Recoverable(e: Errno) {
    match e
    case ZERO | EINPROGRESS | EINTR | EISCONN => true
    case EAGAIN | EADDRINUSE | EADDRNOTAVAIL | ECONNREFUSED | ENETUNREACH => true
    case _ => false
  }

  /** Exactly one attempt is to come, waiting, under way or successful. */
  ghost predicate Trying(w: World) { Attempts(w) == 1 && (w.started ==> w.enableConnect) }

  lemma StartKeepsTrying(w: World, e: Errno)
    requires w.started && w.enableConnect && Recoverable(e) && Attempts(w) == 0
    ensures Trying(w.StartInLoop(e))
  {
    assert w.StartInLoop(e).Queue() == w.Queue();
  }

  lemma RemoveKeepsTrying(w: World, s: Sock, e: Errno)
    requires Trying(w) && w.started && w.state == Connected && Recoverable(e)
    ensures Trying(w.RemoveConnection(s, e))
  {
    var u := w.(client := w.client.(connection := None)).QueueInLoop(ConnectDestroyed(s));
    Push(w.(client := w.client.(connection := None)), ConnectDestroyed(s));
    assert w.(client := w.client.(connection := None)).Queue() == w.Queue();
    var x := u.(state := Disconnected, retryDelayMs := INIT_RETRY_DELAY_MS, enableConnect := true);
    assert x.Queue() == u.Queue();
    if w.client.retry && w.client.enable { StartKeepsTrying(x, e); }
  }

  lemma ProbeKeepsTrying(w: World, p: Probe)
    requires Trying(w) && w.started && w.state == Connecting && w.channel.Some?
    ensures Trying(w.HandleWrite(p))
  {
    Push(w, ResetChannel);
    var t := w.HandleWrite(p);
    ProbeDecides(w, p);
    assert t.Queue() == w.Queue() + [ResetChannel];
  }

  lemma StopKeepsTrying(w: World)
    requires Trying(w) && (w.state == Connecting ==> w.channel.Some? && w.started)
    ensures Trying(w.StopInLoop())
  {
    if w.state == Connecting {
      Push(w, ResetChannel);
      assert w.StopInLoop().Queue() == w.Queue() + [ResetChannel];
    }
  }

  lemma FunctorKeepsTrying(w: World, e: Errno)
    requires Inv(w) && Trying(w) && Enabled(w, RunFunctor(e)) && Recoverable(e)
    ensures Trying(Next(w, RunFunctor(e)))
  {
    FunctorKeeps(w, e);
    Pop(w);
    var v := w.Popped();
    match w.loop.batch[0] {
      case StartInLoop => StartKeepsTrying(v, e); assert v.Run(w.loop.batch[0], e) == v.StartInLoop(e);
      case StopInLoop => StopKeepsTrying(v); assert v.Run(w.loop.batch[0], e) == v.StopInLoop();
      case ResetChannel => assert v.(channel := None).Queue() == v.Queue();
      case ForceCloseInLoop(s) =>
        if v.client.connection == Some(s) {
          RemoveKeepsTrying(v, s, e);
          assert v.Run(w.loop.batch[0], e) == v.RemoveConnection(s, e);
        }
      case ConnectDestroyed(_) =>
    }
  }

  lemma CallKeepsTrying(w: World, inLoop: bool, e: Errno)
    requires Inv(w) && Trying(w) && Enabled(w, Start(inLoop, e)) && Recoverable(e)
    ensures Trying(Next(w, Start(inLoop, e)))
  {
    var v := w.Begun();
    assert v.Queue() == w.Queue();
    if inLoop { StartKeepsTrying(v, e); } else { Push(v, Functor.StartInLoop); }
  }

  lemma RestKeepsTrying(w: World, s: Step)
    requires Inv(w) && Trying(w) && Enabled(w, s)
    requires s.EnableRetry? || s.Disconnect? || s.Poll? || s.Swap? || s.ForceClose? || (s.ConnEvent? && s.how == Not)
    ensures Trying(Next(w, s))
  {
    if s.ForceClose? { Push(w, ForceCloseInLoop(w.client.connection.value)); }
    else { assert Next(w, s).Queue() == w.Queue(); }
  }

  lemma StepKeepsTrying(w: World, s: Step)
    requires Inv(w) && Trying(w) && Enabled(w, s) && Asserts(w, s) && Hopeful(s)
    ensures Trying(Next(w, s))
  {
    match s {
      case Start(inLoop, e) => CallKeepsTrying(w, inLoop, e);
      case ChannelEvent(p) =>
        assert w.ChannelHandled().Queue() == w.Queue();
        ProbeKeepsTrying(w.ChannelHandled(), p);
      case ConnEvent(how, e) =>
        if how == Not { RestKeepsTrying(w, s); }
        else {
          assert w.ConnHandled().Queue() == w.Queue();
          RemoveKeepsTrying(w.ConnHandled(), w.client.connection.value, e);
        }
      case RetryFires(e) => LastRetry(w); StartKeepsTrying(w.(retries := w.retries - 1), e);
      case TimedClose(e) => RemoveKeepsTrying(w, w.client.connection.value, e);
      case RunFunctor(e) => FunctorKeepsTrying(w, e);
      case _ => RestKeepsTrying(w, s);
    }
  }

  ghost predicate AlwaysHopeful(r: Run) { r.Then? ==> AlwaysHopeful(r.before) && Hopeful(r.step) }

  /** The connector does not give up: as long as it is not stopped, and no error that is not
      a passing one comes, exactly one attempt is always to come, waiting for its timer,
      under way, or successful. */
  lemma {:induction false} NeverGivesUp(r: Run)
    requires IsRun(r) && AlwaysHopeful(r)
    ensures Attempts(End(r)) == 1 && (End(r).started ==> End(r).enableConnect)
  {
    if r.Then? {
      NeverGivesUp(r.before);
      RunKeepsInv(r.before);
      StepKeepsTrying(End(r.before), r.step);
    }
  }

  /** The step restarts the connector. */
  ghost predicate Restarts(w: World, s: Step)
    requires Enabled(w, s)
  {
    && w.client.retry && w.client.enable && w.client.connection.Some?
    && (s.TimedClose? || (s.ConnEvent? && s.how != Not) || (s.RunFunctor? &&
        w.loop.batch[0] == ForceCloseInLoop(w.client.connection.value)))
  }

  /** A stopped connector creates no socket until it is started or restarted. */
  lemma StoppedCreatesNothing(w: World, s: Step)
    requires Inv(w) && Enabled(w, s) && Asserts(w, s) && !w.enableConnect && !Restarts(w, s) && !s.Start?
    ensures !Next(w, s).enableConnect && Next(w, s).ledger.nextSock == w.ledger.nextSock
    ensures Next(w, s).retries <= w.retries
  {
    match s {
      case RunFunctor(e) => StoppedFunctor(w, e);
      case ChannelEvent(p) => ProbeDecides(w.ChannelHandled(), p);
      case RetryFires(e) => AttemptByErrno(w.(retries := w.retries - 1), e);
      case TimedClose(e) => CloseDecides(w, w.client.connection.value, e);
      case ConnEvent(how, e) =>
        if how != Not { CloseDecides(w.ConnHandled(), w.client.connection.value, e); }
      case _ =>
    }
  }

  lemma StoppedFunctor(w: World, e: Errno)
    requires Inv(w) && Enabled(w, RunFunctor(e)) && !w.enableConnect && !Restarts(w, RunFunctor(e))
    ensures var t := Next(w, RunFunctor(e));
      !t.enableConnect && t.ledger.nextSock == w.ledger.nextSock && t.retries <= w.retries
  {
    var v, f := w.Popped(), w.loop.batch[0];
    match f {
      case StartInLoop => AttemptByErrno(v, e); assert v.Run(f, e) == v.StartInLoop(e);
      case StopInLoop => StopDecides(v); StopKeepsEnable(v); assert v.Run(f, e) == v.StopInLoop();
      case ForceCloseInLoop(s) =>
        CloseDecides(v, s, e);
        if v.client.connection == Some(s) { assert v.Run(f, e) == v.RemoveConnection(s, e); }
      case _ =>
    }
  }

  lemma StopKeepsEnable(w: World)
    requires w.state == Connecting ==> w.channel.Some?
    ensures w.StopInLoop().enableConnect == w.enableConnect
  {
  }

  /** What the calls on connector and client leave behind. */
  lemma StopTells(w: World)
    requires Usable(w)
    ensures var t := Next(w, Stop);
      !t.enableConnect && t.loop.pending == w.loop.pending + [Functor.StopInLoop] && t.state == w.state
  {
  }

  lemma ClientTells(w: World)
    requires Usable(w)
    ensures Next(w, EnableRetry).client == w.client.(retry := true)
    ensures Next(w, Disconnect).client == w.client.(enable := false)
  {
  }

  lemma ForceCloseTells(w: World)
    requires Usable(w) && w.client.connection.Some?
    ensures Next(w, ForceClose).loop.pending == w.loop.pending + [ForceCloseInLoop(w.client.connection.value)]
  {
  }

  lemma StartTells(w: World, inLoop: bool, e: Errno)
    requires Usable(w) && !w.started
    ensures var t := Next(w, Start(inLoop, e));
      && t.started && t.enableConnect && t.client.enable
      && t.ledger.nextSock == w.ledger.nextSock + B2N(inLoop)
      && t.loop.pending == w.loop.pending + (if inLoop then [] else [Functor.StartInLoop])
  {
    AttemptByErrno(w.Begun(), e);
  }

  /** Running a functor is what was posted: a start attempts, a forced close lets the client's
      connection go if it is still the one, a reset drops the channel. */
  lemma FunctorTells(w: World, f: Functor, e: Errno)
    requires w.state == Connecting ==> w.channel.Some?
    ensures f == Functor.StartInLoop ==> w.Run(f, e).ledger.nextSock == w.ledger.nextSock + B2N(w.enableConnect)
    ensures f == ResetChannel ==> w.Run(f, e).channel == None && w.Run(f, e).ledger == w.ledger
    ensures f.ConnectDestroyed? ==> w.Run(f, e) == w
  {
    AttemptByErrno(w, e);
  }

  lemma ForcedCloseTells(w: World, s: Sock, e: Errno)
    requires w.state == Connecting ==> w.channel.Some?
    ensures var t := w.Run(ForceCloseInLoop(s), e);
      if w.client.connection == Some(s) then
        t.client.connection == None && t.loop.pending == w.loop.pending + [ConnectDestroyed(s)]
      else t == w
  {
    CloseDecides(w, s, e);
  }

  /** So do the timers, and an event that closes. */
  lemma RetryTells(w: World, e: Errno)
    requires Usable(w) && Enabled(w, RetryFires(e))
    ensures var t := Next(w, RetryFires(e));
      && t.ledger.nextSock == w.ledger.nextSock + B2N(w.enableConnect)
      && t.retries == w.retries - 1 + B2N(w.enableConnect && Recoverable(e) &&
           e != ZERO && e != EINPROGRESS && e != EINTR && e != EISCONN)
  {
    AttemptByErrno(w.(retries := w.retries - 1), e);
  }

  lemma CloseTells(w: World, s: Step)
    requires Usable(w) && Enabled(w, s) && (s.TimedClose? || (s.ConnEvent? && s.how != Not))
    requires w.client.connection.Some?
    ensures var t := Next(w, s);
      t.client.connection == None && t.loop.pending == w.loop.pending + [ConnectDestroyed(w.client.connection.value)]
  {
    CloseDecides(w, w.client.connection.value, s.e);
    CloseDecides(w.ConnHandled(), w.client.connection.value, s.e);
  }

  /** An attempt under way with connecting disabled has a `stopInLoop` on its way. */
  ghost predicate StopComes(w: World) {
    w.state == Connecting && !w.enableConnect ==> Functor.StopInLoop in w.Queue()
  }

  lemma FunctorKeepsStop(w: World, e: Errno)
    requires Inv(w) && StopComes(w) && Enabled(w, RunFunctor(e))
    ensures StopComes(Next(w, RunFunctor(e)))
  {
    var v, f := w.Popped(), w.loop.batch[0];
    assert w.Queue() == [f] + v.Queue();
    match f {
      case StartInLoop => StartKeepsStop(v, e); assert v.Run(f, e) == v.StartInLoop(e);
      case StopInLoop => StopDecides(v); assert v.Run(f, e) == v.StopInLoop();
      case ResetChannel =>
        assert v.Run(f, e) == v.(channel := None);
        assert v.(channel := None).Queue() == v.Queue();
      case ForceCloseInLoop(s) =>
        if v.client.connection == Some(s) {
          CloseKeepsStop(v, s, e);
          assert v.Run(f, e) == v.RemoveConnection(s, e);
        }
      case ConnectDestroyed(_) =>
    }
  }

  lemma StartKeepsStop(v: World, e: Errno)
    requires v.state == Connecting && !v.enableConnect ==> Functor.StopInLoop in v.Queue()
    ensures StopComes(v.StartInLoop(e))
  {
    AttemptByErrno(v, e);
  }

  lemma CloseKeepsStop(v: World, s: Sock, e: Errno)
    requires v.state == Connected
    ensures StopComes(v.RemoveConnection(s, e))
  {
    CloseDecides(v, s, e);
  }

  lemma StepKeepsStop(w: World, s: Step)
    requires Inv(w) && StopComes(w) && Enabled(w, s) && Asserts(w, s)
    ensures StopComes(Next(w, s))
  {
    match s {
      case Start(inLoop, e) => AttemptByErrno(w.Begun(), e);
      case Stop => Push(w.(enableConnect := false), Functor.StopInLoop);
      case ChannelEvent(p) => ProbeDecides(w.ChannelHandled(), p);
      case ConnEvent(how, e) =>
        if how == Not { assert w.ConnHandled().Queue() == w.Queue(); }
        else { CloseDecides(w.ConnHandled(), w.client.connection.value, e); }
      case RetryFires(e) => LastRetry(w); AttemptByErrno(w.(retries := w.retries - 1), e);
      case TimedClose(e) => CloseDecides(w, w.client.connection.value, e);
      case RunFunctor(e) => FunctorKeepsStop(w, e);
      case ForceClose => Push(w, ForceCloseInLoop(w.client.connection.value));
      case _ => assert Next(w, s).Queue() == w.Queue();
    }
  }

  /** So a connector that is stopped, and not started again, gives its attempt up once the
      loop has run what is queued. */
  lemma {:induction false} StopTakesEffect(r: Run)
    requires IsRun(r)
    ensures End(r).state == Connecting && !End(r).enableConnect ==> Functor.StopInLoop in End(r).Queue()
  {
    if r.Then? {
      StopTakesEffect(r.before);
      RunKeepsInv(r.before);
      StepKeepsStop(End(r.before), r.step);
    }
  }

  // ---------------------------------------------------------------- reached examples

  /** An attempt under way whose channel the poll has reported. */
  ghost function Attempting(callback: bool): World {
    World(Connecting, true, INIT_RETRY_DELAY_MS, Some(Chan(0, true)), callback, true, 0,
          Client(true, false, None, 0), Loop(Events, [], [], true, false), Ledger(1, multiset{}, multiset{}))
  }

  lemma AttemptIsReached(callback: bool) returns (r: Run)
    ensures IsRun(r) && End(r) == Attempting(callback)
  {
    var r1 := Then(Begin(callback), Start(true, EINPROGRESS));
    assert IsRun(r1) && End(r1) == Attempting(callback).ChannelHandled();
    var r2 := Then(r1, Swap);
    assert IsRun(r2) && End(r2).loop == Loop(Functors, [], [], false, false);
    r := Then(r2, Poll(true, false));
  }

  /** One more step of a run. */
  lemma Extend(r: Run, s: Step) returns (t: Run)
    requires IsRun(r) && Usable(End(r)) && Enabled(End(r), s) && Asserts(End(r), s)
    ensures IsRun(t) && End(t) == Next(End(r), s)
  {
    t := Then(r, s);
  }

  lemma EarlyRetryIsReachable()
    ensures exists r :: IsRun(r) && Enabled(End(r), RetryFires(ZERO)) && TooEarly(End(r), RetryFires(ZERO))
  {
    var r := AttemptIsReached(true);
    var w := Attempting(true);
    var t := Extend(r, ChannelEvent(Probe(true, false)));
    assert Enabled(End(t), RetryFires(ZERO)) && TooEarly(End(t), RetryFires(ZERO));
  }

  /** The client retries; its user closes a new connection at once, by a timer. */
  lemma EarlyCloseIsReachable()
    ensures exists r :: IsRun(r) && Enabled(End(r), TimedClose(ZERO)) && TooEarly(End(r), TimedClose(ZERO))
  {
    var r := AttemptIsReached(true);
    var t := Extend(r, ChannelEvent(Probe(false, false)));
    var u := Extend(t, EnableRetry);
    assert Enabled(End(u), TimedClose(ZERO)) && TooEarly(End(u), TimedClose(ZERO));
  }

  lemma LeakIsReachable()
    ensures exists r :: IsRun(r) && !Linear(End(r))
  {
    var r := AttemptIsReached(false);
    var t := Extend(r, ChannelEvent(Probe(false, false)));
    assert !Owned(End(t), 0);
    assert IsRun(t) && !Linear(End(t));
  }

  /** A connection handed to the client, with the rest of the iteration run. */
  ghost function Handed(phase: Phase, reported: bool): World {
    World(Connected, true, INIT_RETRY_DELAY_MS, None, true, true, 0,
          Client(true, false, Some(0), 1), Loop(phase, [], [], false, reported), Ledger(1, multiset{}, multiset{0}))
  }

  lemma HandedIsReached() returns (r: Run)
    ensures IsRun(r) && End(r) == Handed(Functors, false)
  {
    var r0 := AttemptIsReached(true);
    var r1 := Extend(r0, ChannelEvent(Probe(false, false)));
    assert End(r1) == Handed(Events, false).(channel := Some(Chan(0, false)), loop :=
      Loop(Events, [ResetChannel], [], false, false));
    var r2 := Extend(r1, Swap);
    r := Extend(r2, RunFunctor(ZERO));
    assert End(r).loop == Loop(Functors, [], [], false, false);
  }

  /** A connection is closed by a timer while its peer's close has been reported. */
  lemma OvertakenIsReachable()
    ensures exists r :: IsRun(r) && Enabled(End(r), ConnEvent(Once, ZERO)) && Overtaken(End(r), ConnEvent(Once, ZERO))
  {
    var r := HandedIsReached();
    var r1 := Extend(r, Poll(false, true));
    assert End(r1) == Handed(Events, true);
    var r2 := Extend(r1, TimedClose(ZERO));
    assert Enabled(End(r2), ConnEvent(Once, ZERO)) && Overtaken(End(r2), ConnEvent(Once, ZERO));
  }

  // ---------------------------------------------------------------- the back-off

  function Pow2(n: nat): nat { if n == 0 then 1 else 2 * Pow2(n - 1) }

  /** The step sets a retry timer. */
  ghost predicate Arms(w: World, s: Step)
    requires Usable(w) && Enabled(w, s)
  {
    Next(w, s).retries > w.retries - B2N(s.RetryFires?)
  }

  /** The timers set since the last restart. */
  ghost function Failures(r: Run): nat {
    match r
    case Begin(_) => 0
    case Then(before, s) =>
      var w := End(before);
      if Usable(w) && Enabled(w, s) then (if Restarts(w, s) then 0 else Failures(before)) + B2N(Arms(w, s))
      else Failures(before)
  }

  /** `t` has set a timer, or not, with the delay at `base` and `n` timers before. */
  predicate BackedOff(base: int, n: int, t: World) {
    t.retryDelayMs == if t.retries > n then Min(2 * base, MAX_RETRY_DELAY_MS) else base
  }

  lemma StartBacksOff(w: World, e: Errno)
    ensures BackedOff(w.retryDelayMs, w.retries, w.StartInLoop(e))
  {
  }

  lemma CloseBacksOff(w: World, c: Sock, e: Errno)
    ensures BackedOff(if w.client.retry &&
      w.client.enable then INIT_RETRY_DELAY_MS else w.retryDelayMs, w.retries, w.RemoveConnection(c, e))
  {
  }

  lemma RetryBacksOff(w: World, c: Sock)
    ensures BackedOff(w.retryDelayMs, w.retries, w.Retry(c))
  {
  }

  lemma ChannelEventBacksOff(w: World, p: Probe)
    requires w.channel.Some?
    ensures BackedOff(w.retryDelayMs, w.retries, w.HandleWrite(p))
  {
    RetryBacksOff(w.RemoveAndResetChannel(), w.channel.value.sock);
    EstablishedBacksOff(w.RemoveAndResetChannel(), w.channel.value.sock);
  }

  lemma EstablishedBacksOff(w: World, c: Sock)
    ensures BackedOff(w.retryDelayMs, w.retries, w.Established(c))
  {
  }

  lemma StopBacksOff(w: World)
    requires w.state == Connecting ==> w.channel.Some?
    ensures BackedOff(w.retryDelayMs, w.retries, w.StopInLoop())
  {
  }

  lemma FunctorBacksOff(w: World, f: Functor, e: Errno)
    requires w.state == Connecting ==> w.channel.Some?
    ensures BackedOff(if f.ForceCloseInLoop? && w.client.connection == Some(f.conn) && w.client.retry &&
      w.client.enable then INIT_RETRY_DELAY_MS else w.retryDelayMs,
                      w.retries, w.Run(f, e))
  {
    match f {
      case StartInLoop => StartBacksOff(w, e);
      case StopInLoop => StopBacksOff(w);
      case ForceCloseInLoop(s) => CloseBacksOff(w, s, e);
      case _ =>
    }
  }

  ghost function Base(w: World, s: Step): int
    requires Enabled(w, s)
  {
    if Restarts(w, s) then INIT_RETRY_DELAY_MS else w.retryDelayMs
  }

  lemma StepBacksOff(w: World, s: Step)
    requires Inv(w) && Enabled(w, s)
    ensures BackedOff(Base(w, s), w.retries - B2N(s.RetryFires?), Next(w, s))
  {
    match s {
      case Start(inLoop, e) => StartBacksOff(w.Begun(), e);
      case ChannelEvent(p) => ChannelEventBacksOff(w.ChannelHandled(), p);
      case ConnEvent(how, e) =>
        if how != Not && w.client.connection.Some? { CloseBacksOff(w.ConnHandled(), w.client.connection.value, e); }
      case RetryFires(e) => StartBacksOff(w.(retries := w.retries - 1), e);
      case TimedClose(e) => CloseBacksOff(w, w.client.connection.value, e);
      case RunFunctor(e) => FunctorBacksOff(w.Popped(), w.loop.batch[0], e);
      case _ =>
    }
  }

  /** The delay after `n` timers: 500 ms doubled as often, at most 30 s. */
  function Delay(n: nat): int { Min(INIT_RETRY_DELAY_MS * Pow2(n), MAX_RETRY_DELAY_MS) }

  /** In milliseconds. */
  lemma {:induction false} DelaysInNumbers(n: nat)
    ensures Delay(0) == 500 && Delay(1) == 1000 && Delay(2) == 2000 && Delay(3) == 4000
    ensures Delay(4) == 8000 && Delay(5) == 16000
    ensures n >= 6 ==> Delay(n) == 30000 && Pow2(n) >= 64
  {
    assert Pow2(0) == 1 && Pow2(1) == 2 && Pow2(2) == 4 && Pow2(3) == 8;
    assert Pow2(4) == 16 && Pow2(5) == 32 && Pow2(6) == 64;
    if n > 6 { DelaysInNumbers(n - 1); }
  }

  lemma Doubling(n: nat)
    ensures Min(2 * Delay(n), MAX_RETRY_DELAY_MS) == Delay(n + 1)
  {
  }

  lemma StepDoubles(w: World, s: Step, n: nat)
    requires Inv(w) && Enabled(w, s) && w.retryDelayMs == Delay(n)
    ensures Next(w, s).retryDelayMs == Delay((if Restarts(w, s) then 0 else n) + B2N(Arms(w, s)))
  {
    StepBacksOff(w, s);
    assert Delay(0) == INIT_RETRY_DELAY_MS;
    Doubling(if Restarts(w, s) then 0 else n);
  }

  /** The next delay has doubled with every timer set since the last restart, up to the
      limit. */
  lemma {:induction false} RunBacksOff(r: Run)
    requires IsRun(r)
    ensures End(r).retryDelayMs == Delay(Failures(r))
  {
    if r.Then? {
      RunKeepsInv(r.before);
      RunBacksOff(r.before);
      StepDoubles(End(r.before), r.step, Failures(r.before));
    } else {
      assert Delay(0) == INIT_RETRY_DELAY_MS by { assert Pow2(0) == 1; }
    }
  }

  // ---------------------------------------------------------------- the class

  /** The connector, with the client whose `newConnection` is its callback and the queue of
      their loop. Each `connect` gets its errno from the caller. */
  class Connector {
    var state: State
    var enableConnect: bool
    var retryDelayMs: int
    var channel: Option<Chan>
    const callback: bool
    var started: bool
    var retries: nat
    var clientEnable: bool
    var retry: bool
    var connection: Option<Sock>
    var nextConnId: int
    var phase: Phase
    var pending: seq<Functor>
    var batch: seq<Functor>
    var channelActive: bool
    var connActive: bool
    var nextSock: Sock
    ghost var closed: multiset<Sock>
    ghost var handed: multiset<Sock>

    ghost function View(): World
      reads this
    {
      World(state, enableConnect, retryDelayMs, channel, callback, started, retries,
            Client(clientEnable, retry, connection, nextConnId),
            Loop(phase, pending, batch, channelActive, connActive), Ledger(nextSock, closed, handed))
    }

    constructor (callback: bool)
      ensures View() == Fresh(callback)
    {
      state, enableConnect, retryDelayMs, channel := Disconnected, false, INIT_RETRY_DELAY_MS, None;
      this.callback, started, retries := callback, false, 0;
      clientEnable, retry, connection, nextConnId := true, false, None, 0;
      phase, pending, batch, channelActive, connActive := Events, [], [], false, false;
      nextSock, closed, handed := 0, multiset{}, multiset{};
    }

    method QueueInLoop(f: Functor)
      modifies this`pending
      ensures View() == old(View()).QueueInLoop(f)
    {
      pending := pending + [f];
    }

    method Close(s: Sock)
      modifies this`closed
      ensures View() == old(View()).(ledger := old(View()).ledger.Close(s))
    {
      closed := closed + multiset{s};
    }

    /** `connect`'s errno is `e`. */
    method StartInLoop(e: Errno)
      modifies this`state, this`channel, this`nextSock, this`closed, this`retries, this`retryDelayMs
      ensures View() == old(View()).StartInLoop(e)
    {
      if enableConnect {
        Connect(e);
      }
    }

    method Connect(e: Errno)
      modifies this`state, this`channel, this`nextSock, this`closed, this`retries, this`retryDelayMs
      ensures View() == old(View()).Connect(e)
    {
      var s := nextSock;
      nextSock := nextSock + 1;
      assert View() == old(View()).(ledger := Ledger(s + 1, old(closed), old(handed)));
      if UnderWay(e) {
        ToConnecting(s);
      } else if Passing(e) {
        Retry(s);
      } else {
        Close(s);
      }
    }

    method ToConnecting(s: Sock)
      modifies this`state, this`channel
      ensures View() == old(View()).ToConnecting(s)
    {
      state := Connecting;
      channel := Some(Chan(s, true));
    }

    method Retry(s: Sock)
      modifies this`closed, this`state, this`retries, this`retryDelayMs
      ensures View() == old(View()).Retry(s)
    {
      closed := closed + multiset{s};
      state := Disconnected;
      if enableConnect {
        retries, retryDelayMs := retries + 1, Min(retryDelayMs * 2, MAX_RETRY_DELAY_MS);
      }
    }

    method RemoveAndResetChannel() returns (s: Sock)
      requires channel.Some?
      modifies this
      ensures View() == old(View()).RemoveAndResetChannel() && s == old(channel).value.sock
    {
      channel := Some(channel.value.(watched := false));
      s := channel.value.sock;
      QueueInLoop(ResetChannel);
    }

    method HandleWrite(p: Probe)
      requires channel.Some?
      modifies this
      ensures View() == old(View()).HandleWrite(p)
    {
      if state == Connecting {
        var s := RemoveAndResetChannel();
        if p.error {
          Retry(s);
        } else if p.self {
          Retry(s);
        } else {
          state := Connected;
          if enableConnect {
            if callback { NewConnection(s); }
          } else {
            Close(s);
          }
        }
      }
    }

    /** The client's `newConnection`. */
    method NewConnection(s: Sock)
      modifies this
      ensures View() == old(View()).NewConnection(s)
    {
      nextConnId := nextConnId + 1;
      connection := Some(s);
      handed := handed + multiset{s};
    }

    /** The client's `removeConnection`. */
    method RemoveConnection(s: Sock, e: Errno)
      modifies this
      ensures View() == old(View()).RemoveConnection(s, e)
    {
      connection := None;
      QueueInLoop(ConnectDestroyed(s));
      if retry && clientEnable {
        Restart(e);
      }
    }

    method Restart(e: Errno)
      modifies this
      ensures View() == old(View()).Restart(e)
    {
      state := Disconnected;
      retryDelayMs := INIT_RETRY_DELAY_MS;
      enableConnect := true;
      StartInLoop(e);
    }

    method Start(inLoop: bool, e: Errno)
      requires Inv(View()) && Enabled(View(), Step.Start(inLoop, e))
      modifies this
      ensures View() == Next(old(View()), Step.Start(inLoop, e))
    {
      started := true;
      clientEnable := true;
      enableConnect := true;
      if inLoop {
        StartInLoop(e);
      } else {
        QueueInLoop(Functor.StartInLoop);
      }
    }

    method Stop()
      requires Inv(View())
      modifies this
      ensures View() == Next(old(View()), Step.Stop)
    {
      enableConnect := false;
      QueueInLoop(Functor.StopInLoop);
    }

    method StopInLoop()
      requires state == Connecting ==> channel.Some?
      modifies this
      ensures View() == old(View()).StopInLoop()
    {
      if state == Connecting {
        state := Disconnected;
        var s := RemoveAndResetChannel();
        Retry(s);
      }
    }

    method ForceCloseInLoop(s: Sock, e: Errno)
      modifies this
      ensures View() == if old(connection) == Some(s) then old(View()).RemoveConnection(s, e) else old(View())
    {
      if connection == Some(s) {
        RemoveConnection(s, e);
      }
    }

    method Run(f: Functor, e: Errno)
      requires state == Connecting ==> channel.Some?
      modifies this
      ensures View() == old(View()).Run(f, e)
    {
      match f {
        case StartInLoop => StartInLoop(e);
        case StopInLoop => StopInLoop();
        case ResetChannel => channel := None;
        case ForceCloseInLoop(s) => ForceCloseInLoop(s, e);
        case ConnectDestroyed(_) =>
      }
    }

    method RunFunctor(e: Errno)
      requires Inv(View()) && Enabled(View(), Step.RunFunctor(e))
      modifies this
      ensures View() == Next(old(View()), Step.RunFunctor(e))
    {
      var f := batch[0];
      batch := batch[1..];
      Run(f, e);
    }

    /** The functors queued when the events were done, each with the errno of the attempt
        it may start: each finds what it asserts, and every socket stays owned once. */
    method RunFunctors(errno: nat -> Errno)
      requires Inv(View()) && phase == Functors
      modifies this
      ensures Inv(View()) && phase == Functors
      ensures batch == []
      ensures Linear(old(View())) ==> Linear(View())
    {
      var n := 0;
      while batch != []
        invariant Inv(View()) && phase == Functors
        invariant Linear(old(View())) ==> Linear(View())
        decreases |batch|
      {
        ghost var w := View();
        var e := errno(n);
        FunctorKeeps(w, e);
        if Linear(w) { FunctorIsLinear(w, e); }
        assert Next(w, Step.RunFunctor(e)).loop.phase == Functors;
        RunFunctor(e);
        n := n + 1;
      }
    }
  }
}
