/** The server's connections and the epoll pollers of their loops, together: what
    net/TcpServer.cpp and net/TcpConnection.cpp call on net/poller/EpollPoller.cpp.

    The server's own model keeps of a connection's channel whether it is watched and where
    its poller has it. Here every loop has its whole poller, with the kernel's table, and
    with the channels it has besides: those of the loop's wakeup, of its timers, of the
    acceptor. Channels are objects at addresses that may be used again once they are gone. */
module ServerPollers {
  import opened Channels
  import E = EpollPollers
  import T = TcpServers

  type ConnId = T.ConnId
  type LoopId = T.LoopId

  /** The poller of each loop, and the address of each connection's channel. */
  datatype Pollers = Pollers(of: map<LoopId, E.EpollState>, at: map<ConnId, Ptr>)

  /** Poller `s` has at `p` the channel of connection `k`, and has its descriptor for no other
      channel. A watched connection is watched for reading, and may be for writing. */
  ghost predicate Mirrors(k: T.Conn, s: E.EpollState, p: Ptr) {
    && p in s.chan
    && s.chan[p].fd == k.fd && s.chan[p].status == k.status
    && (if k.watched then Reads(s.chan[p].events) else s.chan[p].events == NONE_EVENT)
    && (s.chan[p].fd in s.channels ==> s.channels[s.chan[p].fd] == p)
  }

  ghost predicate MirroredAt(w: T.World, ps: Pollers, c: ConnId)
    requires c in w.conns
  {
    var l := w.conns[c].loop;
    l in ps.of && c in ps.at && Mirrors(w.conns[c], ps.of[l], ps.at[c])
  }

  ghost predicate Apart(w: T.World, ps: Pollers, c: ConnId, d: ConnId)
    requires c in w.conns && d in w.conns
  {
    c != d ==> w.conns[c].fd != w.conns[d].fd && (c in ps.at && d in ps.at ==> ps.at[c] != ps.at[d])
  }

  ghost predicate PollerOk(ps: Pollers, l: LoopId)
    requires l in ps.of
  {
    ps.of[l].Inv()
  }

  ghost predicate Agree(w: T.World, ps: Pollers) {
    && ps.of.Keys == w.channels.Keys
    && (forall l {:trigger PollerOk(ps, l)} :: l in ps.of ==> PollerOk(ps, l))
    && (forall c {:trigger MirroredAt(w, ps, c)} :: c in w.conns ==> MirroredAt(w, ps, c))
    && (forall c, d {:trigger Apart(w, ps, c, d)} :: c in w.conns && d in w.conns ==> Apart(w, ps, c, d))
  }

  // ---------------------------------------------------------------- what a step of the server calls

  /** What is done with the channel of a connection. */
  datatype How = Watch | Unwatch | Remove

  datatype Call =
    | Nothing
    /** A new channel, which the base loop registers at once. */
    | New(c: ConnId)
    | Do(c: ConnId, how: How)
    | Gone(c: ConnId)

  ghost function CallOf(w: T.World, s: T.Step): Call
    requires T.Enabled(w, s)
  {
    match s
    case Accept(l, fd) => New(w.nextConnId)
    case RunFront(l) =>
      (match w.queues[l][0]
       case Establish(c) => Do(c, Watch)
       case RemoveInLoop(_) => Nothing
       case Destroy(c) => Do(c, Remove)
       case ForceCloseInLoop(c) => if c in w.conns && w.conns[c].Open() then Do(c, Unwatch) else Nothing)
    case Event(c, r, eof) => if T.EventCloses(r, eof) then Do(c, Unwatch) else Nothing
    case TimerFires(c) => if c in w.conns && w.conns[c].Open() then Do(c, Unwatch) else Nothing
    case Delete(c) => Gone(c)
    case _ => Nothing
  }

  ghost predicate SameChannel(j: T.Conn, k: T.Conn) {
    j.loop == k.loop && j.fd == k.fd && j.status == k.status && j.watched == k.watched
  }

  ghost predicate OthersSame(w: T.World, t: T.World, c: ConnId) {
    forall d :: d in w.conns && d != c ==> d in t.conns && SameChannel(w.conns[d], t.conns[d])
  }

  ghost predicate ChangedBy(j: T.Conn, k: T.Conn, how: How) {
    && k.loop == j.loop && k.fd == j.fd
    && match how
       case Watch => j.status == Init && k.status == Added && k.watched
       case Unwatch => j.status == Added && k.status == Deleted && !k.watched
       case Remove => j.status != Init && !j.watched && k.status == Init && !k.watched
  }

  /** From `w` to `t` the calls happen, and no other. */
  ghost predicate Follows(w: T.World, t: T.World, call: Call) {
    && t.channels.Keys == w.channels.Keys
    && match call
       case Nothing =>
         t.conns.Keys == w.conns.Keys && forall d :: d in w.conns ==> SameChannel(w.conns[d], t.conns[d])
       case New(c) =>
         && c !in w.conns && t.conns.Keys == w.conns.Keys + {c} && OthersSame(w, t, c)
         && t.conns[c].loop in w.channels && t.conns[c].watched == (t.conns[c].loop == T.BASE)
         && t.conns[c].status == (if t.conns[c].watched then Added else Init)
       case Gone(c) =>
         c in w.conns && t.conns.Keys == w.conns.Keys - {c} && OthersSame(w, t, c) && w.conns[c].status == Init
       case Do(c, how) =>
         && c in w.conns && t.conns.Keys == w.conns.Keys && OthersSame(w, t, c)
         && ChangedBy(w.conns[c], t.conns[c], how)
  }

  lemma FrontFollows(w: T.World, l: LoopId)
    requires T.Inv(w) && T.Enabled(w, T.RunFront(l))
    ensures Follows(w, T.Next(w, T.RunFront(l)), CallOf(w, T.RunFront(l)))
  {
    T.FrontIsDue(w, l);
  }

  lemma CloseFollows(w: T.World, c: ConnId)
    requires w.Known(c) && T.BASE in w.queues && T.ConnOk(w, c) && w.conns[c].Open()
    ensures Follows(w, w.HandleClose(c), Do(c, Unwatch))
  {
  }

  lemma EventFollows(w: T.World, c: ConnId, r: Mask, eof: bool)
    requires T.Inv(w) && T.Enabled(w, T.Event(c, r, eof)) && T.Asserts(w, T.Event(c, r, eof))
    ensures Follows(w, T.Next(w, T.Event(c, r, eof)), CallOf(w, T.Event(c, r, eof)))
  {
    T.EventKeeps(w, c, r, eof);
    assert T.ConnOk(w, c) && T.ConnOk(w.Taken(c), c);
    if T.EventCloses(r, eof) { CloseFollows(w.Taken(c), c); }
  }

  lemma TimerFollows(w: T.World, c: ConnId)
    requires T.Inv(w) && T.Enabled(w, T.TimerFires(c))
    ensures Follows(w, T.Next(w, T.TimerFires(c)), CallOf(w, T.TimerFires(c)))
  {
    var v := w.(timers := w.timers - multiset{c});
    assert T.ConnOk(w, c) && T.ConnOk(v, c);
    if w.conns[c].Open() { CloseFollows(v, c); }
  }

  lemma AcceptFollows(w: T.World, l: LoopId, fd: int)
    requires T.Inv(w) && T.Enabled(w, T.Accept(l, fd))
    ensures Follows(w, T.Next(w, T.Accept(l, fd)), CallOf(w, T.Accept(l, fd)))
  {
    forall d | d in w.conns ensures d < w.nextConnId { assert T.ConnOk(w, d); }
  }

  lemma DeleteFollows(w: T.World, c: ConnId)
    requires T.Inv(w) && T.Enabled(w, T.Delete(c))
    ensures Follows(w, T.Next(w, T.Delete(c)), CallOf(w, T.Delete(c)))
  {
    T.DeleteKeeps(w, c);
    assert T.ConnOk(w, c);
  }

  lemma StepFollows(w: T.World, s: T.Step)
    requires T.Inv(w) && T.Enabled(w, s) && T.Asserts(w, s)
    ensures Follows(w, T.Next(w, s), CallOf(w, s))
  {
    match s {
      case RunFront(l) => FrontFollows(w, l);
      case Accept(l, fd) => AcceptFollows(w, l, fd);
      case Event(c, r, eof) => EventFollows(w, c, r, eof);
      case TimerFires(c) => TimerFollows(w, c);
      case Delete(c) => DeleteFollows(w, c);
      case _ =>
    }
  }

  // ---------------------------------------------------------------- the pollers' side

  ghost function Done(s: E.EpollState, p: Ptr, how: How): E.EpollState
    requires p in s.chan
  {
    match how
    case Watch => s.Change(p, EnableRead)
    case Unwatch => s.Change(p, DisableAll)
    case Remove => s.Remove(p)
  }

  /** What the poller asserts. */
  ghost predicate Passes(s: E.EpollState, p: Ptr, how: How)
    requires p in s.chan
  {
    if how == Remove then s.RemoveAsserts(p) else s.UpdateAsserts(p)
  }

  /** A new channel of descriptor `fd` at `p`. */
  ghost function Created(s: E.EpollState, p: Ptr, fd: nat, watch: bool): E.EpollState {
    if watch then s.New(p, fd).Change(p, EnableRead) else s.New(p, fd)
  }

  /** Beside `p` and `fd` the poller has what it had. */
  ghost predicate OnlyTouches(s: E.EpollState, t: E.EpollState, p: Ptr, fd: int) {
    && (forall q :: q in s.chan && q != p ==> q in t.chan && t.chan[q] == s.chan[q])
    && (forall g: nat :: g != fd && g in t.channels ==> g in s.channels && t.channels[g] == s.channels[g])
  }

  lemma OthersKeep(k: T.Conn, s: E.EpollState, t: E.EpollState, q: Ptr, p: Ptr, fd: int)
    requires Mirrors(k, s, q) && q != p && k.fd != fd && OnlyTouches(s, t, p, fd)
    ensures Mirrors(k, t, q)
  {
  }

  /** One call on the poller: it passes the asserts, and is legal for the kernel. */
  lemma DoneMirrors(j: T.Conn, k: T.Conn, s: E.EpollState, p: Ptr, how: How)
    requires s.Inv() && Mirrors(j, s, p) && ChangedBy(j, k, how)
    ensures Passes(s, p, how)
    ensures var t := Done(s, p, how); t.Inv() && Mirrors(k, t, p) && OnlyTouches(s, t, p, j.fd)
  {
    assert s.Registered(p) <==> s.chan[p].status != Init;
    ChangesAreIndependent(s.chan[p].events);
    match how {
      case Watch => E.ChangeKeepsInv(s, p, EnableRead); E.ChangeResult(s, p, EnableRead);
      case Unwatch => E.ChangeKeepsInv(s, p, DisableAll); E.ChangeResult(s, p, DisableAll);
      case Remove => E.RemoveKeepsInv(s, p);
    }
  }

  lemma CreatedMirrors(k: T.Conn, s: E.EpollState, p: Ptr, fd: nat, watch: bool)
    requires s.Inv() && p !in s.chan && fd !in s.channels && k.fd == fd && k.watched == watch
    requires k.status == if watch then Added else Init
    ensures var t := Created(s, p, fd, watch); t.Inv() && Mirrors(k, t, p) && OnlyTouches(s, t, p, fd)
  {
    E.NewKeepsInv(s, p, fd);
    if watch {
      ChangesAreIndependent(NONE_EVENT);
      E.ChangeKeepsInv(s.New(p, fd), p, EnableRead);
      E.ChangeResult(s.New(p, fd), p, EnableRead);
    }
  }

  /** The write interest of an open connection. */
  lemma InterestMirrors(k: T.Conn, s: E.EpollState, p: Ptr, change: Change)
    requires s.Inv() && Mirrors(k, s, p) && k.watched && k.status == Added
    requires change == EnableWrite || change == DisableWrite
    ensures s.UpdateAsserts(p)
    ensures var t := s.Change(p, change); t.Inv() && Mirrors(k, t, p) && OnlyTouches(s, t, p, k.fd)
  {
    assert s.Registered(p) <==> s.chan[p].status != Init;
    ChangesAreIndependent(s.chan[p].events);
    E.ChangeKeepsInv(s, p, change);
    E.ChangeResult(s, p, change);
  }

  // ---------------------------------------------------------------- runs of both

  datatype Both = Both(w: T.World, ps: Pollers)

  datatype Move =
    /** A step of the server, with the address of the channel it may create. */
    | Server(step: T.Step, p: Ptr)
    /** A connection wants to write, or no longer. */
    | WriteInterest(c: ConnId, change: Change)
    /** A call for a channel of the loop that is not a connection's. */
    | Foreign(l: LoopId, call: Channels.Call)

  /** A poller's other channels keep off the connections' channels and descriptors. */
  ghost predicate KeepsOff(b: Both, l: LoopId, call: Channels.Call)
    requires l in b.ps.of
  {
    forall c :: c in b.w.conns ==>
      && (c in b.ps.at ==> b.ps.at[c] != call.p)
      && (call.Interest? && call.p in b.ps.of[l].chan ==> b.ps.of[l].chan[call.p].fd != b.w.conns[c].fd)
  }

  /** A new connection's channel is at an address not in use, its descriptor is a number no
      registered channel has. */
  ghost predicate Enabled(b: Both, m: Move) {
    match m
    case Server(s, p) =>
      && T.Enabled(b.w, s) && T.BASE in b.w.queues && T.Asserts(b.w, s)
      && (s.Accept? ==>
          && s.l in b.ps.of && s.fd >= 0 && s.fd !in b.ps.of[s.l].channels
          && p !in b.ps.of[s.l].chan && forall c :: c in b.ps.at ==> b.ps.at[c] != p)
    case WriteInterest(c, change) =>
      c in b.w.conns && b.w.conns[c].Open() && (change == EnableWrite || change == DisableWrite)
    case Foreign(l, call) => l in b.ps.of && E.Legal(b.ps.of[l], call) && KeepsOff(b, l, call)
  }

  ghost function Called(b: Both, t: T.World, call: Call, p: Ptr): Pollers
    requires Agree(b.w, b.ps) && Follows(b.w, t, call)
    requires call.New? ==> t.conns[call.c].fd >= 0
  {
    var ps := b.ps;
    match call
    case Nothing => ps
    case New(c) =>
      var k := t.conns[c];
      Pollers(ps.of[k.loop := Created(ps.of[k.loop], p, k.fd, k.watched)], ps.at[c := p])
    case Do(c, how) =>
      assert MirroredAt(b.w, ps, c);
      var l := b.w.conns[c].loop;
      ps.(of := ps.of[l := Done(ps.of[l], ps.at[c], how)])
    case Gone(c) =>
      assert MirroredAt(b.w, ps, c);
      var l := b.w.conns[c].loop;
      Pollers(ps.of[l := ps.of[l].Gone(ps.at[c])], ps.at - {c})
  }

  /** No assert of a poller fails in the move. */
  ghost predicate PollerPasses(b: Both, m: Move)
    requires T.Inv(b.w) && Agree(b.w, b.ps) && Enabled(b, m)
  {
    match m
    case Server(s, p) =>
      var call := CallOf(b.w, s);
      call.Do? && call.c in b.w.conns ==>
        && MirroredAt(b.w, b.ps, call.c)
        && Passes(b.ps.of[b.w.conns[call.c].loop], b.ps.at[call.c], call.how)
    case WriteInterest(c, _) =>
      MirroredAt(b.w, b.ps, c) && b.ps.of[b.w.conns[c].loop].UpdateAsserts(b.ps.at[c])
    case Foreign(l, call) => E.Asserts(b.ps.of[l], call)
  }

  ghost function Next(b: Both, m: Move): Both
    requires T.Inv(b.w) && Agree(b.w, b.ps) && Enabled(b, m)
  {
    match m
    case Server(s, p) =>
      StepFollows(b.w, s);
      var t := T.Next(b.w, s);
      assert s.Accept? ==> t.conns[b.w.nextConnId].fd == s.fd;
      Both(t, Called(b, t, CallOf(b.w, s), p))
    case WriteInterest(c, change) =>
      assert MirroredAt(b.w, b.ps, c);
      var l := b.w.conns[c].loop;
      b.(ps := b.ps.(of := b.ps.of[l := b.ps.of[l].Change(b.ps.at[c], change)]))
    case Foreign(l, call) => b.(ps := b.ps.(of := b.ps.of[l := E.Next(b.ps.of[l], call)]))
  }

  // ---------------------------------------------------------------- the proof

  /** Only the poller of loop `l` moves, and only at `p` and `fd`, which are nobody's but
      connection `c`'s: it is enough to look at `c`. */
  ghost predicate Local(w: T.World, t: T.World, ps: Pollers, qs: Pollers, l: LoopId, p: Ptr, fd: int, c: ConnId) {
    && t.channels.Keys == w.channels.Keys && l in ps.of
    && qs.of.Keys == ps.of.Keys && (forall m :: m in ps.of && m != l ==> qs.of[m] == ps.of[m])
    && qs.of[l].Inv() && OnlyTouches(ps.of[l], qs.of[l], p, fd)
    && (forall d :: d in t.conns && d != c ==>
        && d in w.conns && SameChannel(w.conns[d], t.conns[d])
        && d in ps.at && d in qs.at && qs.at[d] == ps.at[d]
        && (w.conns[d].loop == l ==> ps.at[d] != p && w.conns[d].fd != fd))
  }

  lemma LocalAgrees(w: T.World, t: T.World, ps: Pollers, qs: Pollers, l: LoopId, p: Ptr, fd: int, c: ConnId)
    requires Agree(w, ps) && Local(w, t, ps, qs, l, p, fd, c)
    requires c in t.conns ==>
      && MirroredAt(t, qs, c)
      && forall d :: d in t.conns && d != c ==> t.conns[d].fd != t.conns[c].fd && qs.at[d] != qs.at[c]
    ensures Agree(t, qs)
  {
    forall m | m in qs.of ensures PollerOk(qs, m) {
      if m != l { assert PollerOk(ps, m); }
    }
    forall d | d in t.conns ensures MirroredAt(t, qs, d) {
      if d != c {
        assert MirroredAt(w, ps, d);
        if t.conns[d].loop == l { OthersKeep(w.conns[d], ps.of[l], qs.of[l], ps.at[d], p, fd); }
      }
    }
    forall d, e | d in t.conns && e in t.conns ensures Apart(t, qs, d, e) {
      if d != c && e != c { assert Apart(w, ps, d, e); }
    }
  }

  lemma NothingAgrees(w: T.World, t: T.World, ps: Pollers)
    requires Agree(w, ps) && Follows(w, t, Nothing)
    ensures Agree(t, ps)
  {
    forall m | m in ps.of ensures PollerOk(ps, m) { }
    forall d | d in t.conns ensures MirroredAt(t, ps, d) { assert MirroredAt(w, ps, d); }
    forall d, e | d in t.conns && e in t.conns ensures Apart(t, ps, d, e) { assert Apart(w, ps, d, e); }
  }

  /** The connections other than `c` are elsewhere. */
  lemma Elsewhere(w: T.World, ps: Pollers, c: ConnId)
    requires Agree(w, ps) && c in w.conns
    ensures MirroredAt(w, ps, c) && PollerOk(ps, w.conns[c].loop)
    ensures forall d :: d in w.conns ==> d in ps.at
    ensures forall d :: d in w.conns && d != c ==> w.conns[d].fd != w.conns[c].fd && ps.at[d] != ps.at[c]
  {
    assert MirroredAt(w, ps, c);
    forall d | d in w.conns ensures d in ps.at { assert MirroredAt(w, ps, d); }
    forall d | d in w.conns && d != c ensures w.conns[d].fd != w.conns[c].fd && ps.at[d] != ps.at[c] {
      assert Apart(w, ps, d, c) && MirroredAt(w, ps, d);
    }
  }

  lemma DoAgrees(b: Both, t: T.World, c: ConnId, how: How, p: Ptr)
    requires Agree(b.w, b.ps) && Follows(b.w, t, Do(c, how))
    ensures MirroredAt(b.w, b.ps, c) && Passes(b.ps.of[b.w.conns[c].loop], b.ps.at[c], how)
    ensures Agree(t, Called(b, t, Do(c, how), p))
  {
    Elsewhere(b.w, b.ps, c);
    var k, l := b.w.conns[c], b.w.conns[c].loop;
    DoneMirrors(k, t.conns[c], b.ps.of[l], b.ps.at[c], how);
    LocalAgrees(b.w, t, b.ps, Called(b, t, Do(c, how), p), l, b.ps.at[c], k.fd, c);
  }

  lemma NewAgrees(b: Both, t: T.World, c: ConnId, p: Ptr)
    requires Agree(b.w, b.ps) && Follows(b.w, t, New(c)) && t.conns[c].fd >= 0
    requires forall d :: d in b.w.conns ==> b.w.conns[d].fd != t.conns[c].fd
    requires var s := b.ps.of[t.conns[c].loop]; p !in s.chan && t.conns[c].fd !in s.channels
    requires forall d :: d in b.ps.at ==> b.ps.at[d] != p
    ensures Agree(t, Called(b, t, New(c), p))
  {
    var k, l := t.conns[c], t.conns[c].loop;
    assert PollerOk(b.ps, l);
    forall d | d in b.w.conns ensures d in b.ps.at { assert MirroredAt(b.w, b.ps, d); }
    CreatedMirrors(k, b.ps.of[l], p, k.fd, k.watched);
    LocalAgrees(b.w, t, b.ps, Called(b, t, New(c), p), l, p, k.fd, c);
  }

  lemma GoneAgrees(b: Both, t: T.World, c: ConnId, p: Ptr)
    requires Agree(b.w, b.ps) && Follows(b.w, t, Gone(c))
    ensures Agree(t, Called(b, t, Gone(c), p))
  {
    Elsewhere(b.w, b.ps, c);
    var k, l := b.w.conns[c], b.w.conns[c].loop;
    E.GoneKeepsInv(b.ps.of[l], b.ps.at[c]);
    LocalAgrees(b.w, t, b.ps, Called(b, t, Gone(c), p), l, b.ps.at[c], k.fd, c);
  }

  lemma ServerAgrees(b: Both, s: T.Step, p: Ptr)
    requires T.Inv(b.w) && Agree(b.w, b.ps) && Enabled(b, Server(s, p))
    ensures PollerPasses(b, Server(s, p))
    ensures T.Inv(Next(b, Server(s, p)).w) && Agree(Next(b, Server(s, p)).w, Next(b, Server(s, p)).ps)
  {
    StepFollows(b.w, s);
    T.StepKeepsInv(b.w, s);
    var t := T.Next(b.w, s);
    match CallOf(b.w, s) {
      case Nothing => NothingAgrees(b.w, t, b.ps);
      case New(c) => AcceptAgrees(b, s.l, s.fd, p);
      case Do(c, how) => DoAgrees(b, t, c, how, p);
      case Gone(c) => GoneAgrees(b, t, c, p);
    }
  }

  lemma AcceptAgrees(b: Both, l: LoopId, fd: int, p: Ptr)
    requires T.Inv(b.w) && Agree(b.w, b.ps) && Enabled(b, Server(T.Accept(l, fd), p))
    ensures var t := T.Next(b.w, T.Accept(l, fd));
      && Follows(b.w, t, New(b.w.nextConnId)) && t.conns[b.w.nextConnId].fd >= 0
      && Agree(t, Called(b, t, New(b.w.nextConnId), p))
  {
    var t, c := T.Next(b.w, T.Accept(l, fd)), b.w.nextConnId;
    AcceptFollows(b.w, l, fd);
    assert t.conns[c].fd == fd && t.conns[c].loop == l;
    NewAgrees(b, t, c, p);
  }

  lemma InterestAgrees(b: Both, c: ConnId, change: Change)
    requires T.Inv(b.w) && Agree(b.w, b.ps) && Enabled(b, WriteInterest(c, change))
    ensures PollerPasses(b, WriteInterest(c, change))
    ensures Agree(b.w, Next(b, WriteInterest(c, change)).ps)
  {
    Elsewhere(b.w, b.ps, c);
    assert T.ConnOk(b.w, c);
    var k, l := b.w.conns[c], b.w.conns[c].loop;
    InterestMirrors(k, b.ps.of[l], b.ps.at[c], change);
    LocalAgrees(b.w, b.w, b.ps, Next(b, WriteInterest(c, change)).ps, l, b.ps.at[c], k.fd, c);
  }

  lemma ForeignTouches(s: E.EpollState, call: Channels.Call) returns (fd: int)
    requires s.Inv() && E.Legal(s, call)
    ensures E.Asserts(s, call) && E.Next(s, call).Inv() && OnlyTouches(s, E.Next(s, call), call.p, fd)
    ensures fd == if call.Interest? then s.chan[call.p].fd else -1
  {
    fd := if call.Interest? then s.chan[call.p].fd else -1;
    match call {
      case Create(p, g) => E.NewKeepsInv(s, p, g);
      case Interest(p, change) =>
        assert s.Registered(p) <==> s.chan[p].status != Init;
        E.ChangeKeepsInv(s, p, change);
        E.ChangeResult(s, p, change);
      case Drop(p) =>
        assert s.Registered(p) <==> s.chan[p].status != Init;
        E.RemoveKeepsInv(s, p);
    }
  }

  lemma ForeignAgrees(b: Both, l: LoopId, call: Channels.Call)
    requires T.Inv(b.w) && Agree(b.w, b.ps) && Enabled(b, Foreign(l, call))
    ensures PollerPasses(b, Foreign(l, call))
    ensures Agree(b.w, Next(b, Foreign(l, call)).ps)
  {
    assert PollerOk(b.ps, l);
    var fd := ForeignTouches(b.ps.of[l], call);
    forall d | d in b.w.conns ensures d != 0 && d in b.ps.at && b.w.conns[d].fd >= 0 {
      assert T.ConnOk(b.w, d) && MirroredAt(b.w, b.ps, d);
    }
    LocalAgrees(b.w, b.w, b.ps, Next(b, Foreign(l, call)).ps, l, call.p, fd, 0);
  }

  lemma MoveAgrees(b: Both, m: Move)
    requires T.Inv(b.w) && Agree(b.w, b.ps) && Enabled(b, m)
    ensures PollerPasses(b, m)
    ensures T.Inv(Next(b, m).w) && Agree(Next(b, m).w, Next(b, m).ps)
  {
    match m {
      case Server(s, p) => ServerAgrees(b, s, p);
      case WriteInterest(c, change) => InterestAgrees(b, c, change);
      case Foreign(l, call) => ForeignAgrees(b, l, call);
    }
  }

  // ---------------------------------------------------------------- whole runs

  datatype Run = Begin(loops: set<LoopId>) | Then(before: Run, move: Move)

  ghost predicate IsRun(r: Run) {
    match r
    case Begin(loops) => T.BASE in loops
    case Then(before, m) => IsRun(before) && Enabled(End(before), m)
  }

  ghost predicate Sound(b: Both) { T.Inv(b.w) && Agree(b.w, b.ps) }

  ghost function End(r: Run): Both {
    match r
    case Begin(loops) =>
      Both(T.Fresh(loops), Pollers(map l | l in loops :: E.EpollState(map[], map[], map[], 0), map[]))
    case Then(before, m) => if Sound(End(before)) && Enabled(End(before), m) then Next(End(before), m) else End(before)
  }

  /** Along every run of the server with its pollers, whatever other channels the loops have:
      every poller has its connections' channels as the server's model says, and no call
      fails a poller's assert or is refused by the kernel. */
  lemma {:induction false} RunAgrees(r: Run)
    requires IsRun(r)
    ensures Sound(End(r))
    ensures r.Then? ==> Sound(End(r.before)) && PollerPasses(End(r.before), r.move)
  {
    if r.Then? {
      RunAgrees(r.before);
      MoveAgrees(End(r.before), r.move);
    } else {
      assert T.Inv(T.Fresh(r.loops)) by {
        assert T.IsRun(T.Begin(r.loops));
        T.RunKeepsInv(T.Begin(r.loops));
      }
    }
  }

  /** What the kernel of the connection's loop has for its descriptor. */
  ghost predicate WatchedByKernel(b: Both, c: ConnId)
    requires c in b.w.conns && b.w.conns[c].loop in b.ps.of && c in b.ps.at
  {
    var s, fd := b.ps.of[b.w.conns[c].loop], b.w.conns[c].fd;
    fd >= 0 && fd in s.kernel && s.kernel[fd as nat].ptr == b.ps.at[c] && Reads(s.kernel[fd as nat].mask)
  }

  /** The kernel can report a connection exactly while it is open: from its establishment to
      its close its loop's kernel watches it for reading, with the pointer to its channel;
      before and after, the kernel does not have its descriptor. */
  lemma {:induction false} KernelWatchesTheOpen(r: Run, c: ConnId)
    requires IsRun(r)
    ensures var b := End(r); c in b.w.conns ==>
      && b.w.conns[c].loop in b.ps.of && c in b.ps.at
      && (if b.w.conns[c].Open() then WatchedByKernel(b, c) else b.w.conns[c].fd !in b.ps.of[b.w.conns[c].loop].kernel)
  {
    RunAgrees(r);
    var b := End(r);
    if c in b.w.conns {
      Elsewhere(b.w, b.ps, c);
      assert T.ConnOk(b.w, c);
      OpenIffWatched(b, c);
    }
  }

  lemma OpenIffWatched(b: Both, c: ConnId)
    requires Agree(b.w, b.ps) && c in b.w.conns && MirroredAt(b.w, b.ps, c) && T.ConnOk(b.w, c)
    ensures if b.w.conns[c].Open() then WatchedByKernel(b, c) else b.w.conns[c].fd !in b.ps.of[b.w.conns[c].loop].kernel
  {
    var k := b.w.conns[c];
    var s, p := b.ps.of[k.loop], b.ps.at[c];
    assert PollerOk(b.ps, k.loop);
    assert s.Registered(p) <==> s.chan[p].status != Init;
    if s.chan[p].fd in s.channels { assert s.RowOk(s.chan[p].fd, {}); }
  }
}
