/** The output path of net/TcpConnection.cpp: direct and deferred writes, write interest,
    half-close, forced close and the high-water mark.

    `Conn` is the connection as a value, together with what its socket has been given:
    `wire` holds the bytes written so far and `shutdowns` counts SHUT_WR. `accepted` is
    the history of the bytes the in-loop sends took responsibility for. */
module TcpConnections {
  import B = Buffers
  import opened Channels

  type Byte = B.Byte

  datatype State = Connecting | Connected | Disconnecting | Disconnected

  datatype Errno = EWOULDBLOCK | EPIPE | ECONNRESET | OtherErrno

  /** The answer of write(2). */
  datatype WriteResult = Wrote(n: nat) | Failed(errno: Errno) {
    predicate FitsIn(len: nat) { Wrote? ==> n <= len }

    /** The peer is gone: the data is dropped. */
    predicate PeerGone() { Failed? && errno in {EPIPE, ECONNRESET} }

    function Value(): int { if Wrote? then n else -1 }
  }

  /** What is queued on the connection's loop: the user's callbacks and the connection's
      own work. `send` and `shutdown` post theirs when another thread calls them. */
  datatype Functor =
    | WriteComplete
    | HighWater(len: nat)
    | PendingForceClose
    | PendingSend(data: seq<Byte>)
    | PendingShutdown

  datatype Config = Config(highWaterMark: nat, highWaterSet: bool, writeCompleteSet: bool)

  /** The `remaining` bytes found at `data + nWrote`. For nWrote = -1 they start one byte
      early, at the byte `before` that happens to precede the data in memory. */
  function Tail(data: seq<Byte>, nWrote: int, before: Byte): (t: seq<Byte>)
    requires -1 <= nWrote <= |data|
    ensures |t| == if nWrote < 0 then |data| else |data| - nWrote
  {
    if nWrote >= 0 then data[nWrote..] else ([before] + data)[..|data|]
  }

  /** `queued` is all that was ever queued, of which the loop has run the first `taken`. */
  datatype Conn = Conn(state: State, out: seq<Byte>, mask: Mask, wire: seq<Byte>, shutdowns: nat,
                       accepted: seq<Byte>, asked: bool, queued: seq<Functor>, taken: nat)
  {
    predicate Direct() { !Writes(mask) && out == [] }

    function Queue(f: Functor): Conn { this.(queued := queued + [f]) }

    /** What could not be written at once goes to the output buffer. */
    function Defer(cfg: Config, tail: seq<Byte>): Conn {
      var crossed := |out| + |tail| >= cfg.highWaterMark && |out| < cfg.highWaterMark;
      var c := if crossed && cfg.highWaterSet then Queue(HighWater(|out| + |tail|)) else this;
      c.(out := out + tail, mask := Changed(mask, EnableWrite))
    }

    /** `taken` is the connection that has accepted the data and called write(2). */
    function SendDirect(cfg: Config, data: seq<Byte>, before: Byte, r: WriteResult): Conn
      requires r.FitsIn(|data|)
    {
      var taken := this.(accepted := accepted + data, wire := wire + if r.Wrote? then data[..r.n] else []);
      var tail := Tail(data, r.Value(), before);
      if tail != [] then taken.Defer(cfg, tail)
      else if r.Wrote? && cfg.writeCompleteSet then taken.Queue(WriteComplete)
      else taken
    }

    function SendInLoop(cfg: Config, data: seq<Byte>, before: Byte, r: WriteResult): Conn
      requires r.FitsIn(|data|)
    {
      if state == Disconnected then this
      else if !Direct() then
        if data == [] then this else this.(accepted := accepted + data).Defer(cfg, data)
      else if r.PeerGone() then this
      else SendDirect(cfg, data, before, r)
    }

    function Send(cfg: Config, data: seq<Byte>, before: Byte, r: WriteResult): Conn
      requires r.FitsIn(|data|)
    {
      if state == Connected then SendInLoop(cfg, data, before, r) else this
    }

    /** `send` from another thread. */
    function PostSend(data: seq<Byte>): Conn {
      if state == Connected then Queue(PendingSend(data)) else this
    }

    function ShutdownInLoop(): Conn {
      if !Writes(mask) then this.(shutdowns := shutdowns + 1) else this
    }

    function Shutdown(): Conn {
      if state == Connected then this.(state := Disconnecting, asked := true).ShutdownInLoop() else this
    }

    /** `shutdown` from another thread. */
    function PostShutdown(): Conn {
      if state == Connected then this.(state := Disconnecting, asked := true).Queue(PendingShutdown) else this
    }

    function HandleWrite(cfg: Config, r: WriteResult): Conn
      requires r.FitsIn(|out|)
    {
      if !Writes(mask) || r.Value() <= 0 then this
      else
        var c := this.(wire := wire + out[..r.n], out := out[r.n..]);
        if c.out != [] then c
        else
          var d := c.(mask := Changed(mask, DisableWrite));
          var e := if cfg.writeCompleteSet then d.Queue(WriteComplete) else d;
          if state == Disconnecting then e.ShutdownInLoop() else e
    }

    predicate Open() { state == Connected || state == Disconnecting }

    function HandleClose(): Conn
      requires Open()
    {
      this.(state := Disconnected, mask := Changed(mask, DisableAll))
    }

    /** The event closes the connection, which is open, and does so once. */
    predicate ClosesOnce(r: Mask, eof: bool) {
      Open() && !(CloseEvent(r) && ReadEvent(r) && eof)
    }

    /** An event of the channel; `eof` says that its read finds the end of the stream, and
        `w` is what its write answers. Reading bytes does not concern the output. */
    function HandleEvent(cfg: Config, r: Mask, eof: bool, w: WriteResult): Conn
      requires w.FitsIn(|out|)
      requires CloseEvent(r) || (ReadEvent(r) && eof) ==> ClosesOnce(r, eof)
    {
      var c := if CloseEvent(r) || (ReadEvent(r) && eof) then HandleClose() else this;
      if POLLOUT in r then c.HandleWrite(cfg, w) else c
    }

    function ForceClose(): Conn {
      if Open() then this.(state := Disconnecting).Queue(PendingForceClose) else this
    }

    /** The timer that will close the connection is not part of the state. */
    function ForceCloseWithDelay(): Conn {
      if Open() then this.(state := Disconnecting) else this
    }

    function ForceCloseInLoop(): Conn {
      if Open() then HandleClose() else this
    }

    /** A write the functor makes answers `r`. The user's callbacks do nothing by
        themselves: what they call are steps of their own. */
    function RunFunctor(cfg: Config, f: Functor, before: Byte, r: WriteResult): Conn
      requires r.FitsIn(SendLength(f))
    {
      match f
      case PendingForceClose => ForceCloseInLoop()
      case PendingSend(data) => SendInLoop(cfg, data, before, r)
      case PendingShutdown => ShutdownInLoop()
      case _ => this
    }

    /** The next functor of the queue. */
    function RunQueued(cfg: Config, before: Byte, r: WriteResult): Conn
      requires taken < |queued| && r.FitsIn(SendLength(queued[taken]))
    {
      this.(taken := taken + 1).RunFunctor(cfg, queued[taken], before, r)
    }

    function Established(): Conn
      requires state == Connecting
    {
      this.(state := Connected, mask := Changed(mask, EnableRead))
    }

    function Destroyed(): Conn {
      if state == Connected then this.(state := Disconnected, mask := Changed(mask, DisableAll)) else this
    }

    /** The channel is watched exactly while the connection is open, for writing exactly
        while something waits in the output buffer. */
    ghost predicate InterestOk() {
      && (if Open() then Reads(mask) else mask == NONE_EVENT)
      && (Open() ==> (Writes(mask) <==> out != []))
      && (state == Connecting ==> out == [])
    }

    /** Nothing is lost, repeated or reordered. */
    ghost predicate StreamOk() { accepted == wire + out }

    ghost predicate ShutdownPosted() { taken <= |queued| && PendingShutdown in queued[taken..] }

    /** SHUT_WR and `shutdown()` leave a connection closing or closed. */
    ghost predicate Closing() {
      && taken <= |queued|
      && (shutdowns > 0 || asked ==> state == Disconnecting || state == Disconnected)
      && (ShutdownPosted() ==> asked)
    }

    /** After SHUT_WR the connection is closed, or closing with nothing left to write. */
    ghost predicate Sealed() {
      Closing() && (shutdowns > 0 && state == Disconnecting ==> out == [])
    }

    /** SHUT_WR happens at most once, with nothing left to write; and after `shutdown()`,
        once what that posted has run, it has happened exactly if nothing is left. */
    ghost predicate HalfCloseOk() {
      && Sealed() && shutdowns <= 1
      && (shutdowns == 1 ==> out == [])
      && (asked && state == Disconnecting && !ShutdownPosted() ==> (shutdowns == 1 <==> out == []))
    }
  }

  function SendLength(f: Functor): nat { if f.PendingSend? then |f.data| else 0 }

  const FRESH := Conn(Connecting, [], NONE_EVENT, [], 0, [], false, [], 0)

  // ---------------------------------------------------------------- steps and runs

  /** Calls are of the loop's own thread, but for the posting ones. */
  datatype Op =
    | Establish
    | Send(data: seq<Byte>, before: Byte, result: WriteResult)
    | PostSend(data: seq<Byte>)
    | Writable(result: WriteResult)
    | Shutdown
    | PostShutdown
    | ForceClose
    | ForceCloseWithDelay
    | DelayedClose
    | RunQueued(before: Byte, result: WriteResult)
    | PeerClosed
    | Destroy

  /** What write(2) can answer: after SHUT_WR it fails, with EPIPE or with an error the
      socket had pending. */
  ghost predicate CanAnswer(c: Conn, len: nat, r: WriteResult) {
    r.FitsIn(len) && (c.shutdowns > 0 ==> r.Failed?)
  }

  /** A connection is established once, and has events only after that. */
  ghost predicate Enabled(c: Conn, op: Op) {
    match op
    case Establish => c.state == Connecting
    case Send(data, _, r) => CanAnswer(c, |data|, r)
    case Writable(r) => c.state != Connecting && CanAnswer(c, |c.out|, r)
    case RunQueued(_, r) =>
      c.state != Connecting && c.taken < |c.queued| && CanAnswer(c, SendLength(c.queued[c.taken]), r)
    case PeerClosed => c.state != Connecting
    case _ => true
  }

  /** `handleClose` asserts that the connection is open. */
  ghost predicate AssertsOk(c: Conn, op: Op) {
    op.PeerClosed? ==> c.Open()
  }

  ghost function Step(cfg: Config, c: Conn, op: Op): Conn
    requires Enabled(c, op) && AssertsOk(c, op)
  {
    match op
    case Establish => c.Established()
    case Send(data, before, r) => c.Send(cfg, data, before, r)
    case PostSend(data) => c.PostSend(data)
    case Writable(r) => c.HandleWrite(cfg, r)
    case Shutdown => c.Shutdown()
    case PostShutdown => c.PostShutdown()
    case ForceClose => c.ForceClose()
    case ForceCloseWithDelay => c.ForceCloseWithDelay()
    case DelayedClose => c.ForceCloseInLoop()
    case RunQueued(before, r) => c.RunQueued(cfg, before, r)
    case PeerClosed => c.HandleClose()
    case Destroy => c.Destroyed()
  }

  /** All but the steps that can write. */
  predicate Quiet(op: Op) { !op.Send? && !op.Writable? && !op.RunQueued? }

  lemma QuietStep(cfg: Config, c: Conn, op: Op)
    requires Enabled(c, op) && AssertsOk(c, op) && Quiet(op)
    ensures var d := Step(cfg, c, op);
      && d.out == c.out && d.wire == c.wire && d.accepted == c.accepted && d.taken == c.taken
      && (d.queued == c.queued || d.queued == c.queued + [Posted(op)])
      && (d.queued != c.queued && Posted(op) == PendingShutdown <==> op.PostShutdown? && c.state == Connected)
  {
    assert forall f: Functor :: c.queued + [f] != c.queued;
  }

  /** What a step that can write comes down to. */
  lemma WritingStep(cfg: Config, c: Conn, op: Op)
    requires Enabled(c, op) && AssertsOk(c, op) && !Quiet(op)
    ensures op.Send? ==>
      Step(cfg, c, op) == if c.state == Connected then c.SendInLoop(cfg, op.data, op.before, op.result) else c
    ensures op.Writable? ==> Step(cfg, c, op) == c.HandleWrite(cfg, op.result)
    ensures op.RunQueued? ==>
      Step(cfg, c, op) == c.(taken := c.taken + 1).RunFunctor(cfg, c.queued[c.taken], op.before, op.result)
  {
    match op {
      case Send(data, before, r) => assert Step(cfg, c, op) == c.Send(cfg, data, before, r);
      case Writable(r) => assert Step(cfg, c, op) == c.HandleWrite(cfg, r);
      case RunQueued(before, r) => assert Step(cfg, c, op) == c.RunQueued(cfg, before, r);
    }
  }

  function Posted(op: Op): Functor {
    match op
    case PostSend(data) => PendingSend(data)
    case PostShutdown => PendingShutdown
    case _ => PendingForceClose
  }

  lemma SendKeepsInterest(cfg: Config, c: Conn, data: seq<Byte>, before: Byte, r: WriteResult)
    requires c.InterestOk() && c.state != Connecting && r.FitsIn(|data|)
    ensures c.SendInLoop(cfg, data, before, r).InterestOk()
  {
    ChangesAreIndependent(c.mask);
  }

  lemma WriteKeepsInterest(cfg: Config, c: Conn, r: WriteResult)
    requires c.InterestOk() && c.state != Connecting && r.FitsIn(|c.out|)
    ensures c.HandleWrite(cfg, r).InterestOk()
  {
    ChangesAreIndependent(c.mask);
  }

  lemma FunctorKeepsInterest(cfg: Config, c: Conn, f: Functor, before: Byte, r: WriteResult)
    requires c.InterestOk() && c.state != Connecting && r.FitsIn(SendLength(f))
    ensures c.RunFunctor(cfg, f, before, r).InterestOk()
  {
    if f.PendingSend? { SendKeepsInterest(cfg, c, f.data, before, r); }
  }

  lemma StepKeepsInterest(cfg: Config, c: Conn, op: Op)
    requires c.InterestOk() && Enabled(c, op) && AssertsOk(c, op)
    ensures Step(cfg, c, op).InterestOk()
  {
    if !Quiet(op) { WritingStep(cfg, c, op); }
    match op {
      case Establish => ChangesAreIndependent(c.mask); assert !Writes(NONE_EVENT);
      case Send(data, before, r) => if c.state == Connected { SendKeepsInterest(cfg, c, data, before, r); }
      case Writable(r) => WriteKeepsInterest(cfg, c, r);
      case RunQueued(before, r) => FunctorKeepsInterest(cfg, c.(taken := c.taken + 1), c.queued[c.taken], before, r);
      case _ =>
    }
  }

  /** A direct write that fails without the peer being gone: the deferred bytes are taken
      one position too early. */
  ghost predicate Misread(c: Conn, data: seq<Byte>, r: WriteResult) {
    c.state != Disconnected && c.Direct() && r.Failed? && !r.PeerGone() && data != []
  }

  ghost predicate MisreadOp(c: Conn, op: Op) {
    match op
    case Send(data, _, r) => c.state == Connected && Misread(c, data, r)
    case RunQueued(_, r) =>
      c.taken < |c.queued| && c.queued[c.taken].PendingSend? && Misread(c, c.queued[c.taken].data, r)
    case _ => false
  }

  /** A send conserves the stream whatever precedes its data in memory, exactly if it is
      not such a failed direct write. */
  lemma SendConservesIff(cfg: Config, c: Conn, data: seq<Byte>, r: WriteResult)
    requires c.InterestOk() && c.StreamOk() && r.FitsIn(|data|)
    ensures (forall before: Byte :: c.SendInLoop(cfg, data, before, r).StreamOk()) <==> !Misread(c, data, r)
  {
    if Misread(c, data, r) {
      MisreadLoses(cfg, c, data, r);
    } else {
      forall before: Byte ensures c.SendInLoop(cfg, data, before, r).StreamOk() {
        SendConserves(cfg, c, data, before, r);
      }
    }
  }

  /** Any other byte before the data shows. */
  lemma MisreadLoses(cfg: Config, c: Conn, data: seq<Byte>, r: WriteResult)
    requires c.StreamOk() && r.FitsIn(|data|) && Misread(c, data, r)
    ensures exists before: Byte :: !c.SendInLoop(cfg, data, before, r).StreamOk()
  {
    var first: int := data[0];
    var before: Byte := (first + 1) % 256;
    var t := c.SendInLoop(cfg, data, before, r);
    MisreadResult(cfg, c, data, before, r);
    assert t.accepted[|c.wire|] == data[0] && (t.wire + t.out)[|c.wire|] == before;
  }

  lemma MisreadResult(cfg: Config, c: Conn, data: seq<Byte>, before: Byte, r: WriteResult)
    requires c.StreamOk() && r.FitsIn(|data|) && Misread(c, data, r)
    ensures var t := c.SendInLoop(cfg, data, before, r);
      t.accepted == c.wire + data && t.wire == c.wire && t.out == Tail(data, -1, before) && t.out[0] == before
  {
    assert c.accepted == c.wire by { assert c.wire + [] == c.wire; }
  }

  lemma DirectConserves(cfg: Config, c: Conn, data: seq<Byte>, before: Byte, r: WriteResult)
    requires c.StreamOk() && c.out == [] && r.FitsIn(|data|) && (r.Wrote? || data == [])
    ensures c.SendDirect(cfg, data, before, r).StreamOk()
  {
    var n := if r.Wrote? then r.n else 0;
    assert c.accepted == c.wire by { assert c.wire + [] == c.wire; }
    DirectResult(cfg, c, data, before, r);
    SplitAt(c.wire, data, n);
  }

  lemma DirectResult(cfg: Config, c: Conn, data: seq<Byte>, before: Byte, r: WriteResult)
    requires c.out == [] && r.FitsIn(|data|) && (r.Wrote? || data == [])
    ensures var d := c.SendDirect(cfg, data, before, r);
      var n := if r.Wrote? then r.n else 0;
      d.accepted == c.accepted + data && d.wire == c.wire + data[..n] && d.out == data[n..]
  {
  }

  lemma SplitAt(a: seq<Byte>, b: seq<Byte>, n: nat)
    requires n <= |b|
    ensures a + b == a + b[..n] + b[n..]
  {
  }

  lemma SendConserves(cfg: Config, c: Conn, data: seq<Byte>, before: Byte, r: WriteResult)
    requires c.StreamOk() && r.FitsIn(|data|) && !Misread(c, data, r)
    ensures c.SendInLoop(cfg, data, before, r).StreamOk()
  {
    if c.state != Disconnected && c.Direct() && !r.PeerGone() {
      DirectConserves(cfg, c, data, before, r);
    } else {
      assert c.wire + c.out + data == c.wire + (c.out + data);
    }
  }

  lemma MisreadExample()
    ensures var cfg := Config(65536, true, true);
      var c := FRESH.Established();
      c.StreamOk() && c.Send(cfg, [104, 105], 0, Failed(EWOULDBLOCK)).out == [0, 104]
  {
    ChangesAreIndependent(FRESH.mask);
    assert Writes(Changed(NONE_EVENT, EnableRead)) == Writes(NONE_EVENT) == false;
    assert ([0] + [104, 105])[..2] == [0, 104];
  }

  lemma StepConserves(cfg: Config, c: Conn, op: Op)
    requires c.InterestOk() && c.StreamOk() && Enabled(c, op) && AssertsOk(c, op) && !MisreadOp(c, op)
    ensures Step(cfg, c, op).StreamOk()
  {
    if !Quiet(op) { WritingStep(cfg, c, op); }
    match op {
      case Send(data, before, r) =>
        if c.state == Connected { SendConserves(cfg, c, data, before, r); }
      case RunQueued(before, r) => FunctorConserves(cfg, c.(taken := c.taken + 1), c.queued[c.taken], before, r);
      case Writable(r) =>
        if Writes(c.mask) && r.Value() > 0 {
          assert c.out == c.out[..r.n] + c.out[r.n..];
          assert c.wire + c.out == c.wire + c.out[..r.n] + c.out[r.n..];
        }
      case _ =>
    }
  }

  lemma FunctorConserves(cfg: Config, c: Conn, f: Functor, before: Byte, r: WriteResult)
    requires c.StreamOk() && r.FitsIn(SendLength(f)) && !(f.PendingSend? && Misread(c, f.data, r))
    ensures c.RunFunctor(cfg, f, before, r).StreamOk()
  {
    if f.PendingSend? { SendConserves(cfg, c, f.data, before, r); }
  }

  datatype Run = Begin | Then(before: Run, op: Op)

  /** The state after a run. The program ends when an assert fails: there is no step. */
  ghost function End(cfg: Config, r: Run): Conn {
    match r
    case Begin => FRESH
    case Then(before, op) =>
      var c := End(cfg, before);
      if Enabled(c, op) && AssertsOk(c, op) then Step(cfg, c, op) else c
  }

  ghost predicate IsRun(cfg: Config, r: Run) {
    r.Then? ==> IsRun(cfg, r.before) && Enabled(End(cfg, r.before), r.op) && AssertsOk(End(cfg, r.before), r.op)
  }

  /** In every reachable state the channel's interest is in order. */
  lemma {:induction false} RunKeepsInterest(cfg: Config, r: Run)
    requires IsRun(cfg, r)
    ensures End(cfg, r).InterestOk()
  {
    if r.Then? {
      RunKeepsInterest(cfg, r.before);
      StepKeepsInterest(cfg, End(cfg, r.before), r.op);
    }
  }

  ghost predicate NoMisread(cfg: Config, r: Run) {
    r.Then? ==> NoMisread(cfg, r.before) && !MisreadOp(End(cfg, r.before), r.op)
  }

  /** Output conservation: the accepted bytes are the bytes written followed by the bytes
      waiting, so what is on the wire is always a prefix of what was accepted; across
      direct, partial and deferred writes, half-close and forced close. */
  lemma {:induction false} RunConserves(cfg: Config, r: Run)
    requires IsRun(cfg, r) && NoMisread(cfg, r)
    ensures End(cfg, r).accepted == End(cfg, r).wire + End(cfg, r).out
    ensures End(cfg, r).wire <= End(cfg, r).accepted
  {
    if r.Then? {
      RunKeepsInterest(cfg, r);
      RunKeepsInterest(cfg, r.before);
      RunConserves(cfg, r.before);
      StepConserves(cfg, End(cfg, r.before), r.op);
    }
  }

  lemma SendConservesLength(cfg: Config, c: Conn, data: seq<Byte>, before: Byte, r: WriteResult)
    requires r.FitsIn(|data|) && |c.accepted| == |c.wire| + |c.out|
    ensures var d := c.SendInLoop(cfg, data, before, r); |d.accepted| == |d.wire| + |d.out|
  {
    if c.Direct() && !r.PeerGone() {
      var d := c.SendDirect(cfg, data, before, r);
      assert d.accepted == c.accepted + data && |d.out| == |Tail(data, r.Value(), before)|;
    }
  }

  lemma FunctorConservesLength(cfg: Config, c: Conn, f: Functor, before: Byte, r: WriteResult)
    requires r.FitsIn(SendLength(f)) && |c.accepted| == |c.wire| + |c.out|
    ensures var d := c.RunFunctor(cfg, f, before, r); |d.accepted| == |d.wire| + |d.out|
  {
    if f.PendingSend? { SendConservesLength(cfg, c, f.data, before, r); }
  }

  lemma WriteConservesLength(cfg: Config, c: Conn, r: WriteResult)
    requires r.FitsIn(|c.out|) && |c.accepted| == |c.wire| + |c.out|
    ensures var d := c.HandleWrite(cfg, r); |d.accepted| == |d.wire| + |d.out|
  {
  }

  lemma StepConservesLength(cfg: Config, c: Conn, op: Op)
    requires Enabled(c, op) && AssertsOk(c, op)
    requires |c.accepted| == |c.wire| + |c.out|
    ensures |Step(cfg, c, op).accepted| == |Step(cfg, c, op).wire| + |Step(cfg, c, op).out|
  {
    if !Quiet(op) { WritingStep(cfg, c, op); }
    match op {
      case Send(data, before, r) => if c.state == Connected { SendConservesLength(cfg, c, data, before, r); }
      case Writable(r) => WriteConservesLength(cfg, c, r);
      case RunQueued(before, r) => FunctorConservesLength(cfg, c.(taken := c.taken + 1), c.queued[c.taken], before, r);
      case _ => QuietStep(cfg, c, op);
    }
  }

  /** The number of bytes is conserved even by a misread. */
  lemma {:induction false} RunConservesLength(cfg: Config, r: Run)
    requires IsRun(cfg, r)
    ensures |End(cfg, r).accepted| == |End(cfg, r).wire| + |End(cfg, r).out|
  {
    if r.Then? {
      RunKeepsInterest(cfg, r.before);
      RunKeepsInterest(cfg, r);
      RunConservesLength(cfg, r.before);
      StepConservesLength(cfg, End(cfg, r.before), r.op);
    }
  }

  // ---------------------------------------------------------------- half-close

  /** The `shutdownInLoop` that another thread's `shutdown()` posted runs too late: the
      output has drained meanwhile and the half-close is done, or the connection has closed
      with output left, and its channel no longer holds the half-close back. */
  ghost predicate Late(c: Conn, op: Op) {
    && op.RunQueued? && c.taken < |c.queued| && c.queued[c.taken].PendingShutdown?
    && (c.shutdowns > 0 || (c.state == Disconnected && c.out != []))
  }

  function LastQueued(c: Conn): Functor { if c.queued == [] then WriteComplete else c.queued[|c.queued| - 1] }

  /** At most one callback of the user has been queued. */
  ghost predicate OneQueued(c: Conn, d: Conn) {
    d.taken == c.taken && (d.queued == c.queued ||
      (d.queued == c.queued + [LastQueued(d)] && !LastQueued(d).PendingShutdown?))
  }

  lemma DirectQueues(cfg: Config, c: Conn, data: seq<Byte>, before: Byte, r: WriteResult)
    requires r.FitsIn(|data|)
    ensures OneQueued(c, c.SendDirect(cfg, data, before, r))
  {
    var wire := c.wire + if r.Wrote? then data[..r.n] else [];
    var tail := Tail(data, r.Value(), before);
    DeferQueues(cfg, c.(accepted := c.accepted + data, wire := wire), tail);
  }

  lemma DeferQueues(cfg: Config, c: Conn, tail: seq<Byte>)
    ensures OneQueued(c, c.Defer(cfg, tail))
  {
  }

  lemma SendQueues(cfg: Config, c: Conn, data: seq<Byte>, before: Byte, r: WriteResult)
    requires r.FitsIn(|data|)
    ensures OneQueued(c, c.SendInLoop(cfg, data, before, r))
  {
    if c.state == Disconnected || (!c.Direct() && data == []) || (c.Direct() && r.PeerGone()) {
      assert c.SendInLoop(cfg, data, before, r) == c;
    } else if !c.Direct() {
      assert c.SendInLoop(cfg, data, before, r) == c.(accepted := c.accepted + data).Defer(cfg, data);
      DeferQueues(cfg, c.(accepted := c.accepted + data), data);
    } else {
      assert c.SendInLoop(cfg, data, before, r) == c.SendDirect(cfg, data, before, r);
      DirectQueues(cfg, c, data, before, r);
    }
  }

  lemma FunctorQueues(cfg: Config, c: Conn, f: Functor, before: Byte, r: WriteResult)
    requires r.FitsIn(SendLength(f))
    ensures OneQueued(c, c.RunFunctor(cfg, f, before, r))
  {
    if f.PendingSend? { SendQueues(cfg, c, f.data, before, r); }
  }

  lemma WriteQueues(cfg: Config, c: Conn, r: WriteResult)
    requires r.FitsIn(|c.out|)
    ensures OneQueued(c, c.HandleWrite(cfg, r))
  {
  }

  lemma StepQueues(cfg: Config, c: Conn, op: Op)
    requires Enabled(c, op) && AssertsOk(c, op)
    ensures var d := Step(cfg, c, op);
      && c.queued <= d.queued && d.taken == c.taken + (if op.RunQueued? then 1 else 0)
      && (PendingShutdown in d.queued[|c.queued|..] <==> op.PostShutdown? && c.state == Connected)
  {
    if !Quiet(op) { WritingStep(cfg, c, op); }
    match op {
      case Send(data, before, r) => if c.state == Connected { SendQueues(cfg, c, data, before, r); }
      case Writable(r) => WriteQueues(cfg, c, r);
      case RunQueued(before, r) => FunctorQueues(cfg, c.(taken := c.taken + 1), c.queued[c.taken], before, r);
      case _ => QuietStep(cfg, c, op);
    }
  }

  lemma Suffixes(q: seq<Functor>, d: seq<Functor>, i: nat, j: nat, f: Functor)
    requires q <= d && i <= j <= |q| && j <= i + 1
    ensures f in d[j..] <==> f in q[j..] || f in d[|q|..]
    ensures f in q[i..] <==> (i < j && f == q[i]) || f in q[j..]
  {
    assert d[j..] == q[j..] + d[|q|..];
    if i < j { assert q[i..] == [q[i]] + q[j..]; }
  }

  /** A step takes the front of the queue or adds at its end. */
  lemma StepKeepsPosted(cfg: Config, c: Conn, op: Op)
    requires Enabled(c, op) && AssertsOk(c, op) && c.taken <= |c.queued|
    ensures var d := Step(cfg, c, op);
      && d.taken <= |d.queued|
      && (d.ShutdownPosted() ==> c.ShutdownPosted() || (op.PostShutdown? && c.state == Connected))
      && (c.ShutdownPosted() ==> d.ShutdownPosted() || (op.RunQueued? && c.queued[c.taken].PendingShutdown?))
      && (op.RunQueued? && c.queued[c.taken].PendingShutdown? ==> c.ShutdownPosted())
      && (op.PostShutdown? && c.state == Connected ==> d.ShutdownPosted())
  {
    StepQueues(cfg, c, op);
    var d := Step(cfg, c, op);
    Suffixes(c.queued, d.queued, c.taken, d.taken, PendingShutdown);
  }

  /** A send that runs after SHUT_WR, posted before it by another thread, and whose write
      fails with an error other than EPIPE and ECONNRESET: its bytes are accepted and wait
      to be written, which they never can be. */
  ghost predicate Spoiled(c: Conn, op: Op) { c.shutdowns > 0 && MisreadOp(c, op) }

  lemma SendAfterHalfClose(cfg: Config, c: Conn, data: seq<Byte>, before: Byte, r: WriteResult)
    requires c.InterestOk() && CanAnswer(c, |data|, r) && c.shutdowns > 0
    requires c.state == Disconnected || (c.state == Disconnecting && c.out == [])
    ensures var d := c.SendInLoop(cfg, data, before, r);
      && (d.accepted == c.accepted <==> !Misread(c, data, r))
      && (d.out == c.out <==> !Misread(c, data, r))
  {
    assert |c.accepted + data| == |c.accepted| + |data|;
  }

  lemma SendKeepsClosing(cfg: Config, c: Conn, data: seq<Byte>, before: Byte, r: WriteResult)
    requires CanAnswer(c, |data|, r)
    ensures var d := c.SendInLoop(cfg, data, before, r);
      && d.state == c.state && d.shutdowns == c.shutdowns && d.asked == c.asked
      && (c.shutdowns > 0 ==> d.wire == c.wire)
  {
  }

  /** Whatever happens, nothing is written after SHUT_WR. */
  lemma StepKeepsClosing(cfg: Config, c: Conn, op: Op)
    requires c.InterestOk() && c.Closing() && Enabled(c, op) && AssertsOk(c, op)
    ensures Step(cfg, c, op).Closing()
    ensures c.shutdowns > 0 ==> Step(cfg, c, op).wire == c.wire
  {
    StepKeepsPosted(cfg, c, op);
    if !Quiet(op) { WritingStep(cfg, c, op); }
    match op {
      case Send(data, before, r) => if c.state == Connected { SendKeepsClosing(cfg, c, data, before, r); }
      case RunQueued(before, r) =>
        if c.queued[c.taken].PendingSend? {
          SendKeepsClosing(cfg, c.(taken := c.taken + 1), c.queued[c.taken].data, before, r);
        }
      case _ =>
    }
  }

  /** And nothing is accepted exactly if the step is no such send. */
  lemma StepKeepsSealedIff(cfg: Config, c: Conn, op: Op)
    requires c.InterestOk() && c.Sealed() && Enabled(c, op) && AssertsOk(c, op)
    ensures Step(cfg, c, op).Sealed() <==> !Spoiled(c, op)
    ensures c.shutdowns > 0 ==> (Step(cfg, c, op).accepted == c.accepted <==> !Spoiled(c, op))
  {
    StepKeepsClosing(cfg, c, op);
    if !Quiet(op) { WritingStep(cfg, c, op); }
    match op {
      case Send(data, before, r) => if c.state == Connected { SendKeepsClosing(cfg, c, data, before, r); }
      case RunQueued(before, r) => if c.queued[c.taken].PendingSend? { PostedSendKeepsSealedIff(cfg, c, before, r); }
      case _ => ChangesAreIndependent(c.mask);
    }
  }

  lemma PostedSendKeepsSealedIff(cfg: Config, c: Conn, before: Byte, r: WriteResult)
    requires c.InterestOk() && c.Sealed() && Enabled(c, RunQueued(before, r)) && c.queued[c.taken].PendingSend?
    ensures var op := RunQueued(before, r);
      && (Step(cfg, c, op).Sealed() <==> !Spoiled(c, op))
      && (c.shutdowns > 0 ==> (Step(cfg, c, op).accepted == c.accepted <==> !Spoiled(c, op)))
  {
    var op, d := RunQueued(before, r), c.(taken := c.taken + 1);
    StepKeepsClosing(cfg, c, op);
    WritingStep(cfg, c, op);
    SendKeepsClosing(cfg, d, c.queued[c.taken].data, before, r);
    if c.shutdowns > 0 { SendAfterHalfClose(cfg, d, c.queued[c.taken].data, before, r); }
  }

  /** A step keeps the half-close in order exactly if it is neither a late shutdown nor such
      a send. */
  lemma StepHalfClosesIff(cfg: Config, c: Conn, op: Op)
    requires c.InterestOk() && c.HalfCloseOk() && Enabled(c, op) && AssertsOk(c, op)
    ensures Step(cfg, c, op).HalfCloseOk() <==> !Late(c, op) && !Spoiled(c, op)
  {
    StepKeepsSealedIff(cfg, c, op);
    StepKeepsPosted(cfg, c, op);
    if !Quiet(op) { WritingStep(cfg, c, op); }
    match op {
      case Send(data, before, r) => if c.state == Connected { SendKeepsClosing(cfg, c, data, before, r); }
      case Writable(r) => ChangesAreIndependent(c.mask);
      case RunQueued(before, r) =>
        if c.queued[c.taken].PendingSend? { PostedSendHalfCloses(cfg, c, before, r); }
      case _ => QuietStep(cfg, c, op);
    }
  }

  /** A send posted by another thread runs while the connection may be closing: what it
      cannot write waits, and the half-close with it, unless that is done. */
  lemma PostedSendHalfCloses(cfg: Config, c: Conn, before: Byte, r: WriteResult)
    requires c.InterestOk() && c.HalfCloseOk() && Enabled(c, RunQueued(before, r)) && c.queued[c.taken].PendingSend?
    ensures Step(cfg, c, RunQueued(before, r)).HalfCloseOk() <==> !Spoiled(c, RunQueued(before, r))
  {
    var op, d := RunQueued(before, r), c.(taken := c.taken + 1);
    PostedSendKeepsSealedIff(cfg, c, before, r);
    StepKeepsPosted(cfg, c, op);
    WritingStep(cfg, c, op);
    SendKeepsClosing(cfg, d, c.queued[c.taken].data, before, r);
    SendKeepsOutput(cfg, d, c.queued[c.taken].data, before, r);
    if c.shutdowns > 0 { SendAfterHalfClose(cfg, d, c.queued[c.taken].data, before, r); }
  }

  lemma SendKeepsOutput(cfg: Config, c: Conn, data: seq<Byte>, before: Byte, r: WriteResult)
    requires r.FitsIn(|data|)
    ensures c.out != [] ==> c.SendInLoop(cfg, data, before, r).out != []
  {
  }

  /** No step is a late shutdown or a send that cannot be written any more. */
  ghost predicate Orderly(cfg: Config, r: Run) {
    r.Then? ==> Orderly(cfg, r.before) && !Late(End(cfg, r.before), r.op) && !Spoiled(End(cfg, r.before), r.op)
  }

  ghost predicate AlwaysOk(cfg: Config, r: Run) {
    End(cfg, r).HalfCloseOk() && (r.Then? ==> AlwaysOk(cfg, r.before))
  }

  /** Over every run, with calls from any thread, nothing is written after SHUT_WR. SHUT_WR
      is issued at most once, only when every accepted byte has been written, with nothing
      accepted after it, and after `shutdown()` exactly if none is left, throughout the run
      exactly if what other threads posted is orderly in it. */
  lemma {:induction false} RunHalfCloses(cfg: Config, r: Run)
    requires IsRun(cfg, r)
    ensures End(cfg, r).Closing()
    ensures r.Then? && End(cfg, r.before).shutdowns > 0 ==> End(cfg, r).wire == End(cfg, r.before).wire
    ensures AlwaysOk(cfg, r) <==> Orderly(cfg, r)
    ensures Orderly(cfg, r) && r.Then? && End(cfg, r.before).shutdowns > 0 ==>
      End(cfg, r).accepted == End(cfg, r.before).accepted
    ensures Orderly(cfg, r) && End(cfg, r).shutdowns > 0 ==>
      End(cfg, r).shutdowns == 1 && |End(cfg, r).wire| == |End(cfg, r).accepted|
    ensures Orderly(cfg, r) && End(cfg, r).shutdowns > 0 && NoMisread(cfg, r) ==>
      End(cfg, r).wire == End(cfg, r).accepted
  {
    if r.Then? {
      RunKeepsInterest(cfg, r.before);
      RunHalfCloses(cfg, r.before);
      StepKeepsClosing(cfg, End(cfg, r.before), r.op);
      if AlwaysOk(cfg, r.before) {
        StepHalfClosesIff(cfg, End(cfg, r.before), r.op);
        StepKeepsSealedIff(cfg, End(cfg, r.before), r.op);
      }
    }
    RunConservesLength(cfg, r);
    if NoMisread(cfg, r) { RunConserves(cfg, r); }
  }

  const USUAL := Config(65536, true, true)

  /** One of two bytes waits when another thread calls `shutdown()`. */
  const SHUT_WITH_OUTPUT: Run := Then(Then(Then(Begin, Establish), Send([7, 8], 0, Wrote(1))), PostShutdown)

  const WITH_OUTPUT: Conn :=
    Conn(Disconnecting, [8], READ_EVENT + WRITE_EVENT, [7], 0, [7, 8], true, [PendingShutdown], 0)

  lemma ShutWithOutput()
    ensures IsRun(USUAL, SHUT_WITH_OUTPUT) && End(USUAL, SHUT_WITH_OUTPUT) == WITH_OUTPUT
  {
    var r1 := Then(Begin, Establish);
    var c1 := Conn(Connected, [], READ_EVENT, [], 0, [], false, [], 0);
    assert End(USUAL, r1) == c1;
    ChangesAreIndependent(NONE_EVENT);
    var r2 := Then(r1, Send([7, 8], 0, Wrote(1)));
    assert IsRun(USUAL, r1) && IsRun(USUAL, r2);
    assert [7, 8][..1] == [7] && [7, 8][1..] == [8];
    assert End(USUAL, r2) == Conn(Connected, [8], READ_EVENT + WRITE_EVENT, [7], 0, [7, 8], false, [], 0);
  }

  /** Both ways of being late are reached. If the output drains first, SHUT_WR is issued
      twice. */
  lemma HalfClosedTwice()
    ensures var r := Then(Then(SHUT_WITH_OUTPUT, Writable(Wrote(1))), RunQueued(0, Failed(EPIPE)));
      IsRun(USUAL, r) && Late(End(USUAL, r.before), r.op) && End(USUAL, r).shutdowns == 2
  {
    ShutWithOutput();
    ChangesAreIndependent(READ_EVENT + WRITE_EVENT);
    assert POLLOUT in (READ_EVENT + WRITE_EVENT) * WRITE_EVENT;
    var d := WITH_OUTPUT.HandleWrite(USUAL, Wrote(1));
    assert d.shutdowns == 1 && d.state == Disconnecting && d.taken == 0;
    assert d.queued[0] == PendingShutdown && !Writes(d.mask);
    LateStep(d);
  }

  /** If the connection closes first, SHUT_WR is issued over output never written. */
  lemma HalfClosedOverOutput()
    ensures var r := Then(Then(SHUT_WITH_OUTPUT, PeerClosed), RunQueued(0, Failed(EPIPE)));
      && IsRun(USUAL, r) && Late(End(USUAL, r.before), r.op)
      && End(USUAL, r).shutdowns == 1 && End(USUAL, r).out == [8]
  {
    ShutWithOutput();
    var d := WITH_OUTPUT.HandleClose();
    var r1 := Then(SHUT_WITH_OUTPUT, PeerClosed);
    assert IsRun(USUAL, r1) && End(USUAL, r1) == d;
    assert !Writes(NONE_EVENT) && d.mask == NONE_EVENT;
    LateStep(d);
  }

  lemma LateStep(d: Conn)
    requires d.state != Connecting && d.taken < |d.queued| && d.queued[d.taken] == PendingShutdown && !Writes(d.mask)
    ensures Enabled(d, RunQueued(0, Failed(EPIPE)))
    ensures Step(USUAL, d, RunQueued(0, Failed(EPIPE)))
      == d.(taken := d.taken + 1, shutdowns := d.shutdowns + 1)
  {
  }

  /** A send posted before the half-close runs after it, and its write finds a pending
      error: what waits then can never be written. */
  const SENT_AFTER_SHUT: Run := Then(Then(Then(Begin, Establish), PostSend([7])), Shutdown)

  lemma SpoiledSendExample()
    ensures var r := Then(SENT_AFTER_SHUT, RunQueued(0, Failed(OtherErrno)));
      && IsRun(USUAL, r) && Spoiled(End(USUAL, r.before), r.op) && !Late(End(USUAL, r.before), r.op)
      && End(USUAL, r).shutdowns == 1 && End(USUAL, r).accepted == [7] && End(USUAL, r).out == [0]
  {
    ChangesAreIndependent(NONE_EVENT);
    assert !Writes(NONE_EVENT);
    var c := Conn(Disconnecting, [], READ_EVENT, [], 1, [], true, [PendingSend([7])], 0);
    var r1 := Then(Begin, Establish);
    var r2 := Then(r1, PostSend([7]));
    assert IsRun(USUAL, r1) && End(USUAL, r1) == Conn(Connected, [], READ_EVENT, [], 0, [], false, [], 0);
    assert IsRun(USUAL, r2) && IsRun(USUAL, SENT_AFTER_SHUT) && End(USUAL, SENT_AFTER_SHUT) == c;
    SpoiledStep(c);
  }

  lemma SpoiledStep(c: Conn)
    requires c == Conn(Disconnecting, [], READ_EVENT, [], 1, [], true, [PendingSend([7])], 0)
    ensures var op := RunQueued(0, Failed(OtherErrno));
      && Enabled(c, op) && Spoiled(c, op)
      && var d := Step(USUAL, c, op); d.shutdowns == 1 && d.accepted == [7] && d.out == [0]
  {
    var op := RunQueued(0, Failed(OtherErrno));
    assert !Writes(READ_EVENT) && c.Direct();
    WritingStep(USUAL, c, op);
    assert Tail([7], -1, 0) == [0] by { assert ([0] + [7])[..1] == [0]; }
  }

  // ---------------------------------------------------------------- high-water mark

  /** The high-water callbacks queued, in order, with the lengths they carry. */
  ghost function HighWaters(q: seq<Functor>): seq<nat> {
    if q == [] then []
    else HighWaters(q[..|q| - 1]) + (if q[|q| - 1].HighWater? then [q[|q| - 1].len] else [])
  }

  lemma HighWatersOfQueue(q: seq<Functor>, f: Functor)
    ensures HighWaters(q + [f]) == HighWaters(q) + (if f.HighWater? then [f.len] else [])
  {
    assert (q + [f])[..|q|] == q;
  }

  ghost function Crossed(cfg: Config, c: Conn, d: Conn): seq<nat> {
    if |c.out| < cfg.highWaterMark <= |d.out| then [|d.out|] else []
  }

  /** The lengths to which the output buffer grew when it crossed the mark upwards. */
  ghost function Crossings(cfg: Config, r: Run): seq<nat> {
    if r.Begin? then []
    else Crossings(cfg, r.before) + Crossed(cfg, End(cfg, r.before), End(cfg, r))
  }

  lemma WriteQueuesNoHighWater(cfg: Config, c: Conn, r: WriteResult)
    requires r.FitsIn(|c.out|)
    ensures HighWaters(c.HandleWrite(cfg, r).queued) == HighWaters(c.queued)
    ensures |c.HandleWrite(cfg, r).out| <= |c.out|
  {
    HighWatersOfQueue(c.queued, WriteComplete);
  }

  lemma StepQueuesHighWater(cfg: Config, c: Conn, op: Op)
    requires cfg.highWaterSet && Enabled(c, op) && AssertsOk(c, op)
    ensures HighWaters(Step(cfg, c, op).queued)
         == HighWaters(c.queued) + Crossed(cfg, c, Step(cfg, c, op))
  {
    if !Quiet(op) { WritingStep(cfg, c, op); }
    match op {
      case Send(data, before, r) => if c.state == Connected { SendQueuesHighWater(cfg, c, data, before, r); }
      case Writable(r) => WriteQueuesNoHighWater(cfg, c, r);
      case RunQueued(before, r) => FunctorQueuesHighWater(cfg, c.(taken := c.taken + 1), c.queued[c.taken], before, r);
      case _ =>
        QuietStep(cfg, c, op);
        HighWatersOfQueue(c.queued, Posted(op));
    }
  }

  lemma FunctorQueuesHighWater(cfg: Config, c: Conn, f: Functor, before: Byte, r: WriteResult)
    requires cfg.highWaterSet && r.FitsIn(SendLength(f))
    ensures var d := c.RunFunctor(cfg, f, before, r);
      HighWaters(d.queued) == HighWaters(c.queued) + Crossed(cfg, c, d)
  {
    if f.PendingSend? { SendQueuesHighWater(cfg, c, f.data, before, r); }
  }

  lemma DeferQueuesHighWater(cfg: Config, c: Conn, tail: seq<Byte>)
    requires cfg.highWaterSet
    ensures HighWaters(c.Defer(cfg, tail).queued) == HighWaters(c.queued) + Crossed(cfg, c, c.Defer(cfg, tail))
  {
    var d := c.Defer(cfg, tail);
    assert |d.out| == |c.out| + |tail|;
    if |c.out| < cfg.highWaterMark <= |d.out| {
      assert d.queued == c.queued + [HighWater(|d.out|)];
      HighWatersOfQueue(c.queued, HighWater(|d.out|));
    } else {
      assert d.queued == c.queued;
    }
  }

  lemma DirectQueuesHighWater(cfg: Config, c: Conn, data: seq<Byte>, before: Byte, r: WriteResult)
    requires cfg.highWaterSet && r.FitsIn(|data|)
    ensures var d := c.SendDirect(cfg, data, before, r);
      HighWaters(d.queued) == HighWaters(c.queued) + Crossed(cfg, c, d)
  {
    var tail := Tail(data, r.Value(), before);
    if tail == [] {
      HighWatersOfQueue(c.queued, WriteComplete);
    } else {
      var taken := c.(accepted := c.accepted + data, wire := c.wire + if r.Wrote? then data[..r.n] else []);
      assert c.SendDirect(cfg, data, before, r) == taken.Defer(cfg, tail);
      DeferQueuesHighWater(cfg, taken, tail);
    }
  }

  lemma SendQueuesHighWater(cfg: Config, c: Conn, data: seq<Byte>, before: Byte, r: WriteResult)
    requires cfg.highWaterSet && r.FitsIn(|data|)
    ensures var d := c.SendInLoop(cfg, data, before, r);
      HighWaters(d.queued) == HighWaters(c.queued) + Crossed(cfg, c, d)
  {
    if !c.Direct() {
      DeferQueuesHighWater(cfg, c.(accepted := c.accepted + data), data);
    } else {
      DirectQueuesHighWater(cfg, c, data, before, r);
    }
  }

  /** With the callback set, one high-water callback is queued for every upward crossing
      of the mark and for nothing else, each with the length then reached. */
  lemma {:induction false} RunHighWaterExact(cfg: Config, r: Run)
    requires cfg.highWaterSet && IsRun(cfg, r)
    ensures HighWaters(End(cfg, r).queued) == Crossings(cfg, r)
  {
    if r.Then? {
      RunHighWaterExact(cfg, r.before);
      RunKeepsInterest(cfg, r);
      StepQueuesHighWater(cfg, End(cfg, r.before), r.op);
    }
  }

  // ---------------------------------------------------------------- what is asked for happens

  /** The send that a step runs in the loop, if any: its data and what its write answers. */
  ghost predicate Sends(c: Conn, op: Op) {
    || (op.Send? && c.state == Connected)
    || (op.RunQueued? && c.taken < |c.queued| && c.queued[c.taken].PendingSend? && c.state != Disconnected)
  }

  ghost function SentData(c: Conn, op: Op): seq<Byte>
    requires Sends(c, op)
  {
    if op.Send? then op.data else c.queued[c.taken].data
  }

  predicate IsGone(r: WriteResult) { r == Failed(EPIPE) || r == Failed(ECONNRESET) }

  /** What a step takes responsibility for: all of a send's data, unless nothing waits and
      the write finds the peer gone. */
  ghost function Taken(c: Conn, op: Op): seq<Byte> {
    if !Sends(c, op) || (c.out == [] && IsGone(op.result)) then [] else SentData(c, op)
  }

  /** What write(2) took in a step: of a send only when nothing waits; of what waits only
      while the connection is open. */
  ghost function Written(c: Conn, op: Op): seq<Byte>
    requires Enabled(c, op)
  {
    if Sends(c, op) && c.out == [] && op.result.Wrote? then SentData(c, op)[..op.result.n]
    else if op.Writable? && c.Open() && op.result.Wrote? then c.out[..op.result.n]
    else []
  }

  /** What a send queues for the user: that all is written, if its own write took it all; or
      that what waits has reached the mark. */
  ghost function SendNotices(cfg: Config, c: Conn, data: seq<Byte>, r: WriteResult): seq<Functor>
    requires r.FitsIn(|data|)
  {
    var rest := if c.out != [] then |data| else if IsGone(r) then 0 else if r.Wrote? then |data| - r.n else |data|;
    if c.out == [] && r.Wrote? && rest == 0 then
      if cfg.writeCompleteSet then [WriteComplete] else []
    else if rest > 0 && cfg.highWaterSet && |c.out| < cfg.highWaterMark <= |c.out| + rest then
      [HighWater(|c.out| + rest)]
    else []
  }

  /** What a step queues. */
  ghost function Notices(cfg: Config, c: Conn, op: Op): seq<Functor>
    requires Enabled(c, op)
  {
    if Sends(c, op) then SendNotices(cfg, c, SentData(c, op), op.result)
    else match op
      case Writable(r) =>
        if c.Open() && c.out != [] && r == Wrote(|c.out|) && cfg.writeCompleteSet then [WriteComplete] else []
      case PostSend(data) => if c.state == Connected then [PendingSend(data)] else []
      case PostShutdown => if c.state == Connected then [PendingShutdown] else []
      case ForceClose => if c.Open() then [PendingForceClose] else []
      case _ => []
  }

  /** The state a step leaves. */
  ghost function Becomes(c: Conn, op: Op): State {
    match op
    case Establish => Connected
    case Shutdown => if c.state == Connected then Disconnecting else c.state
    case PostShutdown => if c.state == Connected then Disconnecting else c.state
    case ForceClose => if c.state == Connected then Disconnecting else c.state
    case ForceCloseWithDelay => if c.state == Connected then Disconnecting else c.state
    case DelayedClose => if c.state == Connecting then Connecting else Disconnected
    case PeerClosed => Disconnected
    case Destroy => if c.state == Connected then Disconnected else c.state
    case RunQueued(_, _) =>
      if c.taken < |c.queued| && c.queued[c.taken].PendingForceClose? then Disconnected else c.state
    case _ => c.state
  }

  lemma SendDoes(cfg: Config, c: Conn, data: seq<Byte>, before: Byte, r: WriteResult)
    requires c.InterestOk() && (c.state == Connected || c.state == Disconnecting) && r.FitsIn(|data|)
    ensures var d := c.SendInLoop(cfg, data, before, r);
      && d.accepted == c.accepted + (if c.out == [] && IsGone(r) then [] else data)
      && d.wire == c.wire + (if c.out == [] && r.Wrote? then data[..r.n] else [])
      && d.queued == c.queued + SendNotices(cfg, c, data, r)
      && d.state == c.state && d.taken == c.taken
  {
    if c.Direct() {
      if !r.PeerGone() { DirectDoes(cfg, c, data, before, r); }
    } else if data != [] {
      var k := c.(accepted := c.accepted + data);
      assert c.SendInLoop(cfg, data, before, r) == k.Defer(cfg, data);
    }
  }

  lemma DirectDoes(cfg: Config, c: Conn, data: seq<Byte>, before: Byte, r: WriteResult)
    requires c.out == [] && r.FitsIn(|data|) && !r.PeerGone()
    ensures var d := c.SendDirect(cfg, data, before, r);
      && d.accepted == c.accepted + data
      && d.wire == c.wire + (if r.Wrote? then data[..r.n] else [])
      && d.queued == c.queued + SendNotices(cfg, c, data, r)
      && d.state == c.state && d.taken == c.taken
  {
    var tail := Tail(data, r.Value(), before);
    assert |tail| == if r.Wrote? then |data| - r.n else |data|;
  }

  lemma WriteDoes(cfg: Config, c: Conn, r: WriteResult)
    requires c.InterestOk() && c.state != Connecting && r.FitsIn(|c.out|)
    ensures var d, w := c.HandleWrite(cfg, r), Writable(r);
      && d.accepted == c.accepted && d.state == c.state && d.taken == c.taken
      && d.wire == c.wire + (if c.Open() && r.Wrote? then c.out[..r.n] else [])
      && d.queued == c.queued +
         (if c.Open() && c.out != [] && r == Wrote(|c.out|) && cfg.writeCompleteSet then [WriteComplete] else [])
  {
  }

  lemma FunctorDoes(cfg: Config, c: Conn, before: Byte, r: WriteResult)
    requires c.InterestOk() && Enabled(c, RunQueued(before, r))
    ensures var d, op := c.RunQueued(cfg, before, r), RunQueued(before, r);
      && d.accepted == c.accepted + Taken(c, op) && d.wire == c.wire + Written(c, op)
      && d.queued == c.queued + Notices(cfg, c, op) && d.state == Becomes(c, op) && d.taken == c.taken + 1
  {
    var k, f := c.(taken := c.taken + 1), c.queued[c.taken];
    if f.PendingSend? && c.state != Disconnected {
      SendDoes(cfg, k, f.data, before, r);
      assert c.RunQueued(cfg, before, r) == k.SendInLoop(cfg, f.data, before, r);
    } else {
      SilentFunctor(cfg, k, f, before, r);
    }
  }

  lemma SilentFunctor(cfg: Config, k: Conn, f: Functor, before: Byte, r: WriteResult)
    requires r.FitsIn(SendLength(f)) && k.state != Connecting && (f.PendingSend? ==> k.state == Disconnected)
    ensures var d := k.RunFunctor(cfg, f, before, r);
      && d.accepted == k.accepted && d.wire == k.wire && d.queued == k.queued && d.taken == k.taken
      && d.state == if f.PendingForceClose? then Disconnected else k.state
  {
  }

  /** The quiet steps. */
  lemma QuietDoes(cfg: Config, c: Conn, op: Op)
    requires c.InterestOk() && Enabled(c, op) && AssertsOk(c, op) && Quiet(op)
    ensures var d := Step(cfg, c, op);
      && d.accepted == c.accepted && d.wire == c.wire && d.out == c.out
      && d.queued == c.queued + Notices(cfg, c, op) && d.state == Becomes(c, op) && d.taken == c.taken
  {
  }

  /** What every step does, told from the step and what was there before: which bytes it
      accepts, which are written, what it queues, and the state it leaves. */
  lemma StepDoes(cfg: Config, c: Conn, op: Op)
    requires c.InterestOk() && Enabled(c, op) && AssertsOk(c, op)
    ensures var d := Step(cfg, c, op);
      && d.accepted == c.accepted + Taken(c, op) && d.wire == c.wire + Written(c, op)
      && d.queued == c.queued + Notices(cfg, c, op) && d.state == Becomes(c, op)
      && d.taken == c.taken + (if op.RunQueued? then 1 else 0)
  {
    if !Quiet(op) { WritingStep(cfg, c, op); }
    match op {
      case Send(data, before, r) => if c.state == Connected { SendDoes(cfg, c, data, before, r); }
      case Writable(r) => WriteDoes(cfg, c, r);
      case RunQueued(before, r) => FunctorDoes(cfg, c, before, r);
      case _ => QuietDoes(cfg, c, op);
    }
  }

  lemma WritesMeans(m: Mask)
    ensures Writes(m) <==> POLLOUT in m
  {
    assert POLLOUT in m ==> POLLOUT in m * WRITE_EVENT;
  }

  lemma FlushDoes(cfg: Config, c: Conn, w: WriteResult)
    requires c.InterestOk() && c.Open() && w.FitsIn(|c.out|)
    ensures var d := c.HandleWrite(cfg, w);
      && d.state == c.state && d.wire == c.wire + (if w.Wrote? then c.out[..w.n] else [])
      && d.out == (if w.Wrote? then c.out[w.n..] else c.out)
      && (POLLOUT in d.mask <==> d.out != [])
      && d.shutdowns == c.shutdowns + (if c.out != [] && w == Wrote(|c.out|) && c.state == Disconnecting then 1 else 0)
  {
    WriteKeepsInterest(cfg, c, w);
    ChangesAreIndependent(c.mask);
    WritesMeans(c.mask);
    WritesMeans(c.HandleWrite(cfg, w).mask);
  }

  /** The half-closes of a step: at once in a call on the loop's thread if nothing waits, or
      when a posted one runs, unless what waits holds it back; else with the last of it. */
  ghost function HalfCloses(c: Conn, op: Op): nat {
    if (op.Shutdown? && c.state == Connected && c.out == [])
       || (op.RunQueued? && c.taken < |c.queued| && c.queued[c.taken] == PendingShutdown && (c.Open() ==> c.out == []))
       || (op.Writable? && c.state == Disconnecting && c.out != [] && op.result == Wrote(|c.out|))
    then 1 else 0
  }

  ghost predicate AsksToShut(c: Conn, op: Op) { (op.Shutdown? || op.PostShutdown?) && c.state == Connected }

  lemma StepShuts(cfg: Config, c: Conn, op: Op)
    requires c.InterestOk() && Enabled(c, op) && AssertsOk(c, op)
    ensures var d := Step(cfg, c, op);
      && d.shutdowns == c.shutdowns + HalfCloses(c, op)
      && (d.asked <==> c.asked || AsksToShut(c, op))
  {
    if !Quiet(op) { WritingStep(cfg, c, op); }
    match op {
      case Send(data, before, r) => if c.state == Connected { SendLeaves(cfg, c, data, before, r); }
      case Writable(r) => if c.Open() { FlushDoes(cfg, c, r); }
      case RunQueued(before, r) =>
        if c.queued[c.taken].PendingSend? {
          SendLeaves(cfg, c.(taken := c.taken + 1), c.queued[c.taken].data, before, r);
        }
      case _ =>
    }
  }

  lemma SendLeaves(cfg: Config, c: Conn, data: seq<Byte>, before: Byte, r: WriteResult)
    requires r.FitsIn(|data|)
    ensures var d := c.SendInLoop(cfg, data, before, r); d.shutdowns == c.shutdowns && d.asked == c.asked
  {
  }

  ghost function AllTaken(cfg: Config, r: Run): seq<Byte> {
    match r
    case Begin => []
    case Then(before, op) => AllTaken(cfg, before) + Taken(End(cfg, before), op)
  }

  ghost function AllWritten(cfg: Config, r: Run): seq<Byte> {
    match r
    case Begin => []
    case Then(before, op) =>
      AllWritten(cfg, before) + (if Enabled(End(cfg, before), op) then Written(End(cfg, before), op) else [])
  }

  ghost function AllHalfCloses(cfg: Config, r: Run): nat {
    match r
    case Begin => 0
    case Then(before, op) => AllHalfCloses(cfg, before) + HalfCloses(End(cfg, before), op)
  }

  ghost predicate AskedToShut(cfg: Config, r: Run) {
    r.Then? && (AskedToShut(cfg, r.before) || AsksToShut(End(cfg, r.before), r.op))
  }

  ghost function AllNotices(cfg: Config, r: Run): seq<Functor> {
    match r
    case Begin => []
    case Then(before, op) =>
      AllNotices(cfg, before) + (if Enabled(End(cfg, before), op) then Notices(cfg, End(cfg, before), op) else [])
  }

  /** Over every run: the data of all sends, but for those that found the peer gone with
      nothing waiting, is what has been written followed by what waits, if there was no
      misread, and as long in any case; what was written is what write(2) took; and what was
      queued is what each step calls for, the user's callbacks with it; so are the half-closes. */
  lemma {:induction false} RunDoesWhatWasAsked(cfg: Config, r: Run)
    requires IsRun(cfg, r)
    ensures End(cfg, r).wire == AllWritten(cfg, r) && End(cfg, r).queued == AllNotices(cfg, r)
    ensures End(cfg, r).shutdowns == AllHalfCloses(cfg, r) && (End(cfg, r).asked <==> AskedToShut(cfg, r))
    ensures |AllTaken(cfg, r)| == |End(cfg, r).wire| + |End(cfg, r).out|
    ensures NoMisread(cfg, r) ==> AllTaken(cfg, r) == End(cfg, r).wire + End(cfg, r).out
  {
    RunAccumulates(cfg, r);
    RunConservesLength(cfg, r);
    if NoMisread(cfg, r) { RunConserves(cfg, r); }
  }

  lemma {:induction false} RunAccumulates(cfg: Config, r: Run)
    requires IsRun(cfg, r)
    ensures End(cfg, r).accepted == AllTaken(cfg, r)
    ensures End(cfg, r).wire == AllWritten(cfg, r) && End(cfg, r).queued == AllNotices(cfg, r)
    ensures End(cfg, r).shutdowns == AllHalfCloses(cfg, r) && (End(cfg, r).asked <==> AskedToShut(cfg, r))
  {
    if r.Then? {
      RunAccumulates(cfg, r.before);
      RunKeepsInterest(cfg, r.before);
      StepDoes(cfg, End(cfg, r.before), r.op);
      StepShuts(cfg, End(cfg, r.before), r.op);
    }
  }

  /** A connection that is closed stays closed, and one that was asked to close never goes
      back. */
  lemma StateAdvances(c: Conn, op: Op)
    requires Enabled(c, op) && AssertsOk(c, op)
    ensures c.state == Disconnected ==> Becomes(c, op) == Disconnected
    ensures c.state == Disconnecting ==> Becomes(c, op) in {Disconnecting, Disconnected}
  {
  }

  // ---------------------------------------------------------------- events

  /** The callbacks of a dispatch, in order; writing comes last. */
  ghost function RunCallbacks(cfg: Config, c: Conn, ran: seq<Callback>, eof: bool, w: WriteResult): Conn
    requires w.FitsIn(|c.out|)
    decreases |ran|
  {
    if ran == [] then c
    else if ran[0] == Write then c.HandleWrite(cfg, w)
    else if (ran[0] == Close || eof) && c.Open() then RunCallbacks(cfg, c.HandleClose(), ran[1..], eof, w)
    else RunCallbacks(cfg, c, ran[1..], eof, w)
  }

  lemma RunLast(cfg: Config, c: Conn, read: bool, write: bool, eof: bool, w: WriteResult)
    requires w.FitsIn(|c.out|)
    ensures var d := if read && eof && c.Open() then c.HandleClose() else c;
      RunCallbacks(cfg, c, (if read then [Read] else []) + (if write then [Write] else []), eof, w)
      == if write then d.HandleWrite(cfg, w) else d
  {
    var tail: seq<Callback> := if write then [Write] else [];
    var d := if read && eof && c.Open() then c.HandleClose() else c;
    assert RunCallbacks(cfg, d, tail, eof, w) == if write then d.HandleWrite(cfg, w) else d;
    if read { assert ([Read] + tail)[1..] == tail; } else { assert [] + tail == tail; }
  }

  /** An event runs what the channel dispatches. */
  lemma EventIsDispatch(cfg: Config, c: Conn, r: Mask, eof: bool, w: WriteResult)
    requires w.FitsIn(|c.out|)
    requires CloseEvent(r) || (ReadEvent(r) && eof) ==> c.ClosesOnce(r, eof)
    ensures c.HandleEvent(cfg, r, eof, w) == RunCallbacks(cfg, c, Dispatch(r, {Close, Read, Write}), eof, w)
  {
    var rest := (if ReadEvent(r) then [Read] else []) + (if POLLOUT in r then [Write] else []);
    var d := if CloseEvent(r) then c.HandleClose() else c;
    RunLast(cfg, d, ReadEvent(r), POLLOUT in r, eof, w);
    var all := Dispatch(r, {Close, Read, Write});
    assert all == (if CloseEvent(r) then [Close] else []) + rest;
    if CloseEvent(r) { assert all[1..] == rest; } else { assert all == rest; }
  }

  /** In terms of what is seen: the end of the stream or a hang-up closes and unwatches, and
      else POLLOUT writes what it can of what waits, half-closing with the last of it. */
  lemma EventDoes(cfg: Config, c: Conn, r: Mask, eof: bool, w: WriteResult)
    requires c.InterestOk() && c.Open() && w.FitsIn(|c.out|) && r <= REPORTABLE
    requires !(POLLHUP in r && POLLIN !in r && POLLPRI in r && eof)
    ensures var closes := (POLLHUP in r && POLLIN !in r) || ((POLLIN in r || POLLPRI in r) && eof);
      && (closes ==> c.ClosesOnce(r, eof))
      && (CloseEvent(r) || (ReadEvent(r) && eof) <==> closes)
      && var d := c.HandleEvent(cfg, r, eof, w);
         if closes then
           d.state == Disconnected && d.mask == {} && d.wire == c.wire && d.out == c.out
         else
           && d.state == c.state
           && d.wire == c.wire + (if POLLOUT in r && w.Wrote? then c.out[..w.n] else [])
           && d.out == (if POLLOUT in r && w.Wrote? then c.out[w.n..] else c.out)
           && (POLLOUT in d.mask <==> d.out != [])
           && d.shutdowns == c.shutdowns +
              (if POLLOUT in r && c.out != [] && w == Wrote(|c.out|) && c.state == Disconnecting then 1 else 0)
  {
    ReadEventMeans(r);
    if CloseEvent(r) || (ReadEvent(r) && eof) {
      assert !Writes(NONE_EVENT);
    } else {
      FlushDoes(cfg, c, w);
      WritesMeans(c.mask);
    }
  }

  lemma ReadEventMeans(r: Mask)
    requires r <= REPORTABLE
    ensures ReadEvent(r) <==> POLLIN in r || POLLPRI in r
  {
    assert forall e :: e in r * {POLLIN, POLLPRI, POLLRDHUP} <==> e in r && (e == POLLIN || e == POLLPRI);
    if POLLIN in r || POLLPRI in r {
      assert (if POLLIN in r then POLLIN else POLLPRI) in r * {POLLIN, POLLPRI, POLLRDHUP};
    }
  }

  // ---------------------------------------------------------------- the class

  /** The connection's descriptor: what was written to it, and its half-closes. */
  class Socket {
    var sent: seq<Byte>
    var halfCloses: nat

    constructor ()
      ensures sent == [] && halfCloses == 0
    {
      sent, halfCloses := [], 0;
    }

    method Write(data: seq<Byte>, r: WriteResult) returns (n: int)
      requires r.FitsIn(|data|)
      modifies this`sent
      ensures n == r.Value()
      ensures sent == old(sent) + if r.Wrote? then data[..r.n] else []
    {
      n := r.Value();
      if r.Wrote? { sent := sent + data[..r.n]; }
    }

    method ShutdownWrite()
      modifies this`halfCloses
      ensures halfCloses == old(halfCloses) + 1
    {
      halfCloses := halfCloses + 1;
    }
  }

  class TcpConnection {
    const cfg: Config
    const socket: Socket
    const channel: Channel
    const outputBuffer: B.Buffer
    var state: State
    /** The loop's queue, as far as it is about this connection, and how far it has run. */
    var queued: seq<Functor>
    var taken: nat
    ghost var accepted: seq<Byte>
    ghost var asked: bool

    ghost predicate Valid()
      reads outputBuffer
    {
      outputBuffer.Valid() && channel.callbacks == {Close, Read, Write}
    }

    ghost function View(): Conn
      reads this, socket, channel, outputBuffer, outputBuffer.data
      requires Valid()
    {
      Conn(state, outputBuffer.View().contents, channel.events, socket.sent, socket.halfCloses, accepted, asked,
        queued, taken)
    }

    constructor (fd: int, cfg: Config)
      ensures Valid() && fresh(socket) && fresh(channel) && fresh(outputBuffer) && fresh(outputBuffer.data)
      ensures View() == FRESH && this.cfg == cfg
    {
      this.cfg := cfg;
      socket := new Socket();
      channel := new Channel(fd, {Close, Read, Write});
      outputBuffer := new B.Buffer(1024);
      state, queued, taken, accepted, asked := Connecting, [], 0, [], false;
    }

    method QueueInLoop(f: Functor)
      requires Valid()
      modifies this`queued
      ensures View() == old(View()).Queue(f)
    {
      queued := queued + [f];
    }

    method SendInLoop(data: seq<Byte>, before: Byte, r: WriteResult)
      requires Valid() && r.FitsIn(|data|)
      modifies this, socket, channel`events, outputBuffer, outputBuffer.data
      ensures Valid() && (outputBuffer.data == old(outputBuffer.data) || fresh(outputBuffer.data))
      ensures View() == old(View()).SendInLoop(cfg, data, before, r)
    {
      if state == Disconnected {
        return;
      }
      var nWrote, remaining, errorOccurs := 0, |data|, false;
      ghost var c := View();
      var canWriteDirect := !channel.IsEnableWriteEvent();
      if canWriteDirect && outputBuffer.ReadableBytes() == 0 {
        nWrote := socket.Write(data, r);
        if nWrote >= 0 {
          remaining := remaining - nWrote;
          if remaining == 0 && cfg.writeCompleteSet {
            QueueInLoop(WriteComplete);
          }
        } else if r.errno != EWOULDBLOCK {
          if r.errno == EPIPE || r.errno == ECONNRESET {
            errorOccurs := true;
          }
        }
      }
      assert remaining <= |data|;
      assert errorOccurs <==> c.Direct() && r.PeerGone();
      if !errorOccurs {
        accepted := accepted + data;
        ghost var taken := View();
        if remaining > 0 {
          Defer(Tail(data, nWrote, before));
          assert View() == taken.Defer(cfg, Tail(data, nWrote, before));
        }
      }
    }

    /** The last part of `sendInLoop`: the high-water mark, the buffer, the interest. */
    method Defer(tail: seq<Byte>)
      requires Valid()
      modifies this`queued, channel`events, outputBuffer, outputBuffer.data
      ensures Valid() && (outputBuffer.data == old(outputBuffer.data) || fresh(outputBuffer.data))
      ensures View() == old(View()).Defer(cfg, tail)
    {
      var oldLen := outputBuffer.ReadableBytes();
      if oldLen + |tail| >= cfg.highWaterMark && oldLen < cfg.highWaterMark {
        if cfg.highWaterSet {
          QueueInLoop(HighWater(oldLen + |tail|));
        }
      }
      outputBuffer.Append(tail);
      if !channel.IsEnableWriteEvent() {
        channel.SetInterest(EnableWrite);
      }
    }

    /** `send`, from the loop's own thread if `inLoop`. */
    method Send(data: seq<Byte>, inLoop: bool, before: Byte, r: WriteResult)
      requires Valid() && r.FitsIn(|data|)
      modifies this, socket, channel`events, outputBuffer, outputBuffer.data
      ensures Valid() && (outputBuffer.data == old(outputBuffer.data) || fresh(outputBuffer.data))
      ensures View() == if inLoop then old(View()).Send(cfg, data, before, r) else old(View()).PostSend(data)
    {
      if state == Connected {
        if inLoop {
          SendInLoop(data, before, r);
        } else {
          QueueInLoop(PendingSend(data));
        }
      }
    }

    method HandleWrite(r: WriteResult)
      requires Valid() && r.FitsIn(outputBuffer.ReadableBytes())
      modifies this, socket, channel`events, outputBuffer
      ensures Valid() && outputBuffer.data == old(outputBuffer.data)
      ensures View() == old(View()).HandleWrite(cfg, r)
    {
      if channel.IsEnableWriteEvent() {
        var n := socket.Write(outputBuffer.Peek(), r);
        if n > 0 {
          outputBuffer.Retrieve(n);
          if outputBuffer.ReadableBytes() == 0 {
            channel.SetInterest(DisableWrite);
            if cfg.writeCompleteSet {
              QueueInLoop(WriteComplete);
            }
            if state == Disconnecting {
              ShutdownInLoop();
            }
          }
        }
      }
    }

    method ShutdownInLoop()
      requires Valid()
      modifies socket`halfCloses
      ensures View() == old(View()).ShutdownInLoop()
    {
      if !channel.IsEnableWriteEvent() {
        socket.ShutdownWrite();
      }
    }

    /** `shutdown`, from the loop's own thread if `inLoop`. */
    method Shutdown(inLoop: bool)
      requires Valid()
      modifies this`state, this`asked, this`queued, socket`halfCloses
      ensures View() == if inLoop then old(View()).Shutdown() else old(View()).PostShutdown()
    {
      if state == Connected {
        state := Disconnecting;
        asked := true;
        if inLoop {
          ShutdownInLoop();
        } else {
          QueueInLoop(PendingShutdown);
        }
      }
    }

    /** The loop runs the next functor of its queue. */
    method RunQueued(before: Byte, r: WriteResult)
      requires Valid() && taken < |queued| && r.FitsIn(SendLength(queued[taken]))
      modifies this, socket, channel`events, outputBuffer, outputBuffer.data
      ensures Valid() && (outputBuffer.data == old(outputBuffer.data) || fresh(outputBuffer.data))
      ensures View() == old(View()).RunQueued(cfg, before, r)
    {
      var f := queued[taken];
      taken := taken + 1;
      ghost var c := View();
      match f {
        case PendingForceClose => ForceCloseInLoop();
        case PendingSend(data) => SendInLoop(data, before, r);
        case PendingShutdown => ShutdownInLoop();
        case _ =>
      }
      assert View() == c.RunFunctor(cfg, f, before, r);
    }

    method ForceClose()
      requires Valid()
      modifies this`state, this`queued
      ensures View() == old(View()).ForceClose()
    {
      if state == Connected || state == Disconnecting {
        state := Disconnecting;
        QueueInLoop(PendingForceClose);
      }
    }

    method ForceCloseWithDelay()
      requires Valid()
      modifies this`state
      ensures View() == old(View()).ForceCloseWithDelay()
    {
      if state == Connected || state == Disconnecting {
        state := Disconnecting;
      }
    }

    method ForceCloseInLoop()
      requires Valid()
      modifies this`state, channel`events
      ensures View() == old(View()).ForceCloseInLoop()
    {
      if state == Connected || state == Disconnecting {
        HandleClose();
      }
    }

    method HandleClose()
      requires Valid() && (state == Connected || state == Disconnecting)
      modifies this`state, channel`events
      ensures View() == old(View()).HandleClose()
    {
      state := Disconnected;
      channel.SetInterest(DisableAll);
    }

    /** What the loop does for a reported channel: its events are set and dispatched. */
    method HandleEvent(r: Mask, eof: bool, w: WriteResult)
      requires Valid() && w.FitsIn(outputBuffer.ReadableBytes())
      requires CloseEvent(r) || (ReadEvent(r) && eof) ==> View().ClosesOnce(r, eof)
      modifies this, socket, channel`events, channel`revents, outputBuffer
      ensures Valid() && outputBuffer.data == old(outputBuffer.data)
      ensures View() == old(View()).HandleEvent(cfg, r, eof, w)
    {
      channel.SetReceiveEvent(r);
      var ran := channel.HandleEvent();
      if Close in ran {
        HandleClose();
      }
      if Read in ran && eof {
        HandleClose();
      }
      if Write in ran {
        HandleWrite(w);
      }
    }

    method ConnectEstablished()
      requires Valid() && state == Connecting
      modifies this`state, channel`events
      ensures View() == old(View()).Established()
    {
      state := Connected;
      channel.SetInterest(EnableRead);
    }

    method ConnectDestroyed()
      requires Valid()
      modifies this`state, channel`events
      ensures View() == old(View()).Destroyed()
    {
      if state == Connected {
        state := Disconnected;
        channel.SetInterest(DisableAll);
      }
    }
  }
}
