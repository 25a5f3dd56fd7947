/** The growable byte buffer of net/Buffer.h and net/Buffer.cpp.

    `Layout` is the buffer as a value: how large the vector is, where the readable
    slice starts and which bytes it holds. The functions on layouts say what each
    operation does to it; the class `Buffer` performs the same operations in place,
    byte by byte, and is proved to follow them. */
module Buffers {
  type Byte = b: int | 0 <= b < 256

  const CHEAP_PREPEND: nat := 0
  const EXTRA_BUF_SIZE: nat := 65535

  function Max(a: int, b: int): int { if a < b then b else a }

  datatype Layout = Layout(capacity: nat, reader: nat, contents: seq<Byte>) {
    ghost predicate Ok() {
      CHEAP_PREPEND <= reader && reader + |contents| <= capacity
    }

    function Writable(): (n: nat)
      requires reader + |contents| <= capacity
    {
      capacity - reader - |contents|
    }

    /** The most bytes one scatter read can deliver: the free tail, and the stack
        buffer too when the tail is shorter than it. */
    function Offered(): nat
      requires reader + |contents| <= capacity
    {
      Writable() + if Writable() < EXTRA_BUF_SIZE then EXTRA_BUF_SIZE else 0
    }

    function EnsureWritable(len: nat): Layout
      requires reader + |contents| <= capacity
    {
      if len <= Writable() then this
      else if Writable() + reader < len + CHEAP_PREPEND then this.(capacity := reader + |contents| + len)
      else this.(reader := CHEAP_PREPEND)
    }

    function Append(data: seq<Byte>): Layout
      requires reader + |contents| <= capacity
    {
      EnsureWritable(|data|).(contents := contents + data)
    }

    function Retrieve(len: nat): Layout
      requires len <= |contents|
    {
      if len < |contents| then this.(reader := reader + len, contents := contents[len..])
      else Layout(capacity, CHEAP_PREPEND, [])
    }

    function Read(delivered: seq<Byte>): Layout
      requires reader + |contents| <= capacity
    {
      if |delivered| <= Writable() then this.(contents := contents + delivered)
      else this.(contents := contents + delivered[..Writable()]).Append(delivered[Writable()..])
    }
  }

  /** Making room keeps the bytes, really makes the room, and never grows the vector
      past twice of what will then be readable: the resize branch is only taken when
      the bytes already consumed could not pay for the request. */
  lemma EnsureWritableMakesRoom(l: Layout, len: nat)
    requires l.Ok()
    ensures var m := l.EnsureWritable(len);
      && m.Ok() && m.contents == l.contents && len <= m.Writable()
      && l.capacity <= m.capacity <= Max(l.capacity, 2 * (|l.contents| + len))
  {
  }

  // ---------------------------------------------------------------- whole runs

  datatype Op =
    | Append(data: seq<Byte>)
    | ReadFd(delivered: seq<Byte>)
    | ReadFdFailed
    | Retrieve(len: nat)

  ghost predicate Legal(l: Layout, op: Op) {
    match op
    case Append(_) => true
    case ReadFd(d) => l.Ok() && |d| <= l.Offered()
    case ReadFdFailed => true
    case Retrieve(len) => len <= |l.contents|
  }

  ghost function Step(l: Layout, op: Op): Layout
    requires l.Ok() && Legal(l, op)
  {
    match op
    case Append(d) => l.Append(d)
    case ReadFd(d) => l.Read(d)
    case ReadFdFailed => l
    case Retrieve(len) => l.Retrieve(len)
  }

  lemma StepKeepsOk(l: Layout, op: Op)
    requires l.Ok() && Legal(l, op)
    ensures Step(l, op).Ok()
    ensures Step(l, op).contents
      == (match op
          case Append(d) => l.contents + d
          case ReadFd(d) => l.contents + d
          case ReadFdFailed => l.contents
          case Retrieve(len) => l.contents[len..])
    ensures l.capacity <= Step(l, op).capacity <= Max(l.capacity, 2 * |Step(l, op).contents|)
  {
    match op {
      case ReadFd(d) =>
        if l.Writable() < |d| {
          assert l.contents + d[..l.Writable()] + d[l.Writable()..] == l.contents + d;
        }
      case _ =>
    }
  }

  /** A run, newest operation last: each entry is an operation and the layout it left. */
  datatype Run = Start(initSize: nat) | Then(before: Run, op: Op)

  ghost predicate LegalRun(r: Run) {
    match r
    case Start(_) => true
    case Then(before, op) => LegalRun(before) && End(before).Ok() && Legal(End(before), op)
  }

  ghost function End(r: Run): Layout {
    match r
    case Start(n) => Layout(n, CHEAP_PREPEND, [])
    case Then(before, op) =>
      if End(before).Ok() && Legal(End(before), op) then Step(End(before), op) else End(before)
  }

  /** Everything appended or read from a descriptor, in order. */
  ghost function Put(r: Run): seq<Byte> {
    match r
    case Start(_) => []
    case Then(before, Append(d)) => Put(before) + d
    case Then(before, ReadFd(d)) => Put(before) + d
    case Then(before, _) => Put(before)
  }

  /** Everything retrieved, in order. */
  ghost function Taken(r: Run): seq<Byte> {
    match r
    case Start(_) => []
    case Then(before, Retrieve(len)) =>
      Taken(before) + if len <= |End(before).contents| then End(before).contents[..len] else []
    case Then(before, _) => Taken(before)
  }

  /** The longest readable slice any state of the run had. */
  ghost function Peak(r: Run): nat {
    match r
    case Start(_) => 0
    case Then(before, _) => Max(Peak(before), |End(r).contents|)
  }

  /** The buffer is a byte queue: in every reachable state what went in is what came
      out followed by what is still readable, and the indices are in order. */
  lemma {:induction false} RunIsByteQueue(r: Run)
    requires LegalRun(r)
    ensures End(r).Ok()
    ensures Put(r) == Taken(r) + End(r).contents
  {
    match r {
      case Start(_) =>
      case Then(before, op) =>
        RunIsByteQueue(before);
        StepKeepsOk(End(before), op);
        match op {
          case Retrieve(len) =>
            var c := End(before).contents;
            assert c == c[..len] + c[len..];
            assert Taken(before) + c == Taken(before) + c[..len] + c[len..];
          case Append(d) => assert Taken(before) + End(before).contents + d == Taken(before) +
            (End(before).contents + d);
          case ReadFd(d) => assert Taken(before) + End(before).contents + d == Taken(before) +
            (End(before).contents + d);
          case ReadFdFailed =>
        }
    }
  }

  ghost function InitSize(r: Run): nat {
    match r
    case Start(n) => n
    case Then(before, _) => InitSize(before)
  }

  /** Memory stays proportional to the backlog: no reachable vector is larger than its
      initial size or twice the longest readable slice so far, whichever is more. */
  lemma {:induction false} RunCapacityBound(r: Run)
    requires LegalRun(r)
    ensures |End(r).contents| <= Peak(r)
    ensures InitSize(r) <= End(r).capacity <= Max(InitSize(r), 2 * Peak(r))
  {
    match r {
      case Start(_) =>
      case Then(before, op) =>
        RunCapacityBound(before);
        StepKeepsOk(End(before), op);
    }
  }

  // ---------------------------------------------------------------- the class

  /** A buffer read empty starts over: all its room is behind the indices again. */
  lemma {:induction false} EmptyBufferIsAllRoom(r: Run)
    requires LegalRun(r)
    ensures End(r).contents == [] ==> End(r).reader == 0 && End(r).Ok() && End(r).Writable() == End(r).capacity
  {
    RunIsByteQueue(r);
    if r.Then? {
      RunIsByteQueue(r.before);
      EmptyBufferIsAllRoom(r.before);
    }
  }

  /** The vector grows only when what is kept and what comes do not fit in it. */
  lemma GrowsOnlyIfFull(l: Layout, data: seq<Byte>)
    requires l.Ok()
    ensures l.Append(data).capacity > l.capacity ==> |l.contents| + |data| > l.capacity
    ensures l.Append(data).capacity == l.capacity ==> l.Append(data).Ok() && |l.contents| + |data| <= l.capacity
  {
  }

  /** One read can take 65535 bytes, and never less than there is room for. */
  lemma ReadTakesMuch(l: Layout)
    requires l.Ok()
    ensures 65535 <= l.Offered() && l.Writable() <= l.Offered() <= l.Writable() + 65535
    ensures l.Writable() >= 65535 ==> l.Offered() == l.Writable()
  {
  }

  class Buffer {
    var data: array<Byte>
    var readerIdx: nat
    var writerIdx: nat

    ghost predicate Valid()
      reads this
    {
      CHEAP_PREPEND <= readerIdx <= writerIdx <= data.Length
    }

    ghost function View(): (l: Layout)
      reads this, data
      requires Valid()
      ensures l.Ok()
    {
      Layout(data.Length, readerIdx, data[readerIdx..writerIdx])
    }

    constructor (initSize: nat)
      ensures Valid() && fresh(data)
      ensures View() == Layout(initSize, CHEAP_PREPEND, [])
    {
      data := new Byte[initSize](_ => 0);
      readerIdx := CHEAP_PREPEND;
      writerIdx := CHEAP_PREPEND;
    }

    function ReadableBytes(): (n: nat)
      reads this, data
      requires Valid()
      ensures n == |View().contents|
    {
      writerIdx - readerIdx
    }

    function WritableBytes(): (n: nat)
      reads this, data
      requires Valid()
      ensures n == View().Writable()
    {
      data.Length - writerIdx
    }

    /** What `peek` points at: the readable slice. */
    function Peek(): (bytes: seq<Byte>)
      reads this, data
      requires Valid()
      ensures bytes == View().contents
    {
      data[readerIdx..writerIdx]
    }

    function PrependableBytes(): nat
      reads this
    {
      readerIdx
    }

    /** `buffer_.resize`: a larger vector with the old bytes at the same positions. */
    method Resize(size: nat)
      requires Valid() && data.Length <= size
      modifies this`data
      ensures Valid() && fresh(data) && data.Length == size
      ensures data[..old(data.Length)] == old(data[..])
    {
      var grown := new Byte[size](_ => 0);
      var i := 0;
      while i < data.Length
        modifies grown
        invariant 0 <= i <= data.Length
        invariant grown[..i] == data[..i]
      {
        grown[i] := data[i];
        i := i + 1;
      }
      assert grown[..data.Length] == data[..];
      data := grown;
    }

    /** The overlapping forward copy of the readable slice to the front. */
    method MoveToFront()
      requires Valid() && CHEAP_PREPEND < readerIdx
      modifies this`readerIdx, this`writerIdx, data
      ensures Valid()
      ensures View() == old(View()).(reader := CHEAP_PREPEND)
    {
      ghost var before := data[..];
      var readable := ReadableBytes();
      var i := 0;
      while i < readable
        modifies data
        invariant 0 <= i <= readable
        invariant data[CHEAP_PREPEND..CHEAP_PREPEND + i] == before[readerIdx..readerIdx + i]
        invariant data[CHEAP_PREPEND + i..] == before[CHEAP_PREPEND + i..]
      {
        assert data[readerIdx + i] == data[CHEAP_PREPEND + i..][readerIdx - CHEAP_PREPEND] == before[readerIdx + i];
        ghost var rest := data[CHEAP_PREPEND + i..];
        data[CHEAP_PREPEND + i] := data[readerIdx + i];
        i := i + 1;
        assert data[CHEAP_PREPEND + i..] == rest[1..] == before[CHEAP_PREPEND + i..];
      }
      readerIdx := CHEAP_PREPEND;
      writerIdx := readerIdx + readable;
      assert readable == writerIdx - readerIdx;
    }

    method MakeSpace(len: nat)
      requires Valid() && WritableBytes() < len
      modifies this, data
      ensures Valid() && (data == old(data) || fresh(data))
      ensures View() == old(View()).EnsureWritable(len)
    {
      var remainLen := WritableBytes() + PrependableBytes();
      if remainLen < len + CHEAP_PREPEND {
        ghost var was := data[..];
        Resize(writerIdx + len);
        assert data[readerIdx..writerIdx] == data[..|was|][readerIdx..writerIdx] == was[readerIdx..writerIdx];
      } else {
        assert CHEAP_PREPEND < readerIdx;
        MoveToFront();
      }
    }

    method EnsureWritableBytes(len: nat)
      requires Valid()
      modifies this, data
      ensures Valid() && (data == old(data) || fresh(data))
      ensures View() == old(View()).EnsureWritable(len)
      ensures len <= WritableBytes()
    {
      if WritableBytes() < len {
        MakeSpace(len);
      }
      assert WritableBytes() >= len;
    }

    method Append(bytes: seq<Byte>)
      requires Valid()
      modifies this, data
      ensures Valid() && (data == old(data) || fresh(data))
      ensures View() == old(View()).Append(bytes)
    {
      EnsureWritableBytes(|bytes|);
      ghost var kept := data[..writerIdx];
      CopyIn(bytes);
      HasWritten(|bytes|);
      assert data[..writerIdx] == kept + bytes;
      assert data[readerIdx..writerIdx] == kept[readerIdx..] + bytes;
    }

    /** `std::copy(data, data + len, beginWrite())`. */
    method CopyIn(bytes: seq<Byte>)
      requires Valid() && |bytes| <= WritableBytes()
      modifies data
      ensures data[..writerIdx] == old(data[..writerIdx])
      ensures data[writerIdx..writerIdx + |bytes|] == bytes
    {
      var i := 0;
      while i < |bytes|
        invariant 0 <= i <= |bytes|
        invariant data[..writerIdx] == old(data[..writerIdx])
        invariant data[writerIdx..writerIdx + i] == bytes[..i]
      {
        data[writerIdx + i] := bytes[i];
        i := i + 1;
      }
    }

    method HasWritten(len: nat)
      requires Valid() && len <= WritableBytes()
      modifies this`writerIdx
      ensures Valid() && writerIdx == old(writerIdx) + len
    {
      writerIdx := writerIdx + len;
    }

    method Retrieve(len: nat)
      requires Valid() && len <= ReadableBytes()
      modifies this`readerIdx, this`writerIdx
      ensures Valid()
      ensures View() == old(View()).Retrieve(len)
    {
      if len < ReadableBytes() {
        readerIdx := readerIdx + len;
      } else {
        RetrieveAll();
      }
    }

    method RetrieveAll()
      requires Valid()
      modifies this`readerIdx, this`writerIdx
      ensures Valid()
      ensures View() == Layout(data.Length, CHEAP_PREPEND, [])
    {
      readerIdx := CHEAP_PREPEND;
      writerIdx := CHEAP_PREPEND;
    }

    method RetrieveAsString(len: nat) returns (s: seq<Byte>)
      requires Valid() && len <= ReadableBytes()
      modifies this`readerIdx, this`writerIdx
      ensures Valid()
      ensures s + View().contents == old(View().contents) && |s| == len
      ensures View() == old(View()).Retrieve(len)
    {
      s := data[readerIdx..readerIdx + len];
      Retrieve(len);
    }

    /** `readv` on the free tail and the stack buffer: the kernel fills the first
        vector before the second. `delivered` is what the descriptor yields. */
    method Readv(delivered: seq<Byte>, extra: array<Byte>)
      requires Valid() && |delivered| <= WritableBytes() + extra.Length
      requires extra != data
      modifies data, extra
      ensures data[..writerIdx] == old(data[..writerIdx])
      ensures |delivered| <= WritableBytes() ==> data[writerIdx..writerIdx + |delivered|] == delivered
      ensures |delivered| > WritableBytes() ==>
        && data[writerIdx..] == delivered[..WritableBytes()]
        && extra[..|delivered| - WritableBytes()] == delivered[WritableBytes()..]
    {
      var first := if |delivered| <= WritableBytes() then |delivered| else WritableBytes();
      CopyIn(delivered[..first]);
      var i := first;
      while i < |delivered|
        invariant first <= i <= |delivered|
        invariant data[..writerIdx] == old(data[..writerIdx])
        invariant data[writerIdx..writerIdx + first] == delivered[..first]
        invariant extra[..i - first] == delivered[first..i]
      {
        extra[i - first] := delivered[i];
        i := i + 1;
      }
    }

    /** The scatter read. `outcome` is what `readv` answered: the delivered bytes, no
        more than were offered, or a failure. */
    method ReadFd(failed: bool, delivered: seq<Byte>) returns (n: int)
      requires Valid()
      requires !failed ==> |delivered| <= View().Offered()
      modifies this, data
      ensures Valid() && (data == old(data) || fresh(data))
      ensures n == if failed then -1 else |delivered|
      ensures View() == if failed then old(View()) else old(View()).Read(delivered)
    {
      var extraBuf := new Byte[EXTRA_BUF_SIZE](_ => 0);
      var writable := WritableBytes();
      if failed {
        return -1;
      }
      Readv(delivered, extraBuf);
      n := |delivered|;
      if n <= writable {
        ghost var was := data[..writerIdx];
        writerIdx := writerIdx + n;
        assert data[..writerIdx] == was + delivered;
        assert data[readerIdx..writerIdx] == was[readerIdx..] + delivered;
      } else {
        ghost var was := data[..writerIdx];
        writerIdx := data.Length;
        assert data[..writerIdx] == was + delivered[..writable];
        assert data[readerIdx..writerIdx] == was[readerIdx..] + delivered[..writable];
        Append(extraBuf[..n - writable]);
      }
    }
  }
}
