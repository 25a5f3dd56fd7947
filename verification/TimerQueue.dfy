/** Sets of timer entries in the order std::set keeps them: by time, then by address. */
module EntrySets {
  type Time = int

  const UINTPTR_MAX: nat := 0xffff_ffff_ffff_ffff

  /** Where a timer can be: no object starts at the last address. */
  type Addr = a: nat | a < UINTPTR_MAX

  datatype Entry = Entry(when: Time, addr: Addr)

  predicate Less(a: Entry, b: Entry) {
    a.when < b.when || (a.when == b.when && a.addr < b.addr)
  }

  ghost predicate Sorted(s: seq<Entry>) {
    forall i, j :: 0 <= i < j < |s| ==> Less(s[i], s[j])
  }

  function Insert(s: seq<Entry>, e: Entry): seq<Entry> {
    if s == [] || Less(e, s[0]) then [e] + s
    else if s[0] == e then s
    else [s[0]] + Insert(s[1..], e)
  }

  function Erase(s: seq<Entry>, e: Entry): seq<Entry> {
    if s == [] then [] else if s[0] == e then s[1..] else [s[0]] + Erase(s[1..], e)
  }

  /** `lower_bound`: the first position whose entry is not less than `(when, addr)`. */
  function LowerBound(s: seq<Entry>, when: Time, addr: nat): (k: nat)
    ensures k <= |s|
  {
    if s == [] then 0
    else if s[0].when < when || (s[0].when == when && s[0].addr < addr) then 1 + LowerBound(s[1..], when, addr)
    else 0
  }

  lemma {:induction false} InsertInOrder(s: seq<Entry>, e: Entry)
    requires Sorted(s)
    ensures Sorted(Insert(s, e))
    ensures forall x :: x in Insert(s, e) <==> x in s || x == e
    ensures e !in s ==> |Insert(s, e)| == |s| + 1
    ensures Insert(s, e)[0] == if s == [] || Less(e, s[0]) then e else s[0]
  {
    if s != [] && !Less(e, s[0]) && s[0] != e {
      InsertInOrder(s[1..], e);
      var r := Insert(s[1..], e);
      forall x | x in r ensures Less(s[0], x) {
        if x in s[1..] { var i :| 0 <= i < |s[1..]| && s[1..][i] == x; assert s[i + 1] == x; }
      }
      forall x ensures x in s <==> x == s[0] || x in s[1..] { }
    }
  }

  lemma {:induction false} EraseInOrder(s: seq<Entry>, e: Entry)
    requires Sorted(s)
    ensures Sorted(Erase(s, e))
    ensures forall x :: x in Erase(s, e) <==> x in s && x != e
    ensures |Erase(s, e)| == |s| - if e in s then 1 else 0
    ensures Erase(s, e) != [] ==> s != [] && s[0].when <= Erase(s, e)[0].when
  {
    if s != [] {
      forall x ensures x in s <==> x == s[0] || x in s[1..] { }
      forall x | x in s[1..] ensures Less(s[0], x) {
        var i :| 0 <= i < |s[1..]| && s[1..][i] == x; assert s[i + 1] == x;
      }
      if s[0] != e {
        EraseInOrder(s[1..], e);
        forall x | x in Erase(s[1..], e) ensures Less(s[0], x) { }
      }
    }
  }

  /** The lower bound of `(now, UINTPTR_MAX)` separates the entries due from the rest. */
  lemma {:induction false} LowerBoundSplits(s: seq<Entry>, now: Time)
    requires Sorted(s)
    ensures var k := LowerBound(s, now, UINTPTR_MAX);
      && (forall x :: x in s[..k] <==> x in s && x.when <= now)
      && (forall x :: x in s[k..] <==> x in s && x.when > now)
      && Sorted(s[..k]) && Sorted(s[k..])
  {
    if s != [] {
      if s[0].when > now {
        forall x | x in s ensures x.when > now { var i :| 0 <= i < |s| && s[i] == x; }
      } else {
        LowerBoundSplits(s[1..], now);
        var k := LowerBound(s[1..], now, UINTPTR_MAX);
        assert s[..k + 1] == [s[0]] + s[1..][..k] && s[k + 1..] == s[1..][k..];
        forall x ensures x in s <==> x == s[0] || x in s[1..] { }
      }
    }
  }
}

/** The timer queue of net/TimerQueue.cpp, with the timers of net/Timer.h.

    Timers live in an explicit heap, so that an address freed can be handed out again at
    once. An alarm is a sequence of steps, so that the callbacks it runs can add and
    cancel timers between them. */
module TimerQueues {
  import opened EntrySets

  /** `interval` is the truncated number of microseconds `restart` adds. */
  datatype Timer = Timer(seqNo: nat, expiration: Time, repeat: bool, interval: nat)

  /** A timer's address and sequence number: `ActiveTimer`, and a `TimerId`'s content. */
  datatype Id = Id(addr: Addr, seqNo: nat)

  /** The one-shot timerfd: armed at `at` to fire at `deadline`, or fired and not read. */
  datatype TimerFd = Quiet | Armed(deadline: Time, at: Time) | Fired

  /** One callback run: whose, in which alarm. */
  datatype Ran = Ran(seqNo: nat, at: Time, repeat: bool, interval: nat)

  function Max(a: int, b: int): int { if a < b then b else a }

  /** `Timestamp::getInvalid`. */
  const INVALID: Time := 0

  datatype Queue = Queue(
    heap: map<Addr, Timer>,
    timers: seq<Entry>,
    active: set<Id>,
    calling: bool,
    canceling: set<Id>,
    /** The expired vector of the alarm being handled: not yet run, and run. */
    todo: seq<Entry>,
    done: seq<Entry>,
    alarmAt: Time,
    fd: TimerFd,
    clock: Time,
    nextSeq: nat,
    /** Histories: where each sequence number was allocated, which were freed, what ran. */
    created: map<nat, Addr>,
    freed: set<nat>,
    ran: seq<Ran>)
  {
    // ---------------------------------------------------------- operations

    function EntryOf(a: Addr): Entry
      requires a in heap
    {
      Entry(heap[a].expiration, a)
    }

    function IdOf(a: Addr): Id
      requires a in heap
    {
      Id(a, heap[a].seqNo)
    }

    /** `resetTimerFd`: at least 100 microseconds from the clock's reading. */
    function Arm(expiration: Time): Queue {
      this.(fd := Armed(clock + Max(expiration - clock, 100), clock))
    }

    /** `insert`, without its result. */
    function Insert(a: Addr): Queue
      requires a in heap
    {
      this.(timers := EntrySets.Insert(timers, EntryOf(a)), active := active + {IdOf(a)})
    }

    function EarliestChanged(a: Addr): bool
      requires a in heap
    {
      timers == [] || heap[a].expiration < timers[0].when
    }

    /** `new Timer` at an address of the allocator's choice. */
    function Allocate(a: Addr, t: Timer): Queue {
      this.(heap := heap[a := t], nextSeq := Max(nextSeq, t.seqNo + 1), created := created[t.seqNo := a])
    }

    function AddInLoop(a: Addr): Queue
      requires a in heap
    {
      var q := Insert(a);
      if EarliestChanged(a) then q.Arm(heap[a].expiration) else q
    }

    /** `delete`. */
    function Free(a: Addr): Queue
      requires a in heap
    {
      this.(heap := heap - {a}, freed := freed + {heap[a].seqNo})
    }

    function Cancel(id: Id): Queue {
      if id in active && id.addr in heap then
        this.(timers := Erase(timers, EntryOf(id.addr))).Free(id.addr).(active := active - {id})
      else if calling then this.(canceling := canceling + {id})
      else this
    }

    function Tick(now: Time): Queue {
      this.(clock := now, fd := if fd.Armed? && fd.deadline <= now then Fired else fd)
    }

    /** The first half of `handelRead`: the read of the timerfd and `getExpired`. */
    function Alarm(): Queue {
      var k := LowerBound(timers, clock, UINTPTR_MAX);
      var expired := timers[..k];
      this.(timers := timers[k..],
            active := active - IdsOf(heap, expired),
            calling := true, canceling := {}, todo := expired, done := [], alarmAt := clock,
            fd := if fd.Fired? then Quiet else fd)
    }

    function RunNext(): Queue
      requires todo != [] && todo[0].addr in heap
    {
      var t := heap[todo[0].addr];
      this.(todo := todo[1..], done := done + [todo[0]],
            ran := ran + [Ran(t.seqNo, alarmAt, t.repeat, t.interval)])
    }

    /** `restart` with the time of the alarm, in place. */
    function Restart(a: Addr): Queue
      requires a in heap
    {
      var t := heap[a];
      this.(heap := heap[a := t.(expiration := if t.repeat then alarmAt + t.interval else INVALID)])
    }

    /** One pass of the loop of `reset`. */
    function ResetOne(): Queue
      requires done != [] && done[0].addr in heap
    {
      var a := done[0].addr;
      var q := this.(done := done[1..]);
      if heap[a].repeat && IdOf(a) !in canceling then q.Restart(a).Insert(a) else q.Free(a)
    }

    /** The end of `reset`. */
    function Rearm(): Queue {
      if timers != [] && timers[0].when > 0 then Arm(timers[0].when) else this
    }

    // ---------------------------------------------------------- invariants

    ghost predicate EntryOk(e: Entry) {
      e.addr in heap && heap[e.addr].expiration == e.when
    }

    ghost predicate Batched(e: Entry) { e in todo || e in done }

    /** The two indexes hold the same timers under their current expirations. */
    ghost predicate SetsMatch() {
      && Sorted(timers)
      && (forall e :: e in timers ==> EntryOk(e))
      && (forall id :: id in active <==> id.addr in heap && id == IdOf(id.addr) && EntryOf(id.addr) in timers)
    }

    /** Besides, the expiring timers are in neither, and the heap holds nothing else. */
    ghost predicate IndexOk() {
      && SetsMatch() && Sorted(done + todo)
      && (forall e :: e in timers ==> !Batched(e))
      && (forall e :: Batched(e) ==> EntryOk(e))
      && (forall a :: a in heap ==> EntryOf(a) in timers || Batched(EntryOf(a)))
    }

    /** The timer at `a` is in neither index nor batch, and otherwise all is in order. */
    ghost predicate LacksOnly(a: Addr) {
      && a in heap && SetsMatch() && Sorted(done + todo)
      && (forall e :: e in timers ==> !Batched(e) && e.addr != a)
      && (forall e :: Batched(e) ==> EntryOk(e) && e.addr != a)
      && (forall b :: b in heap && b != a ==> EntryOf(b) in timers || Batched(EntryOf(b)))
    }

    /** Every sequence number handed out belongs to one timer, which is at the address it
        was created at or has been freed. */
    ghost predicate LedgerOk() {
      && (forall n :: n in created ==> n < nextSeq)
      && (forall n :: n in freed ==> n in created)
      && (forall a :: a in heap ==> heap[a].seqNo in created && created[heap[a].seqNo] == a && heap[a].seqNo !in freed)
      && (forall n :: n in created && n !in freed ==> created[n] in heap && heap[created[n]].seqNo == n)
    }

    /** The record of an earlier run of a timer tells the timer's own interval. */
    ghost predicate Faithful(a: Addr, r: Ran)
      requires a in heap
    {
      r.seqNo == heap[a].seqNo ==> r.repeat == heap[a].repeat && r.interval == heap[a].interval
    }

    /** A timer still to run that ran before repeats, and is not due too early. */
    ghost predicate WaitsLongEnough(a: Addr, r: Ran)
      requires a in heap
    {
      r.seqNo == heap[a].seqNo ==> r.repeat && r.at + r.interval <= heap[a].expiration
    }

    ghost predicate TimingOk() {
      && alarmAt <= clock
      && (forall e :: e in todo ==> e.when <= alarmAt)
      && (forall r :: r in ran ==> r.at <= alarmAt && r.seqNo in created)
      && (forall a, r :: a in heap && r in ran ==> Faithful(a, r))
      && (forall a, r :: a in heap && EntryOf(a) !in done && r in ran ==> WaitsLongEnough(a, r))
      && (forall i, j :: 0 <= i < j < |ran| && ran[i].seqNo == ran[j].seqNo ==>
            ran[i].repeat && ran[i].at + ran[i].interval <= ran[j].at)
    }

    ghost predicate FdInTime()
      requires timers != []
    {
      fd.Fired? || (fd.Armed? && fd.deadline <= Max(timers[0].when, fd.at + 100))
    }

    /** Outside an alarm, pending timers have the timerfd armed in time, or fired. Within
        one, this is kept up for a first timer the end of `reset` would take for invalid. */
    ghost predicate ArmingOk() {
      && clock > 0 && (calling ==> alarmAt > 0)
      && (fd.Armed? ==> fd.at <= clock < fd.deadline)
      && (timers != [] && (!calling || timers[0].when <= 0) ==> FdInTime())
    }

    ghost predicate Inv() {
      IndexOk() && LedgerOk() && TimingOk() && ArmingOk() && (!calling ==> todo == [] && done == [])
    }
  }

  // ---------------------------------------------------------------- the steps

  datatype Step =
    | Add(addr: Addr, timer: Timer)
    | Cancel(id: Id)
    | Tick(now: Time)
    | Alarm
    | RunNext
    | Finish

  /** The allocator returns an address not in use; sequence numbers are drawn from one
      counter shared with other queues; the clock does not go back. */
  ghost predicate Enabled(q: Queue, s: Step) {
    match s
    case Add(a, t) => a !in q.heap && t.seqNo !in q.created
    case Cancel(_) => true
    case Tick(now) => q.clock <= now
    case Alarm => !q.calling
    case RunNext => q.calling && q.todo != []
    case Finish => q.calling && q.todo == []
  }

  /** `reset` over the timers that ran. */
  ghost function ResetAll(q: Queue): Queue
    decreases |q.done|
  {
    if q.done == [] || q.done[0].addr !in q.heap then q else ResetAll(q.ResetOne())
  }

  /** A timer to run that is no longer in the heap would stop the run; `RunNextInRun` shows
      there is none. */
  ghost function Next(q: Queue, s: Step): Queue
    requires Enabled(q, s)
  {
    match s
    case Add(a, t) => q.Allocate(a, t).AddInLoop(a)
    case Cancel(id) => q.Cancel(id)
    case Tick(now) => q.Tick(now)
    case Alarm => q.Alarm()
    case RunNext => if q.todo[0].addr in q.heap then q.RunNext() else q
    case Finish => ResetAll(q.(calling := false)).Rearm()
  }

  /** Live and expiring entries never share an address. */
  lemma EntriesByAddress(q: Queue, e: Entry, f: Entry)
    requires q.IndexOk() && e.addr == f.addr
    requires (e in q.timers || q.Batched(e)) && (f in q.timers || q.Batched(f))
    ensures e == f && e == q.EntryOf(e.addr)
  {
    assert q.EntryOk(e) && q.EntryOk(f);
  }

  lemma LiveIsNotBatched(q: Queue, e: Entry, f: Entry)
    requires q.IndexOk() && e in q.timers && q.Batched(f)
    ensures e.addr != f.addr
  {
    assert q.EntryOk(e) && q.EntryOk(f);
  }

  lemma BatchSplit(q: Queue)
    requires q.IndexOk()
    ensures Sorted(q.todo) && Sorted(q.done)
    ensures forall e :: e in q.done + q.todo <==> q.Batched(e)
    ensures forall e :: !(e in q.todo && e in q.done)
    ensures q.todo != [] ==> q.todo[0] !in q.todo[1..]
    ensures q.done != [] ==> q.done[0] !in q.done[1..]
  {
    var b := q.done + q.todo;
    forall i, j | 0 <= i < j < |q.todo| ensures Less(q.todo[i], q.todo[j]) {
      assert b[|q.done| + i] == q.todo[i] && b[|q.done| + j] == q.todo[j];
    }
    forall i, j | 0 <= i < j < |q.done| ensures Less(q.done[i], q.done[j]) {
      assert b[i] == q.done[i] && b[j] == q.done[j];
    }
    forall i, j | 0 <= i < |q.done| && 0 <= j < |q.todo| ensures q.done[i] != q.todo[j] {
      assert b[i] == q.done[i] && b[|q.done| + j] == q.todo[j];
    }
    forall j | 0 <= j < |q.todo| - 1 ensures q.todo[1..][j] != q.todo[0] {
      assert Less(q.todo[0], q.todo[j + 1]);
    }
    forall j | 0 <= j < |q.done| - 1 ensures q.done[1..][j] != q.done[0] {
      assert Less(q.done[0], q.done[j + 1]);
    }
  }

  // ---------------------------------------------------------------- the indexes

  function IdsOf(heap: map<Addr, Timer>, s: seq<Entry>): set<Id> {
    set e | e in s && e.addr in heap :: Id(e.addr, heap[e.addr].seqNo)
  }

  /** The indexes agree in size, as the code asserts throughout. */
  lemma SizesAgree(q: Queue)
    requires q.SetsMatch()
    ensures |q.timers| == |q.active|
  {
    forall i, j | 0 <= i < j < |q.timers| ensures q.timers[i].addr != q.timers[j].addr {
      assert q.EntryOk(q.timers[i]) && q.EntryOk(q.timers[j]) && Less(q.timers[i], q.timers[j]);
    }
    forall e | e in q.timers ensures e.addr in q.heap { assert q.EntryOk(e); }
    CountIds(q.heap, q.timers);
    forall id ensures id in q.active <==> id in IdsOf(q.heap, q.timers) {
      if id in q.active { assert q.EntryOf(id.addr) in q.timers; }
      if e :| e in q.timers && e.addr in q.heap && id == q.IdOf(e.addr) {
        assert q.EntryOk(e);
      }
    }
    assert q.active == IdsOf(q.heap, q.timers);
  }

  lemma {:induction false} CountIds(heap: map<Addr, Timer>, s: seq<Entry>)
    requires forall e :: e in s ==> e.addr in heap
    requires forall i, j :: 0 <= i < j < |s| ==> s[i].addr != s[j].addr
    ensures |IdsOf(heap, s)| == |s|
  {
    if s == [] {
      assert IdsOf(heap, s) == {};
    } else {
      var rest, last := s[..|s| - 1], s[|s| - 1];
      assert s == rest + [last];
      CountIds(heap, rest);
      AddedId(heap, rest, last);
    }
  }

  lemma AddedId(heap: map<Addr, Timer>, s: seq<Entry>, last: Entry)
    requires last.addr in heap && forall e :: e in s ==> e.addr != last.addr
    ensures var id := Id(last.addr, heap[last.addr].seqNo);
      && id !in IdsOf(heap, s) && IdsOf(heap, s + [last]) == IdsOf(heap, s) + {id}
      && |IdsOf(heap, s + [last])| == |IdsOf(heap, s)| + 1
  {
    var id := Id(last.addr, heap[last.addr].seqNo);
    forall x ensures x in IdsOf(heap, s + [last]) <==> x in IdsOf(heap, s) + {id} {
      if x in IdsOf(heap, s) {
        var e :| e in s && e.addr in heap && x == Id(e.addr, heap[e.addr].seqNo);
        assert e in s + [last];
      }
      assert last in s + [last];
    }
    assert IdsOf(heap, s + [last]) == IdsOf(heap, s) + {id};
  }

  /** Inserting a timer that is in neither index nor batch. */
  lemma InsertKeepsIndex(q: Queue, a: Addr)
    requires q.LacksOnly(a)
    ensures q.Insert(a).IndexOk()
    ensures |q.Insert(a).timers| == |q.timers| + 1
    ensures q.EntryOf(a) !in q.timers && q.IdOf(a) !in q.active
    ensures forall e :: e in q.Insert(a).timers <==> e in q.timers || e == q.EntryOf(a)
    ensures q.Insert(a).timers[0].when == if q.EarliestChanged(a) then q.heap[a].expiration else q.timers[0].when
  {
    var t := q.Insert(a);
    InsertInOrder(q.timers, q.EntryOf(a));
    forall e ensures t.Batched(e) <==> q.Batched(e) { }
    forall e | e in t.timers ensures t.EntryOk(e) && !t.Batched(e) { }
  }

  lemma AddKeepsIndex(q: Queue, a: Addr, t: Timer)
    requires q.IndexOk() && a !in q.heap
    ensures q.Allocate(a, t).LacksOnly(a)
    ensures q.Allocate(a, t).AddInLoop(a).IndexOk()
    ensures var n := q.Allocate(a, t).Insert(a);
      && n.IndexOk() && (forall e :: e in n.timers <==> e in q.timers || e == Entry(t.expiration, a))
      && n.timers[0].when == if q.Allocate(a, t).EarliestChanged(a) then t.expiration else q.timers[0].when
  {
    var n := q.Allocate(a, t);
    forall e | e in n.timers ensures n.EntryOk(e) && !n.Batched(e) && e.addr != a { assert q.EntryOk(e); }
    forall e | n.Batched(e) ensures n.EntryOk(e) && e.addr != a { assert q.Batched(e) && q.EntryOk(e); }
    forall b | b in n.heap && b != a ensures n.EntryOf(b) in n.timers || n.Batched(n.EntryOf(b)) {
      assert q.EntryOf(b) == n.EntryOf(b);
      assert q.EntryOf(b) in q.timers || q.Batched(q.EntryOf(b));
    }
    assert n.EntryOf(a) !in n.timers;
    InsertKeepsIndex(n, a);
    var r := n.AddInLoop(a);
    assert r == n.Insert(a) || r == n.Insert(a).Arm(t.expiration);
    ArmKeepsIndex(n.Insert(a), t.expiration);
  }

  lemma ArmKeepsIndex(q: Queue, when: Time)
    requires q.IndexOk()
    ensures q.Arm(when).IndexOk()
  {
    var t := q.Arm(when);
    forall e ensures t.Batched(e) <==> q.Batched(e) { }
    forall e ensures t.EntryOk(e) <==> q.EntryOk(e) { }
    forall a | a in t.heap
      ensures t.EntryOf(a) in t.timers || t.Batched(t.EntryOf(a))
    {
      assert t.EntryOf(a) == q.EntryOf(a);
    }
  }

  /** Cancelling an id of a live timer takes just that timer out of both indexes and
      frees it; any other id leaves indexes and heap alone. */
  lemma CancelKeepsIndex(q: Queue, id: Id)
    requires q.IndexOk()
    ensures id in q.active ==> id.addr in q.heap && q.heap[id.addr].seqNo == id.seqNo && q.EntryOf(id.addr) in q.timers
    ensures q.Cancel(id).IndexOk()
    ensures id in q.active ==> forall e :: e in q.Cancel(id).timers <==> e in q.timers && e.addr != id.addr
    ensures id !in q.active ==>
      q.Cancel(id).heap == q.heap && q.Cancel(id).timers == q.timers && q.Cancel(id).active == q.active
  {
    var t := q.Cancel(id);
    if id in q.active {
      var gone := q.EntryOf(id.addr);
      EraseInOrder(q.timers, gone);
      forall e | e in q.timers ensures e != gone <==> e.addr != id.addr { assert q.EntryOk(e); }
      forall e ensures t.Batched(e) <==> q.Batched(e) { }
      forall e | t.Batched(e) ensures t.EntryOk(e) {
        assert q.EntryOk(e) && q.Batched(e);
        if e.addr == id.addr { EntriesByAddress(q, e, gone); }
      }
      forall e | e in t.timers ensures t.EntryOk(e) && !t.Batched(e) { assert q.EntryOk(e); }
      forall a | a in t.heap
        ensures t.EntryOf(a) in t.timers || t.Batched(t.EntryOf(a))
      {
        assert t.EntryOf(a) == q.EntryOf(a);
      }
    } else {
      forall e ensures t.Batched(e) <==> q.Batched(e) { }
      forall e ensures t.EntryOk(e) <==> q.EntryOk(e) { }
      forall a | a in t.heap
        ensures t.EntryOf(a) in t.timers || t.Batched(t.EntryOf(a))
      {
        assert t.EntryOf(a) == q.EntryOf(a);
      }
    }
  }

  lemma AlarmSplits(q: Queue)
    requires Sorted(q.timers)
    ensures q.Alarm().todo + q.Alarm().timers == q.timers
    ensures Sorted(q.Alarm().timers) && Sorted(q.Alarm().done + q.Alarm().todo)
    ensures forall e :: e in q.Alarm().todo <==> e in q.timers && e.when <= q.clock
    ensures forall e :: e in q.Alarm().timers <==> e in q.timers && e.when > q.clock
  {
    LowerBoundSplits(q.timers, q.clock);
    var k := LowerBound(q.timers, q.clock, UINTPTR_MAX);
    assert q.timers == q.timers[..k] + q.timers[k..];
    assert [] + q.timers[..k] == q.timers[..k];
  }

  /** An alarm takes out exactly the timers due, in order, and leaves the later ones. */
  lemma AlarmTakesExactlyTheDue(q: Queue)
    requires q.IndexOk() && q.todo == [] && q.done == []
    ensures q.Alarm().IndexOk()
    ensures q.Alarm().todo + q.Alarm().timers == q.timers
    ensures forall e :: e in q.Alarm().todo <==> e in q.timers && e.when <= q.clock
    ensures forall e :: e in q.Alarm().timers <==> e in q.timers && e.when > q.clock
    ensures q.Alarm().heap == q.heap
  {
    var t := q.Alarm();
    AlarmSplits(q);
    AlarmTakesTheirIds(q);
    forall e | e in t.timers || t.Batched(e) ensures t.EntryOk(e) { assert e in q.timers && q.EntryOk(e); }
    forall a | a in t.heap ensures t.EntryOf(a) in t.timers || t.Batched(t.EntryOf(a)) {
      assert q.EntryOf(a) == t.EntryOf(a) && !q.Batched(q.EntryOf(a));
      assert q.EntryOf(a) in q.timers;
    }
  }

  lemma AlarmTakesTheirIds(q: Queue)
    requires q.SetsMatch()
    ensures var t := q.Alarm();
      forall id :: id in t.active <==> id.addr in t.heap && id == t.IdOf(id.addr) && t.EntryOf(id.addr) in t.timers
  {
    var t, k := q.Alarm(), LowerBound(q.timers, q.clock, UINTPTR_MAX);
    LowerBoundSplits(q.timers, q.clock);
    forall id: Id | id.addr in q.heap && id == q.IdOf(id.addr) && q.EntryOf(id.addr) in q.timers
      ensures id in IdsOf(q.heap, t.todo) <==> q.EntryOf(id.addr) in t.todo
    {
      if id in IdsOf(q.heap, t.todo) {
        var e :| e in t.todo && e.addr in q.heap && id == q.IdOf(e.addr);
        assert e in q.timers && q.EntryOk(e);
      }
    }
  }

  lemma RunNextKeepsIndex(q: Queue)
    requires q.IndexOk() && q.todo != []
    ensures q.todo[0].addr in q.heap && q.RunNext().IndexOk()
    ensures forall e :: q.RunNext().Batched(e) <==> q.Batched(e)
  {
    assert q.Batched(q.todo[0]) && q.EntryOk(q.todo[0]);
    var t := q.RunNext();
    assert q.todo == [q.todo[0]] + q.todo[1..];
    assert t.done + t.todo == q.done + q.todo;
    forall e ensures t.Batched(e) <==> q.Batched(e) { }
    forall e ensures t.EntryOk(e) <==> q.EntryOk(e) { }
    forall a | a in t.heap
      ensures t.EntryOf(a) in t.timers || t.Batched(t.EntryOf(a))
    {
      assert t.EntryOf(a) == q.EntryOf(a);
    }
  }

  predicate GoesOn(q: Queue, a: Addr)
    requires a in q.heap
  {
    q.heap[a].repeat && q.IdOf(a) !in q.canceling
  }

  /** The first timer of the finished batch, taken out of it and restarted or freed. */
  function TakenOut(q: Queue): Queue
    requires q.done != [] && q.done[0].addr in q.heap
  {
    var a := q.done[0].addr;
    if GoesOn(q, a) then q.(done := q.done[1..]).Restart(a) else q.(done := q.done[1..]).Free(a)
  }

  lemma BatchShrinks(q: Queue)
    requires q.IndexOk() && q.done != []
    ensures Sorted(q.done[1..] + q.todo)
    ensures forall e :: e in q.done[1..] || e in q.todo <==> q.Batched(e) && e != q.done[0]
  {
    BatchSplit(q);
    assert q.done == [q.done[0]] + q.done[1..];
    assert q.done[1..] + q.todo == (q.done + q.todo)[1..];
  }

  lemma TakenOutKeepsOthers(q: Queue)
    requires q.IndexOk() && q.done != [] && q.done[0].addr in q.heap
    ensures var m, a := TakenOut(q), q.done[0].addr;
      && Sorted(m.done + m.todo)
      && (forall e :: e in m.timers ==> m.EntryOk(e) && !m.Batched(e) && e.addr != a)
      && (forall e :: m.Batched(e) ==> m.EntryOk(e) && e.addr != a)
      && (forall b :: b in m.heap && b != a ==> m.EntryOf(b) in m.timers || m.Batched(m.EntryOf(b)))
  {
    var e0, m, a := q.done[0], TakenOut(q), q.done[0].addr;
    assert q.Batched(e0) && q.EntryOk(e0);
    BatchShrinks(q);
    forall e | e in q.timers || m.Batched(e) ensures m.EntryOk(e) && e.addr != a {
      assert q.EntryOk(e) && e != e0;
      if e.addr == a { EntriesByAddress(q, e, e0); }
    }
    forall b | b in m.heap && b != a ensures m.EntryOf(b) in m.timers || m.Batched(m.EntryOf(b)) {
      assert m.EntryOf(b) == q.EntryOf(b) && q.EntryOf(b) != e0;
      assert q.EntryOf(b) in q.timers || q.Batched(q.EntryOf(b));
    }
  }

  lemma TakenOutKeepsActive(q: Queue)
    requires q.IndexOk() && q.done != [] && q.done[0].addr in q.heap
    ensures var m := TakenOut(q);
      forall id :: id in m.active <==> id.addr in m.heap && id == m.IdOf(id.addr) && m.EntryOf(id.addr) in m.timers
  {
    var e0, m, a := q.done[0], TakenOut(q), q.done[0].addr;
    assert q.Batched(e0) && q.EntryOk(e0);
    TakenOutKeepsOthers(q);
    assert q.EntryOf(a) == e0 && e0 !in q.timers;
    forall id: Id | id.addr != a && id.addr in q.heap ensures m.EntryOf(id.addr) == q.EntryOf(id.addr) { }
    assert a in m.heap ==> m.EntryOf(a) !in m.timers;
  }

  /** One timer of the finished batch goes back into both indexes under its new time, or
      is freed; the others keep their places. */
  lemma ResetOneKeepsIndex(q: Queue)
    requires q.IndexOk() && q.done != []
    ensures q.done[0].addr in q.heap && q.ResetOne().IndexOk()
    ensures GoesOn(q, q.done[0].addr) ==> TakenOut(q).LacksOnly(q.done[0].addr)
    ensures var a, when := q.done[0].addr, q.alarmAt + q.heap[q.done[0].addr].interval;
      if GoesOn(q, a) then
        && q.ResetOne().heap == q.heap[a := q.heap[a].(expiration := when)]
        && (forall e :: e in q.ResetOne().timers <==> e in q.timers || e == Entry(when, a))
        && q.ResetOne().timers[0].when == if q.timers == [] || when < q.timers[0].when then when else q.timers[0].when
      else
        q.ResetOne().heap == q.heap - {a} && q.ResetOne().timers == q.timers
  {
    assert q.Batched(q.done[0]) && q.EntryOk(q.done[0]);
    TakenOutKeepsOthers(q);
    TakenOutKeepsActive(q);
    var a := q.done[0].addr;
    if GoesOn(q, a) {
      InsertKeepsIndex(TakenOut(q), a);
    } else {
      assert a !in TakenOut(q).heap;
    }
  }

  // ---------------------------------------------------------------- the ledger

  lemma AddKeepsLedger(q: Queue, a: Addr, t: Timer)
    requires q.LedgerOk() && Enabled(q, Add(a, t))
    ensures q.Allocate(a, t).AddInLoop(a).LedgerOk()
  {
    var n := q.Allocate(a, t).AddInLoop(a);
    assert n.heap == q.heap[a := t] && n.created == q.created[t.seqNo := a] && n.freed == q.freed;
    assert t.seqNo !in q.created;
  }

  /** Freeing marks a sequence number that was not marked before. */
  lemma FreeKeepsLedger(q: Queue, a: Addr)
    requires q.LedgerOk() && a in q.heap
    ensures q.Free(a).LedgerOk()
    ensures q.heap[a].seqNo !in q.freed && q.Free(a).freed == q.freed + {q.heap[a].seqNo}
  {
  }

  lemma RestartKeepsLedger(q: Queue, a: Addr)
    requires q.LedgerOk() && a in q.heap
    ensures q.Restart(a).LedgerOk()
  {
  }

  lemma ResetOneKeepsLedger(q: Queue)
    requires q.LedgerOk() && q.done != [] && q.done[0].addr in q.heap
    ensures q.ResetOne().LedgerOk()
  {
    var m, a := q.(done := q.done[1..]), q.done[0].addr;
    assert m.LedgerOk();
    FreeKeepsLedger(m, a);
    RestartKeepsLedger(m, a);
    assert m.Restart(a).Insert(a).LedgerOk();
  }

  // ---------------------------------------------------------------- timing

  lemma AddKeepsTiming(q: Queue, a: Addr, t: Timer)
    requires q.IndexOk() && q.LedgerOk() && q.TimingOk() && Enabled(q, Add(a, t))
    ensures q.Allocate(a, t).AddInLoop(a).TimingOk()
  {
    var n := q.Allocate(a, t).AddInLoop(a);
    assert n.heap == q.heap[a := t] && n.ran == q.ran && n.todo == q.todo && n.done == q.done;
    forall b, r | b in n.heap && r in n.ran ensures n.Faithful(b, r) {
      if b != a { assert q.Faithful(b, r); }
    }
    forall b, r | b in n.heap && n.EntryOf(b) !in n.done && r in n.ran ensures n.WaitsLongEnough(b, r) {
      if b != a {
        assert n.EntryOf(b) == q.EntryOf(b) && q.WaitsLongEnough(b, r);
      } else {
        assert r.seqNo != t.seqNo;
      }
    }
  }

  lemma CancelKeepsTiming(q: Queue, id: Id)
    requires q.IndexOk() && q.TimingOk()
    ensures q.Cancel(id).TimingOk()
  {
    var n := q.Cancel(id);
    forall b, r | b in n.heap && r in n.ran ensures n.Faithful(b, r) { assert q.Faithful(b, r); }
    forall b, r | b in n.heap && n.EntryOf(b) !in n.done && r in n.ran ensures n.WaitsLongEnough(b, r) {
      assert n.EntryOf(b) == q.EntryOf(b) && q.WaitsLongEnough(b, r);
    }
  }

  lemma AlarmKeepsTiming(q: Queue)
    requires q.IndexOk() && q.TimingOk() && q.todo == [] && q.done == []
    ensures q.Alarm().TimingOk()
  {
    var n := q.Alarm();
    AlarmTakesExactlyTheDue(q);
    forall b, r | b in n.heap && r in n.ran ensures n.Faithful(b, r) { assert q.Faithful(b, r); }
    forall b, r | b in n.heap && n.EntryOf(b) !in n.done && r in n.ran ensures n.WaitsLongEnough(b, r) {
      assert n.EntryOf(b) == q.EntryOf(b) && q.WaitsLongEnough(b, r);
    }
  }

  lemma RunNextKeepsTiming(q: Queue)
    requires q.IndexOk() && q.LedgerOk() && q.TimingOk() && q.todo != [] && q.todo[0].addr in q.heap
    ensures q.RunNext().TimingOk()
  {
    var n, e := q.RunNext(), q.todo[0];
    var a := e.addr;
    var now := Ran(q.heap[a].seqNo, q.alarmAt, q.heap[a].repeat, q.heap[a].interval);
    assert q.Batched(e) && q.EntryOk(e) && q.EntryOf(a) == e && n.ran == q.ran + [now];
    BatchSplit(q);
    forall r | r in q.ran && r.seqNo == now.seqNo ensures r.repeat && r.at + r.interval <= now.at {
      assert q.WaitsLongEnough(a, r);
    }
    forall b, r | b in n.heap && r in n.ran ensures n.Faithful(b, r) {
      if r in q.ran { assert q.Faithful(b, r); }
      else { assert q.created[q.heap[b].seqNo] == b && q.created[now.seqNo] == a; }
    }
    forall b, r | b in n.heap && n.EntryOf(b) !in n.done && r in n.ran ensures n.WaitsLongEnough(b, r) {
      assert n.EntryOf(b) == q.EntryOf(b);
      if r in q.ran { assert q.WaitsLongEnough(b, r); }
      assert b != a && q.created[q.heap[b].seqNo] == b && q.created[now.seqNo] == a;
    }
    forall i, j | 0 <= i < j < |n.ran| && n.ran[i].seqNo == n.ran[j].seqNo
      ensures n.ran[i].repeat && n.ran[i].at + n.ran[i].interval <= n.ran[j].at
    {
      assert n.ran[i] == q.ran[i] && q.ran[i] in q.ran;
      if j < |q.ran| { assert n.ran[j] == q.ran[j]; }
    }
  }

  lemma ResetOneKeepsTiming(q: Queue)
    requires q.IndexOk() && q.LedgerOk() && q.TimingOk() && q.done != [] && q.done[0].addr in q.heap
    ensures q.ResetOne().TimingOk()
  {
    var n, e := q.ResetOne(), q.done[0];
    var a := e.addr;
    assert q.Batched(e) && q.EntryOk(e);
    BatchSplit(q);
    assert q.done == [e] + q.done[1..];
    forall b, r | b in n.heap && r in n.ran ensures n.Faithful(b, r) {
      assert q.Faithful(b, r);
    }
    forall b, r | b in n.heap && n.EntryOf(b) !in n.done && r in n.ran ensures n.WaitsLongEnough(b, r) {
      assert q.Faithful(b, r);
      if b != a {
        assert n.EntryOf(b) == q.EntryOf(b) && q.EntryOf(b) != e;
        assert q.WaitsLongEnough(b, r);
      }
    }
  }

  // ---------------------------------------------------------------- arming

  /** Arming for the first timer arms in time. */
  lemma ArmedInTime(q: Queue)
    requires q.timers != []
    ensures q.Arm(q.timers[0].when).FdInTime()
    ensures var fd := q.Arm(q.timers[0].when).fd; fd.at <= q.clock < fd.deadline
  {
  }

  lemma AddKeepsArming(q: Queue, a: Addr, t: Timer)
    requires q.IndexOk() && q.ArmingOk() && a !in q.heap
    ensures q.Allocate(a, t).AddInLoop(a).ArmingOk()
  {
    AddKeepsIndex(q, a, t);
    var m := q.Allocate(a, t);
    if m.EarliestChanged(a) { ArmedInTime(m.Insert(a)); }
  }

  /** Cancelling can only move the first timer later, which needs no new arming. */
  lemma CancelKeepsArming(q: Queue, id: Id)
    requires q.IndexOk() && q.ArmingOk()
    ensures q.Cancel(id).ArmingOk()
  {
    CancelKeepsIndex(q, id);
    if id in q.active { EraseInOrder(q.timers, q.EntryOf(id.addr)); }
  }

  lemma AlarmKeepsArming(q: Queue)
    requires q.IndexOk() && q.ArmingOk() && !q.calling && q.todo == [] && q.done == []
    ensures q.Alarm().ArmingOk()
  {
    AlarmTakesExactlyTheDue(q);
  }

  /** What `reset` relies on when it takes a first timer for invalid. */
  ghost predicate HeadOk(q: Queue) {
    q.timers != [] && q.timers[0].when <= 0 ==> q.FdInTime()
  }

  lemma {:induction false} ResetAllKeeps(q: Queue)
    requires q.IndexOk() && q.LedgerOk() && q.TimingOk() && HeadOk(q) && q.alarmAt > 0
    ensures var r := ResetAll(q);
      && r.IndexOk() && r.LedgerOk() && r.TimingOk() && HeadOk(r)
      && r.done == [] && r.todo == q.todo && r.calling == q.calling && r.fd == q.fd && r.clock == q.clock
      && r.canceling == q.canceling && r.ran == q.ran && r.created == q.created && r.nextSeq == q.nextSeq
    decreases |q.done|
  {
    if q.done != [] {
      ResetOneKeepsIndex(q);
      ResetOneKeepsLedger(q);
      ResetOneKeepsTiming(q);
      ResetAllKeeps(q.ResetOne());
    }
  }

  lemma RearmKeeps(q: Queue)
    requires q.IndexOk() && q.LedgerOk() && q.TimingOk() && HeadOk(q) && q.clock > 0
    requires !q.calling && q.todo == [] && q.done == []
    requires q.fd.Armed? ==> q.fd.at <= q.clock < q.fd.deadline
    ensures q.Rearm().Inv()
  {
    if q.timers != [] && q.timers[0].when > 0 {
      ArmedInTime(q);
      ArmKeepsIndex(q, q.timers[0].when);
      var t := q.Arm(q.timers[0].when);
      assert t.LedgerOk();
      forall b, r | b in t.heap && t.EntryOf(b) !in t.done && r in t.ran ensures t.WaitsLongEnough(b, r) {
        assert t.EntryOf(b) == q.EntryOf(b) && q.WaitsLongEnough(b, r);
      }
      forall b, r | b in t.heap && r in t.ran ensures t.Faithful(b, r) { assert q.Faithful(b, r); }
    }
  }

  /** What becomes of the timer at `a` at the end of an alarm: a timer of the batch that
      repeats and was not cancelled is pending again, one interval after the alarm; any
      other of the batch is freed; the rest is as it was. */
  ghost predicate Fate(q: Queue, t: Queue, a: Addr)
    requires a in q.heap
  {
    if q.EntryOf(a) !in q.done then
      a in t.heap && t.heap[a] == q.heap[a]
    else if GoesOn(q, a) then
      a in t.heap && t.heap[a] == q.heap[a].(expiration := q.alarmAt + q.heap[a].interval)
    else
      a !in t.heap
  }

  lemma ResetOneOthers(q: Queue, a: Addr)
    requires q.IndexOk() && q.done != [] && q.done[0].addr in q.heap && a in q.heap && a != q.done[0].addr
    ensures var n := q.ResetOne();
      && a in n.heap && n.heap[a] == q.heap[a] && n.alarmAt == q.alarmAt
      && (n.EntryOf(a) in n.done <==> q.EntryOf(a) in q.done)
      && (GoesOn(n, a) <==> GoesOn(q, a))
  {
    assert q.EntryOf(a) != q.done[0];
    assert q.done == [q.done[0]] + q.done[1..];
  }

  /** What one pass does to its own timer, and that it is not in the batch any more. */
  lemma ResetOneOwn(q: Queue)
    requires q.IndexOk() && q.done != []
    ensures q.done[0].addr in q.heap && q.EntryOf(q.done[0].addr) in q.done
    ensures Fate(q, q.ResetOne(), q.done[0].addr)
    ensures var n, a := q.ResetOne(), q.done[0].addr; a in n.heap ==> n.EntryOf(a) !in n.done
  {
    ResetOneKeepsIndex(q);
    BatchShrinks(q);
    var n, e := q.ResetOne(), q.done[0];
    assert q.Batched(e) && q.EntryOk(e) && q.EntryOf(e.addr) == e;
    if GoesOn(q, e.addr) {
      assert Entry(q.alarmAt + q.heap[e.addr].interval, e.addr) in n.timers;
      assert n.EntryOf(e.addr) in n.timers;
    }
  }

  /** So for every timer. */
  lemma {:induction false} ResetAllOutcome(q: Queue)
    requires q.IndexOk()
    ensures ResetAll(q).heap.Keys <= q.heap.Keys
    ensures forall a {:trigger Fate(q, ResetAll(q), a)} :: a in q.heap ==> Fate(q, ResetAll(q), a)
    decreases |q.done|
  {
    if q.done != [] {
      ResetOneKeepsIndex(q);
      ResetOneOwn(q);
      var n, own := q.ResetOne(), q.done[0].addr;
      ResetAllOutcome(n);
      forall a | a in q.heap ensures Fate(q, ResetAll(q), a) {
        if a != own { ResetOneOthers(q, a); }
        if a in n.heap { assert Fate(n, ResetAll(n), a); }
      }
    }
  }

  // ---------------------------------------------------------------- all runs

  lemma TickKeepsInv(q: Queue, now: Time)
    requires q.Inv() && q.clock <= now
    ensures q.Tick(now).Inv()
  {
    var t := q.Tick(now);
    forall e ensures t.Batched(e) <==> q.Batched(e) { }
    forall e ensures t.EntryOk(e) <==> q.EntryOk(e) { }
    forall a | a in t.heap ensures t.EntryOf(a) == q.EntryOf(a) { }
    forall a | a in t.heap
      ensures t.EntryOf(a) in t.timers || t.Batched(t.EntryOf(a))
    {
      assert q.EntryOf(a) in q.timers || q.Batched(q.EntryOf(a));
    }
    forall b, r | b in t.heap && r in t.ran ensures t.Faithful(b, r) { assert q.Faithful(b, r); }
    forall b, r | b in t.heap && t.EntryOf(b) !in t.done && r in t.ran
      ensures t.WaitsLongEnough(b, r)
    {
      assert q.WaitsLongEnough(b, r);
    }
  }

  /** Leaving the batch, before `reset`, changes only the flag. */
  lemma EndCalling(q: Queue)
    requires q.Inv() && q.calling
    ensures var m := q.(calling := false);
      && m.IndexOk() && m.LedgerOk() && m.TimingOk() && HeadOk(m)
      && (forall a :: a in m.heap ==> m.EntryOf(a) == q.EntryOf(a))
  {
    var m := q.(calling := false);
    forall e ensures m.Batched(e) <==> q.Batched(e) { }
    forall e ensures m.EntryOk(e) <==> q.EntryOk(e) { }
    forall a | a in m.heap ensures m.EntryOf(a) == q.EntryOf(a) { }
    forall a | a in m.heap
      ensures m.EntryOf(a) in m.timers || m.Batched(m.EntryOf(a))
    {
      assert q.EntryOf(a) in q.timers || q.Batched(q.EntryOf(a));
    }
    forall b, r | b in m.heap && r in m.ran ensures m.Faithful(b, r) { assert q.Faithful(b, r); }
    forall b, r | b in m.heap && m.EntryOf(b) !in m.done && r in m.ran
      ensures m.WaitsLongEnough(b, r)
    {
      assert q.WaitsLongEnough(b, r);
    }
  }

  lemma FinishKeepsInv(q: Queue)
    requires q.Inv() && Enabled(q, Finish)
    ensures Next(q, Finish).Inv()
  {
    EndCalling(q);
    ResetAllKeeps(q.(calling := false));
    RearmKeeps(ResetAll(q.(calling := false)));
  }

  /** The fate of the batch, as `Finish` leaves it. */
  lemma FinishOutcome(q: Queue, a: Addr)
    requires q.Inv() && Enabled(q, Finish) && a in q.heap && q.EntryOf(a) in q.done
    ensures Fate(q, Next(q, Finish), a)
    ensures var t := Next(q, Finish); t.created == q.created && t.ran == q.ran && q.freed <= t.freed
  {
    var m := q.(calling := false);
    EndCalling(q);
    FinishKeepsHistory(m);
    ResetAllOutcome(m);
    assert Fate(m, ResetAll(m), a);
    assert m.EntryOf(a) == q.EntryOf(a) && (GoesOn(m, a) <==> GoesOn(q, a));
  }

  lemma FinishKeepsHistory(m: Queue)
    ensures var t := ResetAll(m).Rearm(); t.created == m.created && t.ran == m.ran && m.freed <= t.freed
    ensures ResetAll(m).Rearm().heap == ResetAll(m).heap
  {
    ResetAllFreesMore(m);
  }

  lemma {:induction false} ResetAllFreesMore(q: Queue)
    ensures q.freed <= ResetAll(q).freed && ResetAll(q).created == q.created && ResetAll(q).ran == q.ran
    decreases |q.done|
  {
    if q.done != [] && q.done[0].addr in q.heap {
      ResetAllFreesMore(q.ResetOne());
    }
  }

  lemma StepKeepsInv(q: Queue, s: Step)
    requires q.Inv() && Enabled(q, s)
    ensures Next(q, s).Inv()
  {
    match s {
      case Add(a, t) =>
        AddKeepsIndex(q, a, t);
        AddKeepsLedger(q, a, t);
        AddKeepsTiming(q, a, t);
        AddKeepsArming(q, a, t);
      case Cancel(id) =>
        CancelKeepsIndex(q, id);
        CancelKeepsTiming(q, id);
        CancelKeepsArming(q, id);
        CancelKeepsLedger(q, id);
      case Tick(now) => TickKeepsInv(q, now);
      case Alarm =>
        AlarmTakesExactlyTheDue(q);
        AlarmKeepsTiming(q);
        AlarmKeepsArming(q);
        assert q.Alarm().LedgerOk();
      case RunNext =>
        RunNextKeepsIndex(q);
        RunNextKeepsTiming(q);
        assert q.RunNext().LedgerOk();
      case Finish => FinishKeepsInv(q);
    }
  }

  lemma CancelKeepsLedger(q: Queue, id: Id)
    requires q.IndexOk() && q.LedgerOk()
    ensures q.Cancel(id).LedgerOk()
  {
    if id in q.active {
      CancelKeepsIndex(q, id);
      var m := q.(timers := Erase(q.timers, q.EntryOf(id.addr)));
      assert m.LedgerOk();
      FreeKeepsLedger(m, id.addr);
      assert q.Cancel(id) == m.Free(id.addr).(active := q.active - {id});
    }
  }

  /** A queue as constructed, at a positive clock reading. */
  ghost function Initial(clock: Time): Queue {
    Queue(map[], [], {}, false, {}, [], [], 0, Quiet, clock, 0, map[], {}, [])
  }

  datatype Run = Begin(clock: Time) | Then(before: Run, step: Step)

  ghost predicate IsRun(r: Run) {
    match r
    case Begin(clock) => clock > 0
    case Then(before, s) => IsRun(before) && Enabled(End(before), s)
  }

  ghost function End(r: Run): Queue {
    match r
    case Begin(clock) => Initial(clock)
    case Then(before, s) =>
      if Enabled(End(before), s) then Next(End(before), s) else End(before)
  }

  /** Every reachable state, inside an alarm or out of one and whatever the callbacks add
      and cancel, keeps the invariant. */
  lemma {:induction false} RunKeepsInv(r: Run)
    requires IsRun(r)
    ensures End(r).Inv()
  {
    match r {
      case Begin(clock) =>
        var q := Initial(clock);
        assert q.done + q.todo == [];
      case Then(before, s) =>
        RunKeepsInv(before);
        StepKeepsInv(End(before), s);
    }
  }

  // ---------------------------------------------------------------- main results

  /** The two indexes hold the same timers under their current expirations, and no timer
      is both live and expiring. */
  lemma {:induction false} RunIndexesAgree(r: Run)
    requires IsRun(r)
    ensures var q := End(r);
      && |q.timers| == |q.active| && Sorted(q.timers)
      && (forall e :: e in q.timers ==>
          e.addr in q.heap && q.heap[e.addr].expiration == e.when && Id(e.addr, q.heap[e.addr].seqNo) in q.active)
      && (forall id :: id in q.active ==>
          id.addr in q.heap && q.heap[id.addr].seqNo == id.seqNo && q.EntryOf(id.addr) in q.timers)
      && (forall e, f :: e in q.timers && q.Batched(f) ==> e.addr != f.addr)
  {
    RunKeepsInv(r);
    var q := End(r);
    SizesAgree(q);
    forall e | e in q.timers
      ensures e.addr in q.heap && q.EntryOf(e.addr) == e && q.IdOf(e.addr) in q.active
    {
      assert q.EntryOk(e);
    }
    forall e, f | e in q.timers && q.Batched(f) ensures e.addr != f.addr {
      LiveIsNotBatched(q, e, f);
    }
  }

  /** Ownership: every timer ever created is exactly one of pending, expiring and freed;
      nothing else is in the heap; and a step frees only timers not freed before. */
  lemma {:induction false} RunOwnsEachTimerOnce(r: Run, n: nat)
    requires IsRun(r) && n in End(r).created
    ensures var q, a := End(r), End(r).created[n];
      if n in q.freed then
        !(a in q.heap && q.heap[a].seqNo == n)
      else
        a in q.heap && q.heap[a].seqNo == n && (q.EntryOf(a) in q.timers <==> !q.Batched(q.EntryOf(a)))
    ensures r.Then? ==> End(r.before).freed <= End(r).freed
  {
    RunKeepsInv(r);
    var q, a := End(r), End(r).created[n];
    if n !in q.freed {
      assert q.EntryOf(a) in q.timers || q.Batched(q.EntryOf(a));
    }
    if r.Then? {
      RunKeepsInv(r.before);
      if r.step.Finish? { ResetAllFreesMore(End(r.before).(calling := false)); }
    }
  }

  /** Two runs of one timer: it repeats, and they are at least its interval apart, as
      measured by the alarms they were run in; so one-shot timers run at most once. */
  lemma {:induction false} RunsAreSpaced(r: Run, i: nat, j: nat)
    requires IsRun(r) && i < j < |End(r).ran| && End(r).ran[i].seqNo == End(r).ran[j].seqNo
    ensures End(r).ran[i].repeat && End(r).ran[i].at + End(r).ran[i].interval <= End(r).ran[j].at <= End(r).clock
  {
    RunKeepsInv(r);
    assert End(r).ran[j] in End(r).ran;
  }

  /** Outside an alarm a pending timer never lacks an alarm to come: the timerfd has fired,
      or it will, no later than the first timer is due or 100 microseconds after it was
      armed. It has fired once the clock is past both. */
  lemma {:induction false} PendingTimersAreArmed(r: Run)
    requires IsRun(r) && !End(r).calling && End(r).timers != []
    ensures var q := End(r);
      q.fd.Fired? || (q.fd.Armed? && q.clock < q.fd.deadline <= Max(q.timers[0].when, q.fd.at + 100))
  {
    RunKeepsInv(r);
  }

  // ---------------------------------------------------------------- one alarm

  /** `r` continues `r0` with an alarm and any of its callbacks' doings, up to `reset`. */
  ghost predicate WithinAlarm(r: Run, r0: Run) {
    r.Then? && (r == Then(r0, Alarm) || (WithinAlarm(r.before, r0) && !r.step.Alarm? && !r.step.Finish?))
  }

  /** The records of running the entries of `es` in the alarm at `at`. */
  ghost function Records(heap: map<Addr, Timer>, es: seq<Entry>, at: Time): seq<Ran> {
    if es == [] then []
    else
      var a := es[|es| - 1].addr;
      Records(heap, es[..|es| - 1], at)
        + (if a in heap then [Ran(heap[a].seqNo, at, heap[a].repeat, heap[a].interval)] else [])
  }

  /** Callbacks leave the batch alone. */
  lemma StepKeepsBatched(q: Queue, s: Step, e: Entry)
    requires q.Inv() && Enabled(q, s) && !s.Alarm? && !s.Finish? && q.Batched(e)
    ensures e.addr in q.heap && e.addr in Next(q, s).heap && Next(q, s).heap[e.addr] == q.heap[e.addr]
  {
    assert q.EntryOk(e);
    if s.Cancel? && s.id in q.active { LiveIsNotBatched(q, q.EntryOf(s.id.addr), e); }
  }

  lemma StepKeepsOrder(q: Queue, s: Step)
    requires q.Inv() && Enabled(q, s) && !s.Alarm? && !s.Finish?
    ensures s.RunNext? ==> q.todo != [] && q.todo[0].addr in q.heap && Next(q, s).done == q.done + [q.todo[0]]
    ensures !s.RunNext? ==> Next(q, s).done == q.done && Next(q, s).ran == q.ran
    ensures Next(q, s).todo == (if s.RunNext? then q.todo[1..] else q.todo) && Next(q, s).alarmAt == q.alarmAt
  {
    if s.RunNext? { RunNextKeepsIndex(q); }
  }

  lemma StepKeepsBatch(q: Queue, s: Step)
    requires q.Inv() && Enabled(q, s) && !s.Alarm? && !s.Finish?
    ensures Next(q, s).done + Next(q, s).todo == q.done + q.todo && Next(q, s).alarmAt == q.alarmAt
    ensures forall e :: e in q.done + q.todo ==>
      e.addr in q.heap && e.addr in Next(q, s).heap && Next(q, s).heap[e.addr] == q.heap[e.addr]
    ensures s.RunNext? ==> q.todo != [] && q.todo[0].addr in q.heap && Next(q, s).done == q.done + [q.todo[0]]
    ensures !s.RunNext? ==> Next(q, s).done == q.done && Next(q, s).ran == q.ran
  {
    forall e | e in q.done + q.todo
      ensures e.addr in q.heap && e.addr in Next(q, s).heap && Next(q, s).heap[e.addr] == q.heap[e.addr]
    {
      StepKeepsBatched(q, s, e);
    }
    StepKeepsOrder(q, s);
    if s.RunNext? { assert q.todo == [q.todo[0]] + q.todo[1..]; }
  }

  /** The entries `getExpired` takes. */
  ghost function Due(q: Queue): seq<Entry> { q.timers[..LowerBound(q.timers, q.clock, UINTPTR_MAX)] }

  ghost predicate SameTimer(q0: Queue, q: Queue, e: Entry) {
    e.addr in q0.heap && e.addr in q.heap && q.heap[e.addr] == q0.heap[e.addr]
  }

  /** `q` is in the alarm that began in `q0`: what has run is what had run before and then
      the first of the timers that were due, in order. */
  ghost predicate AlarmSoFar(q0: Queue, q: Queue) {
    && q.calling && q.alarmAt == q0.clock
    && q.done + q.todo == Due(q0)
    && (forall e {:trigger SameTimer(q0, q, e)} :: e in Due(q0) ==> SameTimer(q0, q, e))
    && q.ran == q0.ran + Records(q0.heap, q.done, q0.clock)
  }

  lemma RecordsOfNext(q0: Queue, done: seq<Entry>, e: Entry)
    requires e.addr in q0.heap
    ensures Records(q0.heap, done + [e], q0.clock)
         == Records(q0.heap, done, q0.clock) +
           [Ran(q0.heap[e.addr].seqNo, q0.clock, q0.heap[e.addr].repeat, q0.heap[e.addr].interval)]
  {
    assert (done + [e])[..|done|] == done;
  }

  lemma AlarmStepKeeps(q0: Queue, q: Queue, t: Queue, ran: bool)
    requires AlarmSoFar(q0, q) && t.calling && t.alarmAt == q.alarmAt && t.done + t.todo == q.done + q.todo
    requires forall e :: e in q.done + q.todo ==>
      e.addr in q.heap && e.addr in t.heap && t.heap[e.addr] == q.heap[e.addr]
    requires ran ==> q.todo != [] && q.todo[0].addr in q.heap && t == q.RunNext()
    requires !ran ==> t.done == q.done && t.ran == q.ran
    ensures AlarmSoFar(q0, t)
  {
    forall e | e in Due(q0) ensures SameTimer(q0, t, e) { assert SameTimer(q0, q, e); }
    if ran {
      var e := q.todo[0];
      assert e in q.done + q.todo && SameTimer(q0, q, e);
      RecordsOfNext(q0, q.done, e);
    }
  }

  lemma AlarmBegins(q: Queue)
    requires q.Inv() && !q.calling
    ensures AlarmSoFar(q, q.Alarm())
  {
    AlarmTakesExactlyTheDue(q);
    var t := q.Alarm();
    assert t.done + t.todo == t.todo;
    assert t.ran == q.ran + Records(q.heap, [], q.clock);
    forall e | e in Due(q) ensures SameTimer(q, t, e) { assert e in t.todo && q.EntryOk(e); }
  }

  lemma StepWithinAlarm(q0: Queue, q: Queue, s: Step)
    requires AlarmSoFar(q0, q) && q.Inv() && Enabled(q, s) && !s.Alarm? && !s.Finish?
    ensures AlarmSoFar(q0, Next(q, s))
  {
    StepKeepsBatch(q, s);
    AlarmStepKeeps(q0, q, Next(q, s), s.RunNext?);
  }

  /** From the alarm to `reset`, the timers that were due at the alarm run in order, each
      once; timers the callbacks add are not among them, and cancelling does not take one
      out. */
  lemma {:induction false} AlarmRunsExactlyTheDue(r: Run, r0: Run)
    requires IsRun(r) && WithinAlarm(r, r0)
    ensures IsRun(r0) && !End(r0).calling && AlarmSoFar(End(r0), End(r))
  {
    if r == Then(r0, Alarm) {
      RunKeepsInv(r0);
      AlarmBegins(End(r0));
    } else {
      AlarmRunsExactlyTheDue(r.before, r0);
      RunKeepsInv(r.before);
      StepWithinAlarm(End(r0), End(r.before), r.step);
    }
  }

  /** The whole alarm: once the last callback is back, exactly the due timers have run, in
      order; after `reset` those that repeat and were not cancelled meanwhile are pending
      again for one interval after the alarm, and the other due ones are gone. */
  lemma {:induction false} AlarmOutcome(r: Run, r0: Run, e: Entry)
    requires IsRun(r) && WithinAlarm(r, r0) && End(r).todo == []
    requires e in End(r0).timers && e.when <= End(r0).clock
    ensures var q0, q, t := End(r0), End(r), End(Then(r, Finish));
      && q.ran == q0.ran + Records(q0.heap, q.done, q0.clock)
      && e in q.done && e.addr in q0.heap && e.addr in q.heap
      && if q0.heap[e.addr].repeat && q.IdOf(e.addr) !in q.canceling then
           e.addr in t.heap && t.heap[e.addr] == q0.heap[e.addr].(expiration := q0.clock + q0.heap[e.addr].interval)
         else
           e.addr !in t.heap
  {
    AlarmRunsExactlyTheDue(r, r0);
    DueEntries(r0, e);
    AlarmEnds(r, End(r0), e);
  }

  lemma {:induction false} AlarmEnds(r: Run, q0: Queue, e: Entry)
    requires IsRun(r) && AlarmSoFar(q0, End(r)) && End(r).todo == [] && e in Due(q0)
    ensures var q, t := End(r), End(Then(r, Finish));
      && e in q.done && SameTimer(q0, q, e)
      && if q0.heap[e.addr].repeat && q.IdOf(e.addr) !in q.canceling then
           e.addr in t.heap && t.heap[e.addr] == q0.heap[e.addr].(expiration := q0.clock + q0.heap[e.addr].interval)
         else
           e.addr !in t.heap
  {
    var q := End(r);
    RunKeepsInv(r);
    assert q.done + q.todo == q.done && SameTimer(q0, q, e);
    assert q.Batched(e) && q.EntryOk(e);
    FinishOutcome(q, e.addr);
  }

  lemma {:induction false} DueEntries(r: Run, e: Entry)
    requires IsRun(r)
    ensures e in Due(End(r)) <==> e in End(r).timers && e.when <= End(r).clock
  {
    RunKeepsInv(r);
    LowerBoundSplits(End(r).timers, End(r).clock);
  }

  // ---------------------------------------------------------------- cancelling

  /** Cancelling an id touches no timer but the one created with it, whatever its address
      has been used for since: every other timer stays where it is, pending or expiring,
      and goes on after the alarm just if it would have. */
  lemma {:induction false} CancelTouchesOnlyItsOwn(r: Run, id: Id, a: Addr)
    requires IsRun(r) && a in End(r).heap && End(r).heap[a].seqNo != id.seqNo
    ensures var q, c := End(r), End(r).Cancel(id);
      && a in c.heap && c.heap[a] == q.heap[a]
      && (q.EntryOf(a) in c.timers <==> q.EntryOf(a) in q.timers)
      && (c.Batched(q.EntryOf(a)) <==> q.Batched(q.EntryOf(a)))
      && (GoesOn(c, a) <==> GoesOn(q, a))
  {
    RunKeepsInv(r);
    CancelKeepsIndex(End(r), id);
  }

  /** A number none of whose timers will be pending again. */
  ghost predicate Doomed(q: Queue, n: nat) {
    && n in q.created
    && (n in q.freed ||
        (q.calling && q.created[n] in q.heap && q.Batched(q.EntryOf(q.created[n])) &&
          Id(q.created[n], n) in q.canceling))
  }

  ghost function RunsOf(ran: seq<Ran>, n: nat): nat {
    if ran == [] then 0 else RunsOf(ran[..|ran| - 1], n) + if ran[|ran| - 1].seqNo == n then 1 else 0
  }

  /** How often a doomed timer may still run. */
  ghost function Left(q: Queue, n: nat): nat {
    if n in q.created && n !in q.freed && q.created[n] in q.heap && q.EntryOf(q.created[n]) in q.todo then 1 else 0
  }

  lemma DoomedRunNext(q: Queue, n: nat)
    requires q.Inv() && Doomed(q, n) && Enabled(q, RunNext)
    ensures q.todo[0].addr in q.heap && Doomed(q.RunNext(), n)
    ensures RunsOf(q.RunNext().ran, n) + Left(q.RunNext(), n) <= RunsOf(q.ran, n) + Left(q, n)
  {
    RunNextKeepsIndex(q);
    BatchSplit(q);
    var t, a, b := q.RunNext(), q.created[n], q.todo[0].addr;
    assert q.Batched(q.todo[0]) && q.EntryOk(q.todo[0]);
    assert q.EntryOf(b) == q.todo[0] && q.created[q.heap[b].seqNo] == b;
    assert t.ran[..|t.ran| - 1] == q.ran;
    if n !in q.freed { assert t.EntryOf(a) == q.EntryOf(a); }
  }

  lemma DoomedStep(q: Queue, s: Step, n: nat)
    requires q.Inv() && Doomed(q, n) && Enabled(q, s)
    ensures Doomed(Next(q, s), n)
    ensures RunsOf(Next(q, s).ran, n) + Left(Next(q, s), n) <= RunsOf(q.ran, n) + Left(q, n)
  {
    StepKeepsInv(q, s);
    var t := Next(q, s);
    var a := q.created[n];
    match s {
      case Add(b, timer) =>
      case Cancel(id) =>
        if n !in q.freed && id in q.active {
          LiveIsNotBatched(q, q.EntryOf(id.addr), q.EntryOf(a));
        }
      case Tick(_) =>
      case Alarm =>
      case RunNext => DoomedRunNext(q, n);
      case Finish =>
        FinishFreesDoomed(q, n);
    }
  }

  lemma FinishFreesDoomed(q: Queue, n: nat)
    requires q.Inv() && Doomed(q, n) && Enabled(q, Finish)
    ensures n in Next(q, Finish).created && n in Next(q, Finish).freed && Next(q, Finish).ran == q.ran
  {
    StepKeepsInv(q, Finish);
    if n in q.freed {
      EndCalling(q);
      ResetAllKeeps(q.(calling := false));
      ResetAllFreesMore(q.(calling := false));
    } else {
      FinishOutcome(q, q.created[n]);
    }
  }

  ghost predicate Extends(r: Run, r0: Run) {
    r == r0 || (r.Then? && Extends(r.before, r0))
  }

  lemma {:induction false} DoomedForEver(r: Run, r0: Run, n: nat)
    requires IsRun(r) && Extends(r, r0) && IsRun(r0) && Doomed(End(r0), n)
    ensures Doomed(End(r), n)
    ensures RunsOf(End(r).ran, n) + Left(End(r), n) <= RunsOf(End(r0).ran, n) + Left(End(r0), n)
    decreases r
  {
    if r != r0 {
      DoomedForEver(r.before, r0, n);
      RunKeepsInv(r.before);
      DoomedStep(End(r.before), r.step, n);
    }
  }

  /** A cancelled timer stops: from the cancellation on, in every continuation, it runs at
      most once more, and only if it was waiting its turn in the batch of the alarm being
      handled; and it is never pending again. */
  lemma {:induction false} CancelledTimerStops(r0: Run, a: Addr, r: Run)
    requires IsRun(r0) && a in End(r0).heap
    requires var c := Then(r0, Cancel(End(r0).IdOf(a))); IsRun(r) && Extends(r, c)
    ensures var q, n := End(r0), End(r0).heap[a].seqNo;
      && RunsOf(End(r).ran, n) <= RunsOf(q.ran, n) + (if q.EntryOf(a) in q.todo then 1 else 0)
      && (forall b :: b in End(r).heap && End(r).heap[b].seqNo == n ==> End(r).EntryOf(b) !in End(r).timers)
  {
    var q, n := End(r0), End(r0).heap[a].seqNo;
    var c := Then(r0, Cancel(q.IdOf(a)));
    RunKeepsInv(r0);
    assert q.created[n] == a;
    assert q.EntryOf(a) in q.timers || q.Batched(q.EntryOf(a));
    CancelKeepsIndex(q, q.IdOf(a));
    assert Doomed(End(c), n) && RunsOf(End(c).ran, n) + Left(End(c), n) <= RunsOf(q.ran, n) + Left(q, n);
    DoomedForEver(r, c, n);
    RunKeepsInv(r);
  }

  // ---------------------------------------------------------------- timers do what was asked for

  /** The queue holds the timer that was asked for, under the id that was returned, beside
      the timers it held before. */
  ghost predicate Holds(p: Queue, q: Queue, a: Addr, t: Timer) {
    && a in q.heap && q.heap[a].expiration == t.expiration && q.heap[a].seqNo == t.seqNo
    && q.heap[a].repeat == t.repeat && q.heap[a].interval == t.interval
    && (forall e :: e in q.timers <==> e in p.timers || e == Entry(t.expiration, a))
    && Id(a, t.seqNo) in q.active
    && q.heap.Keys == p.heap.Keys + {a} && forall b :: b in p.heap ==> q.heap[b] == p.heap[b]
  }

  lemma AddHolds(q: Queue, a: Addr, t: Timer)
    requires q.IndexOk() && a !in q.heap
    ensures Holds(q, q.Allocate(a, t).AddInLoop(a), a, t)
  {
    AddKeepsIndex(q, a, t);
    var m := q.Allocate(a, t);
    var n := m.AddInLoop(a);
    assert n.heap == m.heap && n.timers == m.Insert(a).timers && n.active == m.Insert(a).active;
    assert n.heap == q.heap[a := t];
  }

  lemma {:induction false} AddedTimerIsThere(r: Run, a: Addr, t: Timer)
    requires IsRun(r) && Enabled(End(r), Add(a, t))
    ensures Holds(End(r), End(Then(r, Add(a, t))), a, t)
  {
    RunKeepsInv(r);
    AddHolds(End(r), a, t);
  }

  /** The timer created at `a` as `t` is on its way: it is pending or in the batch, as it was
      asked for and not cancelled there, and at its first time until it runs; or it was not
      to repeat, has run once, and is gone. */
  ghost predicate OnItsWay(q: Queue, a: Addr, t: Timer) {
    && t.seqNo in q.created && q.created[t.seqNo] == a
    && if t.seqNo in q.freed then
         !t.repeat && RunsOf(q.ran, t.seqNo) == 1
       else
         && a in q.heap && q.heap[a].seqNo == t.seqNo
         && q.heap[a].repeat == t.repeat && q.heap[a].interval == t.interval
         && (q.EntryOf(a) in q.timers || q.Batched(q.EntryOf(a)))
         && (q.Batched(q.EntryOf(a)) ==> Id(a, t.seqNo) !in q.canceling)
         && (!t.repeat ==> RunsOf(q.ran, t.seqNo) == if q.EntryOf(a) in q.done then 1 else 0)
         && (q.EntryOf(a) in q.done ==> RunsOf(q.ran, t.seqNo) > 0)
         && (RunsOf(q.ran, t.seqNo) == 0 ==> q.heap[a].expiration == t.expiration)
  }

  lemma {:induction false} NeverRan(ran: seq<Ran>, n: nat)
    requires forall x :: x in ran ==> x.seqNo != n
    ensures RunsOf(ran, n) == 0
  {
    if ran != [] {
      assert ran[|ran| - 1] in ran;
      NeverRan(ran[..|ran| - 1], n);
    }
  }

  lemma AddOnItsWay(r: Run, a: Addr, t: Timer)
    requires IsRun(r) && Enabled(End(r), Add(a, t))
    ensures OnItsWay(End(Then(r, Add(a, t))), a, t)
  {
    RunKeepsInv(r);
    AddedTimerIsThere(r, a, t);
    NeverRan(End(r).ran, t.seqNo);
    var q := End(Then(r, Add(a, t)));
    RunKeepsInv(Then(r, Add(a, t)));
    assert q.ran == End(r).ran && q.freed == End(r).freed;
    LiveEntryNotBatched(q, a);
  }

  lemma LiveEntryNotBatched(q: Queue, a: Addr)
    requires q.IndexOk() && a in q.heap
    ensures q.EntryOf(a) in q.timers <==> !q.Batched(q.EntryOf(a))
  {
  }

  lemma CancelOnItsWay(q: Queue, a: Addr, t: Timer, id: Id)
    requires q.Inv() && OnItsWay(q, a, t) && id != Id(a, t.seqNo)
    ensures OnItsWay(q.Cancel(id), a, t)
  {
    var c := q.Cancel(id);
    CancelKeepsIndex(q, id);
    if t.seqNo !in q.freed {
      if id in q.active { assert id == q.IdOf(id.addr) && id.addr != a; }
      assert c.EntryOf(a) == q.EntryOf(a);
    }
  }

  lemma RunNextOnItsWay(q: Queue, a: Addr, t: Timer)
    requires q.Inv() && OnItsWay(q, a, t) && Enabled(q, RunNext)
    ensures q.todo[0].addr in q.heap && OnItsWay(q.RunNext(), a, t)
  {
    RunNextKeepsIndex(q);
    BatchSplit(q);
    var c, b := q.RunNext(), q.todo[0].addr;
    assert q.Batched(q.todo[0]) && q.EntryOk(q.todo[0]) && q.EntryOf(b) == q.todo[0];
    assert c.ran[..|c.ran| - 1] == q.ran;
    assert q.created[q.heap[b].seqNo] == b;
    if t.seqNo !in q.freed { assert c.EntryOf(a) == q.EntryOf(a); }
  }

  lemma AlarmOnItsWay(q: Queue, a: Addr, t: Timer)
    requires q.Inv() && OnItsWay(q, a, t) && Enabled(q, Alarm)
    ensures OnItsWay(q.Alarm(), a, t)
  {
    AlarmTakesExactlyTheDue(q);
    if t.seqNo !in q.freed { assert q.Alarm().EntryOf(a) == q.EntryOf(a); }
  }

  lemma {:induction false} FinishKeepsFd(m: Queue)
    ensures ResetAll(m).fd == m.fd && ResetAll(m).clock == m.clock && ResetAll(m).calling == m.calling
    decreases |m.done|
  {
    if m.done != [] && m.done[0].addr in m.heap { FinishKeepsFd(m.ResetOne()); }
  }

  lemma FinishOnItsWay(q: Queue, a: Addr, t: Timer)
    requires q.Inv() && OnItsWay(q, a, t) && Enabled(q, Finish)
    ensures OnItsWay(Next(q, Finish), a, t)
  {
    StepKeepsInv(q, Finish);
    var f := Next(q, Finish);
    FinishFates(q, a);
    FinishKeepsFd(q.(calling := false));
    assert !f.calling;
    assert f.todo == [] && f.done == [];
    if t.seqNo !in q.freed {
      assert t.seqNo in f.created && f.created[t.seqNo] == a;
      if q.EntryOf(a) in q.done && !t.repeat {
        assert !GoesOn(q, a) && a !in f.heap;
        assert t.seqNo in f.freed;
      } else {
        FinishedGoesOn(q, f, a, t);
      }
    }
  }

  lemma FinishedGoesOn(q: Queue, f: Queue, a: Addr, t: Timer)
    requires q.Inv() && OnItsWay(q, a, t) && t.seqNo !in q.freed && q.todo == []
    requires f.Inv() && f.done == [] && f.todo == [] && f.created == q.created && f.ran == q.ran && Fate(q, f, a)
    requires t.repeat || q.EntryOf(a) !in q.done
    ensures OnItsWay(f, a, t)
  {
    assert q.EntryOf(a) in q.done ==> GoesOn(q, a) && RunsOf(q.ran, t.seqNo) == RunsOf(f.ran, t.seqNo);
    assert a in f.heap && f.heap[a].seqNo == t.seqNo;
    assert f.EntryOf(a) in f.timers || f.Batched(f.EntryOf(a));
  }

  lemma FinishFates(q: Queue, a: Addr)
    requires q.Inv() && Enabled(q, Finish)
    ensures var f := Next(q, Finish); f.created == q.created && f.ran == q.ran && q.freed <= f.freed
    ensures a in q.heap ==> Fate(q, Next(q, Finish), a)
  {
    var m := q.(calling := false);
    EndCalling(q);
    FinishKeepsHistory(m);
    ResetAllOutcome(m);
    if a in q.heap {
      assert Fate(m, ResetAll(m), a);
      assert m.EntryOf(a) == q.EntryOf(a) && (GoesOn(m, a) <==> GoesOn(q, a));
    }
  }

  lemma StepOnItsWay(q: Queue, s: Step, a: Addr, t: Timer)
    requires q.Inv() && OnItsWay(q, a, t) && Enabled(q, s) && s != Cancel(Id(a, t.seqNo))
    ensures OnItsWay(Next(q, s), a, t)
  {
    match s {
      case Add(b, u) => AddKeepsOnItsWay(q, a, t, b, u);
      case Cancel(id) => CancelOnItsWay(q, a, t, id);
      case Tick(now) => if t.seqNo !in q.freed { assert q.Tick(now).EntryOf(a) == q.EntryOf(a); }
      case Alarm => AlarmOnItsWay(q, a, t);
      case RunNext => RunNextOnItsWay(q, a, t);
      case Finish => FinishOnItsWay(q, a, t);
    }
  }

  lemma AddKeepsOnItsWay(q: Queue, a: Addr, t: Timer, b: Addr, u: Timer)
    requires q.Inv() && OnItsWay(q, a, t) && Enabled(q, Add(b, u))
    ensures OnItsWay(Next(q, Add(b, u)), a, t)
  {
    var c := Next(q, Add(b, u));
    AddKeepsIndex(q, b, u);
    if t.seqNo !in q.freed { assert c.EntryOf(a) == q.EntryOf(a); }
  }

  /** `r` continues `r0` without cancelling `id`. */
  ghost predicate ExtendsWithout(r: Run, r0: Run, id: Id) {
    r == r0 || (r.Then? && ExtendsWithout(r.before, r0, id) && r.step != Cancel(id))
  }

  /** A timer that is added and not cancelled does what was asked for, in every continuation
      and whatever is done to others: one that repeats is never lost; any other is pending or
      expiring until it has run, and runs once. */
  lemma {:induction false} AddedTimerIsKept(r: Run, r0: Run, a: Addr, t: Timer)
    requires IsRun(r0) && Enabled(End(r0), Add(a, t))
    requires IsRun(r) && ExtendsWithout(r, Then(r0, Add(a, t)), Id(a, t.seqNo))
    ensures OnItsWay(End(r), a, t)
    decreases r
  {
    if r == Then(r0, Add(a, t)) {
      AddOnItsWay(r0, a, t);
    } else {
      AddedTimerIsKept(r.before, r0, a, t);
      RunKeepsInv(r.before);
      StepOnItsWay(End(r.before), r.step, a, t);
    }
  }

  /** Whenever a step arms the timerfd, it is for the timer that is then the first, at its
      expiration or, if that is less, 100 microseconds ahead. */
  lemma {:induction false} ArmedForTheFirst(r: Run)
    requires IsRun(r) && r.Then?
    ensures var p, q := End(r.before), End(r); q.fd.Armed? && q.fd != p.fd ==>
      && q.timers != [] && q.fd.at == q.clock
      && q.fd.deadline >= q.clock + 100 && q.fd.deadline >= q.timers[0].when
      && (q.fd.deadline == q.clock + 100 || q.fd.deadline == q.timers[0].when)
  {
    RunKeepsInv(r.before);
    var p := End(r.before);
    match r.step {
      case Add(a, t) => AddKeepsIndex(p, a, t);
      case Finish => FinishKeepsFd(p.(calling := false));
      case _ =>
    }
  }

  /** An alarm empties the timerfd, so that poll does not report it again until it fires. */
  lemma {:induction false} AlarmReadsTheFd(r: Run)
    requires IsRun(r) && Enabled(End(r), Alarm)
    ensures var t := End(Then(r, Alarm)); !t.fd.Fired? && (!End(r).fd.Fired? ==> t.fd == End(r).fd)
  {
  }

  // ------------------------------------------- what a step of a run needs and does

  /** The entries due come first and are live. */
  lemma DueAreFirst(q: Queue)
    requires q.IndexOk()
    ensures Sorted(Due(q)) && forall e :: e in Due(q) ==> e in q.timers
    ensures |Due(q)| < |q.timers| ==> q.clock < q.timers[|Due(q)|].when
  {
    LowerBoundSplits(q.timers, q.clock);
    var k := LowerBound(q.timers, q.clock, UINTPTR_MAX);
    if k < |q.timers| { assert q.timers[k] == q.timers[k..][0]; }
  }

  lemma FdKeepsIndex(q: Queue, fd: TimerFd)
    requires q.IndexOk()
    ensures q.(fd := fd).IndexOk()
  {
    var t := q.(fd := fd);
    forall e ensures t.Batched(e) <==> q.Batched(e) { }
    forall e ensures t.EntryOk(e) <==> q.EntryOk(e) { }
    forall a | a in t.heap
      ensures t.EntryOf(a) in t.timers || t.Batched(t.EntryOf(a))
    {
      assert t.EntryOf(a) == q.EntryOf(a);
    }
  }

  /** Each expired entry takes its own id out, which is still there. */
  lemma IdsOfNext(q: Queue, i: nat)
    requires q.IndexOk() && i < |Due(q)|
    ensures Due(q)[i].addr in q.heap && q.IdOf(Due(q)[i].addr) in q.active
    ensures q.IdOf(Due(q)[i].addr) !in IdsOf(q.heap, Due(q)[..i])
    ensures IdsOf(q.heap, Due(q)[..i + 1]) == IdsOf(q.heap, Due(q)[..i]) + {q.IdOf(Due(q)[i].addr)}
  {
    DueAreFirst(q);
    var expired, e := Due(q), Due(q)[i];
    assert e in q.timers && q.EntryOk(e);
    forall k | 0 <= k < i ensures expired[k].addr != e.addr {
      assert expired[k] in q.timers && q.EntryOk(expired[k]) && Less(expired[k], e);
    }
    assert expired[..i + 1] == expired[..i] + [e];
    AddedId(q.heap, expired[..i], e);
  }

  lemma {:induction false} NextNumberIsNew(r: Run)
    requires IsRun(r)
    ensures End(r).nextSeq !in End(r).created
  {
    RunKeepsInv(r);
  }

  lemma {:induction false} AddInRun(r: Run, a: Addr, t: Timer)
    requires IsRun(r) && a !in End(r).heap && t.seqNo !in End(r).created
    ensures End(r).Allocate(a, t).LacksOnly(a)
    ensures IsRun(Then(r, Add(a, t))) && End(Then(r, Add(a, t))) == End(r).Allocate(a, t).AddInLoop(a)
  {
    RunKeepsInv(r);
    AddKeepsIndex(End(r), a, t);
  }

  lemma {:induction false} CancelInRun(r: Run, id: Id)
    requires IsRun(r)
    ensures IsRun(Then(r, Cancel(id))) && End(Then(r, Cancel(id))) == End(r).Cancel(id)
    ensures |End(r).timers| == |End(r).active| && |End(r).Cancel(id).timers| == |End(r).Cancel(id).active|
    ensures id in End(r).active ==> id.addr in End(r).heap && End(r).EntryOf(id.addr) in End(r).timers
  {
    RunKeepsInv(r);
    SizesAgree(End(r));
    CancelKeepsIndex(End(r), id);
    SizesAgree(End(r).Cancel(id));
  }

  lemma {:induction false} TickInRun(r: Run, now: Time)
    requires IsRun(r) && End(r).clock <= now
    ensures IsRun(Then(r, Tick(now))) && End(Then(r, Tick(now))) == End(r).Tick(now)
  {
    RunKeepsInv(r);
  }

  /** Erasing the next expired entry finds its id and takes just that out. */
  ghost predicate NextDueOk(q: Queue, i: nat)
    requires i < |Due(q)|
  {
    && Due(q)[i].addr in q.heap
    && q.IdOf(Due(q)[i].addr) in q.active && q.IdOf(Due(q)[i].addr) !in IdsOf(q.heap, Due(q)[..i])
    && IdsOf(q.heap, Due(q)[..i + 1]) == IdsOf(q.heap, Due(q)[..i]) + {q.IdOf(Due(q)[i].addr)}
  }

  ghost predicate CanExpire(q: Queue) {
    && |q.timers| == |q.active|
    && (|Due(q)| < |q.timers| ==> q.clock < q.timers[|Due(q)|].when)
    && (forall i: nat {:trigger NextDueOk(q, i)} :: i < |Due(q)| ==> NextDueOk(q, i))
  }

  lemma IndexOkCanExpire(q: Queue)
    requires q.IndexOk()
    ensures CanExpire(q)
  {
    SizesAgree(q);
    DueAreFirst(q);
    forall i: nat | i < |Due(q)| ensures NextDueOk(q, i) { IdsOfNext(q, i); }
  }

  lemma {:induction false} AlarmInRun(r: Run, fd: TimerFd)
    requires IsRun(r) && !End(r).calling
    ensures CanExpire(End(r).(fd := fd))
    ensures IsRun(Then(r, Alarm)) && End(Then(r, Alarm)) == End(r).Alarm()
  {
    RunKeepsInv(r);
    FdKeepsIndex(End(r), fd);
    IndexOkCanExpire(End(r).(fd := fd));
  }

  lemma {:induction false} RunNextInRun(r: Run)
    requires IsRun(r) && End(r).calling && End(r).todo != []
    ensures End(r).todo[0].addr in End(r).heap
    ensures IsRun(Then(r, RunNext)) && End(Then(r, RunNext)) == End(r).RunNext()
  {
    RunKeepsInv(r);
    RunNextKeepsIndex(End(r));
  }

  lemma {:induction false} FinishInRun(r: Run)
    requires IsRun(r) && End(r).calling && End(r).todo == []
    ensures End(r).(calling := false).IndexOk()
    ensures IsRun(Then(r, Finish)) && End(Then(r, Finish)) == ResetAll(End(r).(calling := false)).Rearm()
    ensures !End(Then(r, Finish)).calling
  {
    RunKeepsInv(r);
    EndCalling(End(r));
    ResetAllKeeps(End(r).(calling := false));
  }

  lemma ResetOneInLoop(q: Queue)
    requires q.IndexOk() && q.done != []
    ensures q.done[0].addr in q.heap && q.ResetOne().IndexOk()
    ensures GoesOn(q, q.done[0].addr) ==> TakenOut(q).LacksOnly(q.done[0].addr)
    ensures ResetAll(q) == ResetAll(q.ResetOne())
  {
    ResetOneKeepsIndex(q);
  }

  lemma SizesAgreeAfterInsert(q: Queue, a: Addr)
    requires q.LacksOnly(a)
    ensures |q.timers| == |q.active| && |q.Insert(a).timers| == |q.Insert(a).active|
    ensures q.EntryOf(a) !in q.timers && q.IdOf(a) !in q.active
  {
    SizesAgree(q);
    InsertKeepsIndex(q, a);
    SizesAgree(q.Insert(a));
  }

  lemma {:induction false} CallbacksKeepBatch(r: Run)
    requires IsRun(r) && r.Then? && !r.step.Alarm? && !r.step.Finish? && !r.step.RunNext?
    ensures var p, q := End(r.before), End(r);
      q.todo == p.todo && q.done == p.done && q.calling == p.calling && q.alarmAt == p.alarmAt
  {
    RunKeepsInv(r.before);
  }

  // ---------------------------------------------------------------- the class

  class TimerQueue {
    /** The allocator's view, the clock and the timerfd: the queue's surroundings. */
    var heap: map<Addr, Timer>
    var seqTotal: nat
    var clock: Time
    var timerfd: TimerFd

    var timers: seq<Entry>
    var activeTimers: set<Id>
    var callingExpiredTimers: bool
    var cancelingTimers: set<Id>

    ghost var todo: seq<Entry>
    ghost var done: seq<Entry>
    ghost var alarmAt: Time
    ghost var created: map<nat, Addr>
    ghost var freed: set<nat>
    ghost var ran: seq<Ran>

    /** The steps made so far. */
    ghost var run: Run

    ghost function View(): Queue
      reads this
    {
      Queue(heap, timers, activeTimers, callingExpiredTimers, cancelingTimers, todo, done, alarmAt,
            timerfd, clock, seqTotal, created, freed, ran)
    }

    /** The object is in the state its steps lead to, hence in one of those all the
        results above speak about. */
    ghost predicate Valid()
      reads this
    {
      IsRun(run) && View() == End(run)
    }

    constructor (clock: Time)
      requires clock > 0
      ensures Valid() && run == Begin(clock)
    {
      heap, seqTotal, this.clock, timerfd := map[], 0, clock, Quiet;
      timers, activeTimers, callingExpiredTimers, cancelingTimers := [], {}, false, {};
      todo, done, alarmAt, created, freed, ran := [], [], 0, map[], {}, [];
      run := Begin(clock);
    }

    /** Time passes. */
    method Advance(now: Time)
      requires Valid() && clock <= now
      modifies this
      ensures Valid() && run == Then(old(run), Tick(now))
    {
      TickInRun(run, now);
      clock := now;
      if timerfd.Armed? && timerfd.deadline <= now {
        timerfd := Fired;
      }
      run := Then(run, Tick(now));
    }

    method ResetTimerFd(expiration: Time)
      modifies this`timerfd
      ensures View() == old(View()).Arm(expiration)
    {
      var microseconds := expiration - clock;
      if microseconds < 100 {
        microseconds := 100;
      }
      timerfd := Armed(clock + microseconds, clock);
    }

    method Insert(a: Addr) returns (earliestChanged: bool)
      requires View().LacksOnly(a)
      modifies this`timers, this`activeTimers
      ensures View() == old(View()).Insert(a)
      ensures earliestChanged <==> old(View()).EarliestChanged(a)
    {
      ghost var q := View();
      SizesAgreeAfterInsert(q, a);
      assert |timers| == |activeTimers|;
      var when := heap[a].expiration;
      earliestChanged := timers == [] || when < timers[0].when;
      assert Entry(when, a) !in timers;
      timers := EntrySets.Insert(timers, Entry(when, a));
      assert Id(a, heap[a].seqNo) !in activeTimers;
      activeTimers := activeTimers + {Id(a, heap[a].seqNo)};
      assert View() == q.Insert(a);
      assert |timers| == |activeTimers|;
    }

    method AddTimerInLoop(a: Addr)
      requires View().LacksOnly(a)
      modifies this`timers, this`activeTimers, this`timerfd
      ensures View() == old(View()).AddInLoop(a)
    {
      var earliestChanged := Insert(a);
      if earliestChanged {
        ResetTimerFd(heap[a].expiration);
      }
    }

    /** `new Timer`: the allocator returns `a`. */
    method NewTimer(a: Addr, t: Timer)
      requires a !in heap
      modifies this`heap, this`seqTotal, this`created
      ensures View() == old(View()).Allocate(a, t)
    {
      heap := heap[a := t];
      created := created[t.seqNo := a];
      seqTotal := Max(seqTotal, t.seqNo + 1);
    }

    /** The timer enters the queue under its number: one drawn now, or, in the functor of an
        `addTimer` that another thread has called, drawn by that thread. */
    method AddNumbered(a: Addr, t: Timer)
      requires Valid() && a !in heap && t.seqNo !in created
      modifies this
      ensures Valid() && run == Then(old(run), Add(a, t))
    {
      AddInRun(run, a, t);
      NewTimer(a, t);
      AddTimerInLoop(a);
      run := Then(run, Add(a, t));
    }

    /** `addTimer` on the loop's thread. */
    method AddTimer(a: Addr, when: Time, repeat: bool, interval: nat) returns (id: Id)
      requires Valid() && a !in heap
      modifies this
      ensures Valid() && id == Id(a, old(seqTotal))
      ensures run == Then(old(run), Add(a, Timer(old(seqTotal), when, repeat, interval)))
      ensures id in activeTimers && Entry(when, a) in timers
      ensures heap == old(heap)[a := Timer(old(seqTotal), when, repeat, interval)]
    {
      NextNumberIsNew(run);
      AddedTimerIsThere(run, a, Timer(seqTotal, when, repeat, interval));
      id := Id(a, seqTotal);
      AddNumbered(a, Timer(seqTotal, when, repeat, interval));
    }

    /** The first branch of `cancelInLoop`. */
    method EraseLive(id: Id)
      requires id in activeTimers && id.addr in heap && View().EntryOf(id.addr) in timers
      modifies this
      ensures View() == old(View()).Cancel(id) && run == old(run)
    {
      var entry := Entry(heap[id.addr].expiration, id.addr);
      assert entry in timers;
      timers := Erase(timers, entry);
      freed := freed + {heap[id.addr].seqNo};
      heap := heap - {id.addr};
      activeTimers := activeTimers - {id};
    }

    method CancelInLoop(id: Id)
      requires Valid()
      modifies this
      ensures Valid() && run == Then(old(run), Cancel(id))
    {
      ghost var q := View();
      CancelInRun(run, id);
      assert |timers| == |activeTimers|;
      if id in activeTimers {
        EraseLive(id);
      } else if callingExpiredTimers {
        cancelingTimers := cancelingTimers + {id};
      }
      assert View() == q.Cancel(id);
      assert |timers| == |activeTimers|;
      run := Then(run, Cancel(id));
    }

    method GetExpired(now: Time) returns (expired: seq<Entry>)
      requires CanExpire(View()) && now == clock
      modifies this`timers, this`activeTimers
      ensures expired == Due(old(View()))
      ensures timers == old(timers)[|expired|..]
      ensures activeTimers == old(activeTimers) - IdsOf(heap, expired)
    {
      ghost var q := View();
      assert |timers| == |activeTimers|;
      var end := LowerBound(timers, now, UINTPTR_MAX);
      assert end == |timers| || now < timers[end].when;
      expired := timers[..end];
      timers := timers[end..];
      var i := 0;
      while i < |expired|
        modifies this`activeTimers
        invariant 0 <= i <= |expired|
        invariant activeTimers == q.active - IdsOf(q.heap, expired[..i])
      {
        assert NextDueOk(q, i);
        var e := expired[i];
        assert Id(e.addr, heap[e.addr].seqNo) in activeTimers;
        activeTimers := activeTimers - {Id(e.addr, heap[e.addr].seqNo)};
        i := i + 1;
      }
      assert expired[..|expired|] == expired;
    }

    /** `Timer::run`, as far as the queue can tell. */
    method RunTimer(e: Entry)
      requires Valid() && callingExpiredTimers && todo != [] && e == todo[0]
      modifies this
      ensures Valid() && run == Then(old(run), RunNext)
      ensures todo == old(todo)[1..] && done == old(done) + [e] && callingExpiredTimers && alarmAt == old(alarmAt)
    {
      ghost var q := View();
      RunNextInRun(run);
      var t := heap[e.addr];
      ran := ran + [Ran(t.seqNo, alarmAt, t.repeat, t.interval)];
      todo, done := todo[1..], done + [e];
      assert View() == q.RunNext();
      run := Then(run, RunNext);
    }

    method Restart(a: Addr, now: Time)
      requires a in heap && now == alarmAt
      modifies this`heap
      ensures View() == old(View()).Restart(a)
    {
      if heap[a].repeat {
        heap := heap[a := heap[a].(expiration := now + heap[a].interval)];
      } else {
        heap := heap[a := heap[a].(expiration := INVALID)];
      }
    }

    /** The body of the loop of `reset`, for the entry whose turn it is. */
    method ResetOne(e: Entry, now: Time)
      requires View().IndexOk() && done != [] && e == done[0] && e.addr in heap && now == alarmAt
      modifies this
      ensures View() == old(View()).ResetOne() && run == old(run)
    {
      ghost var q := View();
      ResetOneInLoop(q);
      var a := e.addr;
      done := done[1..];
      if heap[a].repeat && Id(a, heap[a].seqNo) !in cancelingTimers {
        Restart(a, now);
        assert View() == TakenOut(q);
        var changed := Insert(a);
      } else {
        freed := freed + {heap[a].seqNo};
        heap := heap - {a};
        assert View() == TakenOut(q);
      }
    }

    method Reset(expired: seq<Entry>, now: Time)
      requires View().IndexOk() && todo == [] && expired == done && now == alarmAt
      modifies this
      ensures View() == ResetAll(old(View())).Rearm() && run == old(run)
    {
      var i := 0;
      while i < |expired|
        invariant 0 <= i <= |expired| && run == old(run)
        invariant View().IndexOk() && now == alarmAt
        invariant done == expired[i..]
        invariant ResetAll(View()) == ResetAll(old(View()))
      {
        ResetOneInLoop(View());
        ghost var q := View();
        ResetOne(expired[i], now);
        assert done == q.done[1..] && alarmAt == q.alarmAt;
        i := i + 1;
      }
      ghost var q := View();
      var nextExpire: Time := 0;
      if timers != [] {
        assert q.EntryOk(timers[0]);
        nextExpire := heap[timers[0].addr].expiration;
      }
      if nextExpire > 0 {
        ResetTimerFd(nextExpire);
      }
    }

    /** One call a callback makes on the queue, or time it takes. A call the allocator or
        the clock would not allow is passed over. */
    method Act(action: Step)
      requires Valid()
      modifies this
      ensures Valid()
      ensures run == old(run) || (run.Then? && run.before == old(run) &&
        (run.step.Add? || run.step.Cancel? || run.step.Tick?))
    {
      match action {
        case Add(a, t) =>
          if a !in heap { var id := AddTimer(a, t.expiration, t.repeat, t.interval); }
        case Cancel(id) => CancelInLoop(id);
        case Tick(now) =>
          if clock <= now { Advance(now); }
        case _ =>
      }
    }

    method Callback(actions: seq<Step>, ghost alarm: Run)
      requires Valid() && WithinAlarm(run, alarm)
      modifies this
      ensures Valid() && WithinAlarm(run, alarm)
      ensures todo == old(todo) && done == old(done) && callingExpiredTimers == old(callingExpiredTimers) &&
        alarmAt == old(alarmAt)
    {
      var i := 0;
      while i < |actions|
        invariant 0 <= i <= |actions|
        invariant Valid() && WithinAlarm(run, alarm)
        invariant todo == old(todo) && done == old(done) && callingExpiredTimers == old(callingExpiredTimers) &&
          alarmAt == old(alarmAt)
      {
        ghost var before := run;
        Act(actions[i]);
        if run != before {
          CallbacksKeepBatch(run);
        }
        i := i + 1;
      }
    }

    /** The read empties a timerfd that has fired, and finds nothing in any other. */
    method ReadTimerFd()
      modifies this`timerfd
      ensures View() == old(View()).(fd := timerfd)
      ensures timerfd == if old(timerfd).Fired? then Quiet else old(timerfd)
    {
      if timerfd.Fired? {
        timerfd := Quiet;
      }
    }

    method TakeDue(now: Time) returns (expired: seq<Entry>)
      requires CanExpire(View()) && now == clock && !timerfd.Fired?
      modifies this
      ensures View() == old(View()).Alarm() && run == old(run) && todo == expired
    {
      expired := GetExpired(now);
      callingExpiredTimers := true;
      cancelingTimers := {};
      todo, done, alarmAt := expired, [], now;
    }

    /** The statements of `handelRead` before the loop. */
    method BeginAlarm(now: Time) returns (expired: seq<Entry>)
      requires Valid() && !callingExpiredTimers && now == clock
      modifies this
      ensures Valid() && run == Then(old(run), Alarm) && callingExpiredTimers
      ensures todo == expired && done == [] && alarmAt == now
    {
      ghost var q := View();
      ReadTimerFd();
      AlarmInRun(run, timerfd);
      assert View().Alarm() == q.Alarm();
      expired := TakeDue(now);
      run := Then(run, Alarm);
    }

    /** The loop of `handelRead`. */
    method RunAll(expired: seq<Entry>, callbacks: seq<seq<Step>>, ghost alarm: Run)
      requires Valid() && run == Then(alarm, Alarm) && callingExpiredTimers && todo == expired && done == []
      modifies this
      ensures Valid() && WithinAlarm(run, alarm) && callingExpiredTimers
      ensures todo == [] && done == expired && alarmAt == old(alarmAt)
    {
      var i := 0;
      while i < |expired|
        invariant 0 <= i <= |expired|
        invariant Valid() && WithinAlarm(run, alarm) && callingExpiredTimers
        invariant todo == expired[i..] && done == expired[..i] && alarmAt == old(alarmAt)
      {
        RunTimer(expired[i]);
        assert todo == expired[i + 1..] && done == expired[..i + 1];
        if i < |callbacks| {
          Callback(callbacks[i], alarm);
        }
        i := i + 1;
      }
    }

    /** `handelRead`, the callback of the k-th expired timer doing `callbacks[k]`. The ghost
        result is the run up to `reset`: by `AlarmOutcome`, what the alarm has done. */
    method HandleRead(callbacks: seq<seq<Step>>) returns (ghost upToReset: Run)
      requires Valid() && !callingExpiredTimers
      modifies this
      ensures Valid() && !callingExpiredTimers
      ensures WithinAlarm(upToReset, old(run)) && End(upToReset).todo == [] && run == Then(upToReset, Finish)
    {
      var now := clock;
      var expired := BeginAlarm(now);
      RunAll(expired, callbacks, old(run));
      upToReset := run;
      FinishInRun(run);
      callingExpiredTimers := false;
      assert View() == End(run).(calling := false);
      Reset(expired, now);
      run := Then(run, Finish);
    }
  }
}
