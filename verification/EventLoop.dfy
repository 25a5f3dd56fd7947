/** The pending-functor queue and the eventfd wakeup of net/Eventloop.cpp, as a protocol
    between the loop's own thread and any number of others.

    The steps are the atomic actions of the code: a push under the mutex, a write to the
    eventfd, a return of poll, the read of the eventfd, the swap under the mutex, the
    start of one functor. They interleave in any order the program order of each thread
    allows. */
module EventLoops {
  type Functor = nat
  type Thread = nat

  /** The largest value of an eventfd counter; a nonblocking write beyond it fails. */
  const EVENTFD_MAX: nat := 0xfffffffffffffffe

  /** Where the loop's thread is. While handling events, `unread` says that the wakeup
      channel was reported active and its handler has yet to run. While draining,
      `mustWake` says that the running functor has pushed and not yet written. */
  datatype Phase =
    | Polling
    | Handling(unread: bool)
    | Draining(batch: seq<Functor>, mustWake: bool)

  datatype Loop = Loop(
    queue: seq<Functor>,
    eventfd: nat,
    phase: Phase,
    /** The other threads that have pushed and not yet written. */
    waking: set<Thread>,
    /** Histories: what was pushed, and what was run. */
    pushed: seq<Functor>,
    ran: seq<Functor>)
  {
    function Bump(): nat { if eventfd < EVENTFD_MAX then eventfd + 1 else eventfd }

    function Push(f: Functor): Loop { this.(queue := queue + [f], pushed := pushed + [f]) }

    /** The functors taken from the queue but not yet started. */
    function Batch(): seq<Functor> { if phase.Draining? then phase.batch else [] }
  }

  datatype Step =
    | OtherPush(t: Thread, f: Functor)
    | OtherWake(t: Thread)
    | PollReturns
    | ReadWakeup
    | OwnPush(f: Functor)
    | OwnWake
    | Swap
    | RunFront
    | DrainDone

  predicate Enabled(s: Loop, a: Step) {
    match a
    case OtherPush(t, _) => t !in s.waking
    case OtherWake(t) => t in s.waking
    case PollReturns => s.phase.Polling?
    case ReadWakeup => s.phase.Handling? && s.phase.unread
    case OwnPush(_) => s.phase.Handling? || (s.phase.Draining? && !s.phase.mustWake)
    case OwnWake => s.phase.Draining? && s.phase.mustWake
    case Swap => s.phase.Handling? && !s.phase.unread
    case RunFront => s.phase.Draining? && !s.phase.mustWake && s.phase.batch != []
    case DrainDone => s.phase.Draining? && !s.phase.mustWake && s.phase.batch == []
  }

  function Next(s: Loop, a: Step): Loop
    requires Enabled(s, a)
  {
    match a
    case OtherPush(t, f) => s.Push(f).(waking := s.waking + {t})
    case OtherWake(t) => s.(eventfd := s.Bump(), waking := s.waking - {t})
    case PollReturns => s.(phase := Handling(s.eventfd > 0))
    case ReadWakeup => s.(eventfd := 0, phase := Handling(false))
    case OwnPush(f) => s.Push(f).(phase := if s.phase.Draining? then Draining(s.phase.batch, true) else s.phase)
    case OwnWake => s.(eventfd := s.Bump(), phase := Draining(s.phase.batch, false))
    case Swap => s.(queue := [], phase := Draining(s.queue, false))
    case RunFront => s.(ran := s.ran + [s.phase.batch[0]], phase := Draining(s.phase.batch[1..], false))
    case DrainDone => s.(phase := Polling)
  }

  /** The loop as `loop()` finds it: polling next, `queued` already pushed. */
  ghost function Entering(queued: seq<Functor>): Loop { Loop(queued, 0, Polling, {}, queued, []) }

  /** Work in the queue past the swap will be noticed by the next poll: the eventfd is
      readable, or some thread is on its way to making it so. */
  ghost predicate NoLostWakeup(s: Loop) {
    !s.phase.Handling? && s.queue != [] ==>
      s.eventfd > 0 || s.waking != {} || (s.phase.Draining? && s.phase.mustWake)
  }

  /** Every functor pushed is exactly one of run, taken, or queued, in push order. */
  ghost predicate Fifo(s: Loop) { s.pushed == s.ran + s.Batch() + s.queue }

  lemma StepKeepsInvariants(s: Loop, a: Step)
    requires NoLostWakeup(s) && Fifo(s) && Enabled(s, a)
    ensures NoLostWakeup(Next(s, a)) && Fifo(Next(s, a))
  {
    var t := Next(s, a);
    match a {
      case OtherPush(th, f) =>
        assert th in t.waking;
        assert s.ran + s.Batch() + s.queue + [f] == s.ran + s.Batch() + (s.queue + [f]);
      case OwnPush(f) =>
        assert s.ran + s.Batch() + s.queue + [f] == s.ran + s.Batch() + (s.queue + [f]);
      case Swap =>
        assert s.ran + [] + s.queue == s.ran + s.queue + [];
      case RunFront =>
        assert s.ran + s.phase.batch == s.ran + [s.phase.batch[0]] + s.phase.batch[1..];
      case _ =>
    }
  }

  datatype Run = Begin(queued: seq<Functor>) | Then(before: Run, step: Step)

  ghost predicate IsRun(r: Run) {
    r.Then? ==> IsRun(r.before) && Enabled(End(r.before), r.step)
  }

  ghost function End(r: Run): Loop {
    match r
    case Begin(q) => Entering(q)
    case Then(before, a) => if Enabled(End(before), a) then Next(End(before), a) else End(before)
  }

  ghost function EntryQueue(r: Run): seq<Functor> {
    match r
    case Begin(q) => q
    case Then(before, _) => EntryQueue(before)
  }

  /** Over every interleaving that enters `loop()` with an empty queue: no wakeup is ever
      lost, and functors start exactly once and in the order they were pushed. */
  lemma {:induction false} RunLosesNothing(r: Run)
    requires IsRun(r) && EntryQueue(r) == []
    ensures NoLostWakeup(End(r))
    ensures End(r).pushed == End(r).ran + End(r).Batch() + End(r).queue
  {
    if r.Then? {
      RunLosesNothing(r.before);
      StepKeepsInvariants(End(r.before), r.step);
    } else {
      assert EntryQueue(r) == r.queued;
    }
  }

  /** So whenever the loop sits in poll with work queued and no other thread is about to
      write, poll is ready to return and will report the wakeup channel. */
  lemma {:induction false} QueuedWorkIsReported(r: Run)
    requires IsRun(r) && EntryQueue(r) == []
    requires End(r).phase.Polling? && End(r).queue != [] && End(r).waking == {}
    ensures End(r).eventfd > 0
    ensures Next(End(r), PollReturns).phase == Handling(true)
  {
    RunLosesNothing(r);
  }

  /** Nothing pushed before a swap is left over when that drain ends, whatever the other
      threads and the functors themselves do meanwhile. */
  ghost function PushedAtLastSwap(r: Run): nat {
    match r
    case Begin(_) => 0
    case Then(before, a) => if a.Swap? then |End(before).pushed| else PushedAtLastSwap(before)
  }

  lemma {:induction false} DrainRunsEverythingSwapped(r: Run)
    requires IsRun(r) && EntryQueue(r) == []
    ensures |End(r).ran| + |End(r).Batch()| == PushedAtLastSwap(r)
    ensures PushedAtLastSwap(r) <= |End(r).pushed|
    ensures !End(r).phase.Draining? ==> End(r).ran == End(r).pushed[..PushedAtLastSwap(r)]
  {
    RunLosesNothing(r);
    if r.Then? {
      DrainRunsEverythingSwapped(r.before);
      RunLosesNothing(r.before);
    }
    if !End(r).phase.Draining? {
      assert End(r).ran + [] == End(r).ran;
    }
  }

  ghost predicate KeepsWakeups(r: Run, queued: seq<Functor>) {
    IsRun(r) && EntryQueue(r) == queued ==> NoLostWakeup(End(r))
  }

  /** Functors queued by the owning thread before `loop()` write nothing to the eventfd:
      no run loses a wakeup exactly if there were none. */
  lemma NothingLostIff(queued: seq<Functor>)
    ensures (forall r :: KeepsWakeups(r, queued)) <==> queued == []
  {
    if queued == [] {
      forall r ensures KeepsWakeups(r, queued) {
        if IsRun(r) && EntryQueue(r) == queued { RunLosesNothing(r); }
      }
    } else {
      assert End(Begin(queued)) == Entering(queued);
      assert !KeepsWakeups(Begin(queued), queued);
    }
  }

  // ---------------------------------------------------------------- what is given is run

  /** The functors given to `queueInLoop`, by whatever thread, and those started. */
  ghost function Given(r: Run): seq<Functor> {
    match r
    case Begin(queued) => queued
    case Then(before, a) => Given(before) + (if a.OtherPush? || a.OwnPush? then [a.f] else [])
  }

  ghost function Started(r: Run): seq<Functor> {
    match r
    case Begin(_) => []
    case Then(before, a) =>
      var s := End(before);
      Started(before) + (if a.RunFront? && s.phase.Draining? && s.phase.batch != [] then [s.phase.batch[0]] else [])
  }

  lemma StepKeepsFifo(s: Loop, a: Step)
    requires Fifo(s) && Enabled(s, a)
    ensures Fifo(Next(s, a))
  {
    match a {
      case OtherPush(_, f) => assert s.ran + s.Batch() + s.queue + [f] == s.ran + s.Batch() + (s.queue + [f]);
      case OwnPush(f) => assert s.ran + s.Batch() + s.queue + [f] == s.ran + s.Batch() + (s.queue + [f]);
      case Swap => assert s.ran + [] + s.queue == s.ran + s.queue + [];
      case RunFront => assert s.ran + s.phase.batch == s.ran + [s.phase.batch[0]] + s.phase.batch[1..];
      case _ =>
    }
  }

  /** What is given is started, each once and in the order given, but for what is still
      taken or queued. */
  lemma {:induction false} StartedInOrderGiven(r: Run)
    requires IsRun(r)
    ensures End(r).pushed == Given(r) && End(r).ran == Started(r)
    ensures Given(r) == Started(r) + End(r).Batch() + End(r).queue
  {
    match r {
      case Begin(_) =>
      case Then(before, a) =>
        StartedInOrderGiven(before);
        StepKeepsFifo(End(before), a);
    }
  }

  // ---------------------------------------------------------------- the eventfd

  predicate Writes(a: Step) { a.OtherWake? || a.OwnWake? }

  ghost function WritesSinceRead(r: Run): nat {
    match r
    case Begin(_) => 0
    case Then(before, a) => if a.ReadWakeup? then 0 else WritesSinceRead(before) + (if Writes(a) then 1 else 0)
  }

  /** The eventfd holds the number of writes since it was last read, up to what fits, so poll
      reports the wakeup channel exactly if there was one, and the read takes them all. */
  lemma {:induction false} EventfdCountsWrites(r: Run)
    requires IsRun(r)
    ensures End(r).eventfd == if WritesSinceRead(r) < EVENTFD_MAX then WritesSinceRead(r) else EVENTFD_MAX
    ensures End(r).phase.Polling? ==> (Next(End(r), PollReturns).phase == Handling(true) <==> WritesSinceRead(r) > 0)
    ensures r.Then? && r.step.ReadWakeup? ==> End(r).eventfd == 0 && End(r).phase == Handling(false)
  {
    if r.Then? { EventfdCountsWrites(r.before); }
  }

  ghost function WritesIn(r: Run): nat {
    match r
    case Begin(_) => 0
    case Then(before, a) => WritesIn(before) + (if Writes(a) then 1 else 0)
  }

  /** Pushes that call for a wakeup: those of other threads, and those of running functors. */
  ghost function PushesToWake(r: Run): nat {
    match r
    case Begin(_) => 0
    case Then(before, a) =>
      PushesToWake(before) + (if a.OtherPush? || (a.OwnPush? && End(before).phase.Draining?) then 1 else 0)
  }

  /** Each of these is followed by one write of its thread, and nothing else is written. */
  lemma {:induction false} OneWriteForEachPush(r: Run)
    requires IsRun(r)
    ensures WritesIn(r) + |End(r).waking| + (if End(r).phase.Draining? && End(r).phase.mustWake then 1 else 0)
         == PushesToWake(r)
  {
    if r.Then? { OneWriteForEachPush(r.before); }
  }

  // ---------------------------------------------------------------- the class

  /** What the functors `fs` queue, one after the other. */
  ghost function Posted(fs: seq<Functor>, posts: Functor -> seq<Functor>): seq<Functor> {
    if fs == [] then [] else posts(fs[0]) + Posted(fs[1..], posts)
  }

  /** No other thread does anything. */
  ghost predicate Alone(others: nat -> seq<Step>) { forall i :: others(i) == [] }

  ghost predicate Undisturbed(others: (nat, nat) -> seq<Step>) { forall k, i :: others(k, i) == [] }

  lemma PostedOnce(queued: seq<Functor>, fs: seq<Functor>, posts: Functor -> seq<Functor>)
    requires fs != []
    ensures fs == [fs[0]] + fs[1..]
    ensures queued + Posted(fs, posts) == queued + posts(fs[0]) + Posted(fs[1..], posts)
  {
  }

  lemma Moved(ran: seq<Functor>, batch: seq<Functor>)
    requires batch != []
    ensures ran + [batch[0]] + batch[1..] == ran + batch
  {
  }

  class EventLoop {
    var pendingFunctors: seq<Functor>
    var wakeupFd: nat
    var isCallingPendingFunctors: bool
    /** The local vector of `handlePendingFunctors`, from its front. */
    var batch: seq<Functor>
    /** The other threads between the push and the write of `queueInLoop`. */
    var waking: set<Thread>
    /** The loop's own thread's place between the statements of `loop` and `queueInLoop`. */
    ghost var phase: Phase
    ghost var pushed: seq<Functor>
    ghost var ran: seq<Functor>

    ghost predicate Valid()
      reads this
    {
      && isCallingPendingFunctors == phase.Draining?
      && (phase.Draining? ==> batch == phase.batch)
    }

    ghost function View(): Loop
      reads this
    {
      Loop(pendingFunctors, wakeupFd, phase, waking, pushed, ran)
    }

    /** No wakeup is lost, and functors run in the order they are pushed. */
    ghost predicate Sound()
      reads this
    {
      NoLostWakeup(View()) && Fifo(View())
    }

    constructor ()
      ensures Valid() && View() == Entering([])
    {
      pendingFunctors, wakeupFd, isCallingPendingFunctors, batch := [], 0, false, [];
      phase, waking, pushed, ran := Polling, {}, [], [];
    }

    /** The locked half of `queueInLoop`. The caller is the loop's own thread if `own`;
        the result says whether a wakeup must follow. */
    method Push(f: Functor, own: bool, t: Thread) returns (wake: bool)
      requires Valid() && Enabled(View(), if own then OwnPush(f) else OtherPush(t, f))
      modifies this
      ensures Valid()
      ensures View() == Next(old(View()), if own then OwnPush(f) else OtherPush(t, f)) && batch == old(batch)
      ensures wake <==> if own then View().phase.Draining? && View().phase.mustWake else t in View().waking
    {
      pendingFunctors := pendingFunctors + [f];
      pushed := pushed + [f];
      wake := !own || isCallingPendingFunctors;
      if own {
        phase := if phase.Draining? then Draining(phase.batch, true) else phase;
      } else {
        waking := waking + {t};
      }
    }

    /** `WakeupToHandlePendingFunctors`, after a push that asked for it. */
    method Wakeup(own: bool, t: Thread)
      requires Valid() && Enabled(View(), if own then OwnWake else OtherWake(t))
      modifies this
      ensures Valid()
      ensures View() == Next(old(View()), if own then OwnWake else OtherWake(t)) && batch == old(batch)
      ensures wakeupFd == if old(wakeupFd) < EVENTFD_MAX then old(wakeupFd) + 1 else old(wakeupFd)
    {
      if wakeupFd < EVENTFD_MAX {
        wakeupFd := wakeupFd + 1;
      }
      if own {
        phase := Draining(phase.batch, false);
      } else {
        waking := waking - {t};
      }
    }

    method Poll() returns (wakeupActive: bool)
      requires Valid() && phase.Polling?
      modifies this`phase
      ensures Valid() && View() == Next(old(View()), PollReturns)
      ensures wakeupActive <==> wakeupFd > 0
      ensures wakeupActive <==> View().phase.unread
    {
      wakeupActive := wakeupFd > 0;
      phase := Handling(wakeupActive);
    }

    method HandleWakeupChannelRead()
      requires Valid() && phase.Handling? && phase.unread
      modifies this`wakeupFd, this`phase
      ensures Valid() && View() == Next(old(View()), ReadWakeup)
      ensures wakeupFd == 0 && pendingFunctors == old(pendingFunctors)
    {
      wakeupFd := 0;
      phase := Handling(false);
    }

    /** The flag and the swap at the start of `handlePendingFunctors`. */
    method SwapPending()
      requires Valid() && Enabled(View(), Swap)
      modifies this
      ensures Valid() && View() == Next(old(View()), Swap)
    {
      isCallingPendingFunctors := true;
      batch, pendingFunctors := pendingFunctors, [];
      phase := Draining(batch, false);
    }

    method StartFunctor() returns (f: Functor)
      requires Valid() && Enabled(View(), RunFront)
      modifies this
      ensures Valid() && View() == Next(old(View()), RunFront)
      ensures f == old(batch[0])
    {
      f := batch[0];
      batch := batch[1..];
      ran := ran + [f];
      phase := Draining(batch, false);
    }

    method FinishDraining()
      requires Valid() && Enabled(View(), DrainDone)
      modifies this
      ensures Valid() && View() == Next(old(View()), DrainDone)
    {
      isCallingPendingFunctors := false;
      phase := Polling;
    }

    /** What other threads do meanwhile. A step whose time has not come is passed over. */
    method Others(steps: seq<Step>)
      requires Valid() && Sound()
      modifies this
      ensures Valid() && Sound() && phase == old(phase) && batch == old(batch) && ran == old(ran)
      ensures steps == [] ==> View() == old(View())
    {
      var i := 0;
      while i < |steps|
        invariant 0 <= i <= |steps|
        invariant Valid() && Sound() && phase == old(phase) && batch == old(batch) && ran == old(ran)
        invariant i == 0 ==> View() == old(View())
      {
        ghost var s := View();
        match steps[i] {
          case OtherPush(t, f) =>
            if t !in waking {
              StepKeepsInvariants(s, steps[i]);
              var wake := Push(f, false, t);
            }
          case OtherWake(t) =>
            if t in waking {
              StepKeepsInvariants(s, steps[i]);
              Wakeup(false, t);
            }
          case _ =>
        }
        i := i + 1;
      }
    }

    /** `queueInLoop` of a running functor, with what others do between its push and its
        write. */
    method QueueInLoop(f: Functor, others: seq<Step>)
      requires Valid() && Sound() && phase.Draining? && !phase.mustWake
      modifies this
      ensures Valid() && Sound() && phase == old(phase) && batch == old(batch) && ran == old(ran)
      ensures others == [] ==> pendingFunctors == old(pendingFunctors) + [f]
    {
      StepKeepsInvariants(View(), OwnPush(f));
      var wake := Push(f, true, 0);
      assert wake;
      Others(others);
      StepKeepsInvariants(View(), OwnWake);
      Wakeup(true, 0);
    }

    /** One functor runs and calls `queueInLoop` for each of `posts`; `others(i)` says what
        other threads do during the i-th call. */
    method RunFunctor(posts: Functor -> seq<Functor>, others: nat -> seq<Step>)
      requires Valid() && Sound() && Enabled(View(), RunFront)
      modifies this
      ensures Valid() && Sound() && phase.Draining? && !phase.mustWake
      ensures batch == old(batch)[1..] && ran == old(ran) + [old(batch)[0]]
      ensures Alone(others) ==> pendingFunctors == old(pendingFunctors) + posts(old(batch)[0])
    {
      StepKeepsInvariants(View(), RunFront);
      var f := StartFunctor();
      var i := 0;
      while i < |posts(f)|
        invariant 0 <= i <= |posts(f)|
        invariant Valid() && Sound() && phase.Draining? && !phase.mustWake
        invariant batch == old(batch)[1..] && ran == old(ran) + [f]
        invariant Alone(others) ==> pendingFunctors == old(pendingFunctors) + posts(f)[..i]
      {
        QueueInLoop(posts(f)[i], others(i));
        i := i + 1;
      }
      assert posts(f)[..i] == posts(f);
    }

    /** The loop of `handlePendingFunctors`. */
    method Drain(posts: Functor -> seq<Functor>, others: (nat, nat) -> seq<Step>)
      requires Valid() && Sound() && phase.Draining? && !phase.mustWake
      modifies this
      ensures Valid() && Sound() && phase.Draining? && !phase.mustWake
      ensures batch == [] && ran == old(ran) + old(batch)
      ensures Undisturbed(others) ==> pendingFunctors == old(pendingFunctors) + Posted(old(batch), posts)
    {
      var k: nat := 0;
      while batch != []
        invariant Valid() && Sound() && phase.Draining? && !phase.mustWake
        invariant ran + batch == old(ran) + old(batch)
        invariant Undisturbed(others) ==>
          pendingFunctors + Posted(batch, posts) == old(pendingFunctors) + Posted(old(batch), posts)
        decreases |batch|
      {
        Moved(ran, batch);
        PostedOnce(pendingFunctors, batch, posts);
        assert Undisturbed(others) ==> Alone((i: nat) => others(k, i));
        RunFunctor(posts, (i: nat) => others(k, i));
        k := k + 1;
      }
    }

    /** `handlePendingFunctors`, each functor queueing the further functors `posts` gives for
        it, and other threads queueing at any time: everything that was pending runs, in
        order; whatever was queued meanwhile waits, and no wakeup for it is lost. What waits
        is just what the functors queued if nobody else did. */
    method HandlePendingFunctors(posts: Functor -> seq<Functor>, others: (nat, nat) -> seq<Step>)
      requires Valid() && Sound() && Enabled(View(), Swap)
      modifies this
      ensures Valid() && Sound() && phase.Polling?
      ensures ran == old(ran) + old(pendingFunctors)
      ensures pendingFunctors != [] ==> wakeupFd > 0 || waking != {}
      ensures Undisturbed(others) ==> pendingFunctors == Posted(old(pendingFunctors), posts)
    {
      StepKeepsInvariants(View(), Swap);
      SwapPending();
      assert ran == old(ran) && batch == old(pendingFunctors) && pendingFunctors == [];
      Drain(posts, others);
      StepKeepsInvariants(View(), DrainDone);
      FinishDraining();
    }
  }
}
