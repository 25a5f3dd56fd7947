/** The worker pool of threadpool/threadpool.cpp and threadpool/threadpool.h.

    Tasks are numbered in the order they are added, so `added` is also their number. The
    steps are the sections under the mutex, the completion of a task, and the store to
    the stop flag; they interleave in any way. */
module ThreadPools {
  type Task = nat
  type Worker = nat

  datatype WorkerState = Waiting | Running(task: Task) | Returned

  datatype Pool = Pool(
    queue: seq<Task>,
    stop: bool,
    workers: map<Worker, WorkerState>,
    /** How many tasks were ever added, and which have finished. */
    added: nat,
    finished: set<Task>)
  {
    ghost function InFlight(): set<Task> {
      set w | w in workers && workers[w].Running? :: workers[w].task
    }

    ghost predicate AllReturned() {
      forall w :: w in workers ==> workers[w].Returned?
    }
  }

  function Below(n: nat): (ks: set<nat>)
    ensures forall k: nat :: k in ks <==> k < n
  {
    if n == 0 then {} else Below(n - 1) + {n - 1}
  }

  function Fresh(n: nat): Pool {
    Pool([], false, map w | w in Below(n) :: Waiting, 0, {})
  }

  datatype Step =
    | AddOutside
    /** A running task adds a task to its own pool. */
    | AddInside(w: Worker)
    /** The section under the lock, once the wait predicate holds: return or take. */
    | Wake(w: Worker)
    | Finish(w: Worker)
    | SetStop

  predicate Enabled(s: Pool, a: Step) {
    match a
    case AddOutside => true
    case AddInside(w) => w in s.workers && s.workers[w].Running?
    case Wake(w) => w in s.workers && s.workers[w].Waiting? && (s.stop || s.queue != [])
    case Finish(w) => w in s.workers && s.workers[w].Running?
    case SetStop => true
  }

  function Add(s: Pool): Pool {
    s.(queue := s.queue + [s.added], added := s.added + 1)
  }

  function Next(s: Pool, a: Step): Pool
    requires Enabled(s, a)
  {
    match a
    case AddOutside => Add(s)
    case AddInside(w) => Add(s)
    case Wake(w) =>
      if s.stop && s.queue == [] then s.(workers := s.workers[w := Returned])
      else s.(queue := s.queue[1..], workers := s.workers[w := Running(s.queue[0])])
    case Finish(w) => s.(workers := s.workers[w := Waiting], finished := s.finished + {s.workers[w].task})
    case SetStop => s.(stop := true)
  }

  /** The number of the first task still queued. */
  ghost function Front(s: Pool): int { s.added - |s.queue| }

  /** The queue is the tasks from the front on, in order; the tasks before it are in
      flight or finished, never both, each in flight with one worker. */
  ghost predicate Partition(s: Pool) {
    && 0 <= Front(s)
    && (forall i :: 0 <= i < |s.queue| ==> s.queue[i] == Front(s) + i)
    && (forall k: Task :: k < Front(s) <==> k in s.finished || k in s.InFlight())
    && s.finished !! s.InFlight()
    && (forall v, w :: v in s.workers && w in s.workers && v != w && s.workers[v].Running? && s.workers[w].Running?
                    ==> s.workers[v].task != s.workers[w].task)
  }

  lemma InFlightMembers(s: Pool, k: Task)
    ensures k in s.InFlight() <==> exists w :: w in s.workers && s.workers[w] == Running(k)
  {
    if w :| w in s.workers && s.workers[w] == Running(k) {
      assert s.workers[w].Running? && s.workers[w].task == k;
    }
  }

  lemma AddKeepsPartition(s: Pool)
    requires Partition(s)
    ensures Partition(Add(s))
  {
    assert Add(s).InFlight() == s.InFlight();
  }

  lemma TakeKeepsPartition(s: Pool, w: Worker)
    requires Partition(s) && Enabled(s, Wake(w)) && s.queue != []
    ensures Partition(Next(s, Wake(w)))
  {
    var t := Next(s, Wake(w));
    assert Front(t) == Front(s) + 1 && t.workers[w] == Running(Front(s));
    forall k: Task ensures k in t.InFlight() <==> k in s.InFlight() || k == Front(s) {
      InFlightMembers(s, k);
      InFlightMembers(t, k);
      if v :| v in s.workers && s.workers[v] == Running(k) { assert t.workers[v] == Running(k); }
    }
    forall v | v in s.workers && v != w && s.workers[v].Running? ensures s.workers[v].task < Front(s) {
      InFlightMembers(s, s.workers[v].task);
    }
  }

  lemma FinishKeepsPartition(s: Pool, w: Worker)
    requires Partition(s) && Enabled(s, Finish(w))
    ensures Partition(Next(s, Finish(w)))
  {
    var t := Next(s, Finish(w));
    var done := s.workers[w].task;
    InFlightMembers(s, done);
    forall k: Task ensures k in t.InFlight() <==> k in s.InFlight() && k != done {
      InFlightMembers(s, k);
      InFlightMembers(t, k);
      if v :| v in s.workers && s.workers[v] == Running(k) && k != done { assert t.workers[v] == Running(k); }
      if v :| v in t.workers && t.workers[v] == Running(k) { assert v != w && s.workers[v] == Running(k); }
    }
  }

  lemma StepKeepsPartition(s: Pool, a: Step)
    requires Partition(s) && Enabled(s, a)
    ensures Partition(Next(s, a))
  {
    match a {
      case AddOutside => AddKeepsPartition(s);
      case AddInside(w) => AddKeepsPartition(s);
      case Wake(w) =>
        if s.queue != [] { TakeKeepsPartition(s, w); }
        else {
          forall k: Task ensures k in Next(s, a).InFlight() <==> k in s.InFlight() {
            InFlightMembers(s, k);
            InFlightMembers(Next(s, a), k);
            if v :| v in s.workers && s.workers[v] == Running(k) { assert Next(s, a).workers[v] == Running(k); }
          }
        }
      case Finish(w) => FinishKeepsPartition(s, w);
      case SetStop => assert Next(s, a).InFlight() == s.InFlight();
    }
  }

  datatype Run = Begin(threads: nat) | Then(before: Run, step: Step)

  ghost predicate IsRun(r: Run) {
    r.Then? ==> IsRun(r.before) && Enabled(End(r.before), r.step)
  }

  ghost function End(r: Run): Pool {
    match r
    case Begin(n) => Fresh(n)
    case Then(before, a) => if Enabled(End(before), a) then Next(End(before), a) else End(before)
  }

  ghost function Threads(r: Run): nat {
    match r
    case Begin(n) => n
    case Then(before, _) => Threads(before)
  }

  /** Over every interleaving, each task added is exactly one of queued, in flight with
      one worker, or finished; tasks start in the order they were added. */
  lemma {:induction false} RunPartitionsTasks(r: Run)
    requires IsRun(r)
    ensures Partition(End(r))
    ensures End(r).workers.Keys == Below(Threads(r))
  {
    match r {
      case Begin(n) => assert Fresh(n).InFlight() == {} && Fresh(n).workers.Keys == Below(n);
      case Then(before, a) =>
        RunPartitionsTasks(before);
        StepKeepsPartition(End(before), a);
    }
  }

  /** A thread outside the pool has added a task when no worker was left. */
  ghost predicate AddedAfterReturn(r: Run) {
    r.Then? && (AddedAfterReturn(r.before) || (r.step.AddOutside? && End(r.before).AllReturned()))
  }

  /** A worker that has returned has left for good, and the last one left nothing behind. */
  lemma {:induction false} LastWorkerDrains(r: Run)
    requires IsRun(r)
    ensures AddedAfterReturn(r) ==> End(r).AllReturned()
    ensures End(r).AllReturned() ==> (End(r).queue == [] <==> !AddedAfterReturn(r))
  {
    if r.Then? {
      LastWorkerDrains(r.before);
      var s, t := End(r.before), End(r);
      match r.step {
        case AddInside(w) => assert !s.workers[w].Returned?;
        case Wake(w) => assert !s.workers[w].Returned? && w in t.workers;
        case Finish(w) => assert !t.workers[w].Returned? && w in t.workers;
        case _ =>
      }
    }
  }

  /** What the destructor loses. Once all workers have returned, every task ever added has
      finished, including those that running tasks added, exactly if nobody added one when
      the last worker had left. */
  lemma {:induction false} ReturnedPoolIsDrained(r: Run)
    requires IsRun(r)
    ensures End(r).AllReturned() ==> (End(r).queue == [] <==> !AddedAfterReturn(r))
    ensures End(r).AllReturned() ==> (End(r).finished == Below(End(r).added) <==> !AddedAfterReturn(r))
  {
    LastWorkerDrains(r);
    RunPartitionsTasks(r);
    if End(r).AllReturned() { FinishedUpToFront(End(r)); }
  }

  lemma FinishedUpToFront(s: Pool)
    requires Partition(s) && s.AllReturned()
    ensures s.queue == [] <==> s.finished == Below(s.added)
  {
    forall k: Task ensures k !in s.InFlight() { InFlightMembers(s, k); }
    if s.queue != [] { assert s.queue[0] in Below(s.added) && s.queue[0] !in s.finished; }
  }

  /** Each task is taken by a worker at most once in a run. */
  ghost function Starts(r: Run, k: Task): nat {
    match r
    case Begin(_) => 0
    case Then(before, a) =>
      Starts(before, k) +
        if a.Wake? && End(before).queue != [] && End(before).queue[0] == k then 1 else 0
  }

  lemma {:induction false} TaskStartsOnce(r: Run, k: Task)
    requires IsRun(r)
    ensures Starts(r, k) == if k < Front(End(r)) then 1 else 0
  {
    RunPartitionsTasks(r);
    if r.Then? {
      TaskStartsOnce(r.before, k);
      RunPartitionsTasks(r.before);
    }
  }

  /** How many tasks were given to the pool, and how many times a worker was done with one. */
  ghost function Given(r: Run): nat {
    match r
    case Begin(_) => 0
    case Then(before, a) => Given(before) + (if a.AddOutside? || a.AddInside? then 1 else 0)
  }

  ghost function TimesDone(r: Run): nat {
    match r
    case Begin(_) => 0
    case Then(before, a) => TimesDone(before) + (if a.Finish? then 1 else 0)
  }

  /** Every task given gets a number, and is in the queue from then on until it is started;
      what workers have been done with are different tasks. */
  lemma {:induction false} GivenTasksCount(r: Run)
    requires IsRun(r)
    ensures End(r).added == Given(r) && |End(r).finished| == TimesDone(r)
    ensures r.Then? && (r.step.AddOutside? || r.step.AddInside?) ==>
      End(r).queue == End(r.before).queue + [Given(r.before)]
    ensures r.Then? && r.step.Finish? ==>
      End(r).workers == End(r.before).workers[r.step.w := Waiting] && End(r).finished != End(r.before).finished
  {
    if r.Then? {
      GivenTasksCount(r.before);
      RunPartitionsTasks(r.before);
      if r.step.Finish? { InFlightMembers(End(r.before), End(r.before).workers[r.step.w].task); }
    }
  }

  /** No worker is stuck: as long as one has not returned there is a step for it, unless it
      waits for work and there is neither a task nor the stop. */
  lemma {:induction false} WorkersGoOn(r: Run, w: Worker)
    requires IsRun(r)
    ensures w in End(r).workers && !End(r).workers[w].Returned? && (End(r).queue != [] || End(r).stop) ==>
      Enabled(End(r), Wake(w)) || Enabled(End(r), Finish(w))
  {
  }

  ghost predicate Extends(r: Run, r0: Run) {
    r == r0 || (r.Then? && Extends(r.before, r0))
  }

  lemma {:induction false} ExtendsThrough(r: Run, r1: Run, r0: Run)
    requires Extends(r, r1) && Extends(r1, r0)
    ensures Extends(r, r0)
    decreases r
  {
    if r != r1 { ExtendsThrough(r.before, r1, r0); }
  }

  /** After the last worker has returned nothing starts and nothing finishes any more; so
      what is in the queue then, or is added later, never runs. */
  lemma {:induction false} NothingStartsAfterReturn(r: Run, r0: Run, k: Task)
    requires IsRun(r) && Extends(r, r0) && End(r0).AllReturned()
    ensures IsRun(r0) && End(r).AllReturned()
    ensures Starts(r, k) == Starts(r0, k) && End(r).finished == End(r0).finished
    ensures k in End(r0).queue ==> k in End(r).queue && Starts(r, k) == 0
    decreases r
  {
    if r != r0 {
      NothingStartsAfterReturn(r.before, r0, k);
    } else {
      TaskStartsOnce(r, k);
      RunPartitionsTasks(r);
    }
  }

  /** The first `k` of `n` workers leave a pool that was stopped with nothing to do. */
  ghost function Leaving(n: nat, k: nat): Run {
    if k == 0 then Then(Begin(n), SetStop) else Then(Leaving(n, k - 1), Wake(k - 1))
  }

  lemma {:induction false} LeavingIsRun(n: nat, k: nat)
    requires k <= n
    ensures IsRun(Leaving(n, k)) && Threads(Leaving(n, k)) == n
    ensures End(Leaving(n, k)) == Pool([], true, map w | w in Below(n) :: if w < k then Returned else Waiting, 0, {})
  {
    if k == 0 {
      assert End(Leaving(n, k)).workers == map w | w in Below(n) :: if w < k then Returned else Waiting;
    } else {
      LeavingIsRun(n, k - 1);
      assert End(Leaving(n, k)).workers == map w | w in Below(n) :: if w < k then Returned else Waiting;
    }
  }

  /** A pool of any size can lose a task so; the program's has four workers. */
  lemma LateTaskIsLost(n: nat)
    ensures exists r ::
      IsRun(r) && Threads(r) == n && End(r).AllReturned() && AddedAfterReturn(r) && End(r).queue == [0]
  {
    LeavingIsRun(n, n);
    var r := Then(Leaving(n, n), AddOutside);
    assert IsRun(r) && Threads(r) == n && End(r).AllReturned() && AddedAfterReturn(r) && End(r).queue == [0];
  }

  // ---------------------------------------------------------------- the class

  class ThreadPool {
    var taskQueue: seq<Task>
    var bStop: bool
    var threads: map<Worker, WorkerState>
    /** The number the next task gets. */
    var added: nat
    ghost var finished: set<Task>

    /** The steps made so far. */
    ghost var run: Run

    ghost function View(): Pool
      reads this
    {
      Pool(taskQueue, bStop, threads, added, finished)
    }

    ghost predicate Valid()
      reads this
    {
      IsRun(run) && View() == End(run)
    }

    constructor (threadNum: nat)
      ensures Valid() && run == Begin(threadNum) && View() == Fresh(threadNum)
    {
      taskQueue, bStop := [], false;
      threads := map w | w in Below(threadNum) :: Waiting;
      added, finished := 0, {};
      run := Begin(threadNum);
    }

    /** `addTask`, under the lock; from a running task if `caller` is that worker. */
    method AddTask(task: Task, ghost outside: bool, ghost caller: Worker)
      requires Valid() && task == added
      requires outside || Enabled(View(), AddInside(caller))
      modifies this
      ensures Valid() && run == Then(old(run), if outside then AddOutside else AddInside(caller))
      ensures taskQueue == old(taskQueue) + [task] && threads == old(threads) && bStop == old(bStop)
    {
      taskQueue := taskQueue + [task];
      added := added + 1;
      run := Then(run, if outside then AddOutside else AddInside(caller));
    }

    /** One pass of `threadFunc` through the locked section. The wait ends because its
        predicate holds. */
    method WaitAndTake(w: Worker) returns (task: Task, returned: bool)
      requires Valid() && Enabled(View(), Wake(w))
      modifies this
      ensures Valid() && run == Then(old(run), Wake(w))
      ensures returned <==> old(bStop) && old(taskQueue) == []
      ensures !returned ==> [task] + taskQueue == old(taskQueue) && threads == old(threads)[w := Running(task)]
      ensures returned ==> taskQueue == [] && threads == old(threads)[w := Returned]
      ensures bStop == old(bStop)
    {
      task := 0;
      returned := bStop && taskQueue == [];
      if returned {
        threads := threads[w := Returned];
      } else {
        task := taskQueue[0];
        taskQueue := taskQueue[1..];
        threads := threads[w := Running(task)];
      }
      run := Then(run, Wake(w));
    }

    method FinishTask(w: Worker)
      requires Valid() && Enabled(View(), Finish(w))
      modifies this
      ensures Valid() && run == Then(old(run), Finish(w))
      ensures finished == old(finished) + {old(threads)[w].task} && threads == old(threads)[w := Waiting]
      ensures taskQueue == old(taskQueue) && bStop == old(bStop)
    {
      finished := finished + {threads[w].task};
      threads := threads[w := Waiting];
      run := Then(run, Finish(w));
    }

    /** The store with which the destructor begins. */
    method Stop()
      requires Valid()
      modifies this
      ensures Valid() && run == Then(old(run), SetStop)
      ensures bStop && threads == old(threads) && taskQueue == old(taskQueue)
    {
      bStop := true;
      run := Then(run, SetStop);
    }

    /** What others do meanwhile: callers, and workers but `w`. A step whose time has not
        come is passed over. */
    method Others(w: Worker, steps: seq<Step>)
      requires Valid() && w in threads
      modifies this
      ensures Valid() && Extends(run, old(run)) && w in threads && threads[w] == old(threads)[w]
    {
      var i := 0;
      while i < |steps|
        invariant 0 <= i <= |steps|
        invariant Valid() && Extends(run, old(run)) && w in threads && threads[w] == old(threads)[w]
      {
        match steps[i] {
          case AddOutside => AddTask(added, true, 0);
          case SetStop => Stop();
          case AddInside(v) =>
            if v in threads && threads[v].Running? { AddTask(added, false, v); }
          case Wake(v) =>
            if v != w && v in threads && threads[v].Waiting? && (bStop || taskQueue != []) {
              var task, returned := WaitAndTake(v);
            }
          case Finish(v) =>
            if v != w && v in threads && threads[v].Running? { FinishTask(v); }
        }
        i := i + 1;
      }
    }

    /** `threadFunc` of worker `w`, for as many turns as are given. `others` says what
        everybody else does before each turn and, the adding of tasks by `w` itself
        included, while its task runs. The worker only leaves a stopped pool with nothing
        in its queue. */
    method ThreadFunc(w: Worker, others: seq<(seq<Step>, seq<Step>)>) returns (returned: bool)
      requires Valid() && w in threads && threads[w].Waiting?
      modifies this
      ensures Valid() && Extends(run, old(run)) && w in threads
      ensures if returned then threads[w].Returned? && bStop && taskQueue == [] else threads[w].Waiting?
    {
      var turn := 0;
      while turn < |others|
        invariant 0 <= turn <= |others|
        invariant Valid() && Extends(run, old(run)) && w in threads && threads[w].Waiting?
      {
        ghost var before := run;
        Others(w, others[turn].0);
        ExtendsThrough(run, before, old(run));
        before := run;
        if bStop || taskQueue != [] {
          var task, left := WaitAndTake(w);
          ExtendsThrough(run, before, old(run));
          if left {
            return true;
          }
          before := run;
          Others(w, others[turn].1);
          ExtendsThrough(run, before, old(run));
          FinishTask(w);
        }
        turn := turn + 1;
      }
      returned := false;
    }

    /** `threadFunc` of the only worker still in the loop, after the stop, with nobody
        else adding tasks: it finishes everything that is queued and returns. */
    method ThreadFuncAfterStop(w: Worker)
      requires Valid() && bStop && w in threads && threads[w].Waiting?
      modifies this
      ensures Valid() && threads == old(threads)[w := Returned] && taskQueue == []
      ensures finished == old(finished) + set k | k in old(taskQueue)
    {
      while true
        invariant Valid() && bStop && w in threads && threads[w].Waiting? && threads == old(threads)
        invariant finished + (set k | k in taskQueue) == old(finished) + (set k | k in old(taskQueue))
        decreases |taskQueue|
      {
        ghost var before := taskQueue;
        var task, returned := WaitAndTake(w);
        if returned {
          return;
        }
        assert forall k :: k in before <==> k == task || k in taskQueue by {
          assert before == [task] + taskQueue;
        }
        FinishTask(w);
        assert threads == old(threads);
      }
    }
  }
}
