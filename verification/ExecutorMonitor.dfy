/** The structure executor with the functions of src/executor.c, and the loops of src/worker.c. */
module ExecutorMonitor {
  import opened Base
  import opened CondVars
  import opened QueueTypes
  import opened JobQueue
  import opened Executor
  import Job

  // ---- waits ----

  /** The wait of shutdown_executor for the submitters: what it leaves, and whether it is over. */
  function AwaitSubmittersCall(m: Memory, t: Tid, wakes: seq<Memory>): (Memory, bool)
    decreases |wakes|
  {
    if m.submitters == 0 then (m, true)
    else if wakes == [] then (SleepForSubmitters(m, t), false)
    else AwaitSubmittersCall(WakeForSubmitters(wakes[0], t), t, wakes[1..])
  }

  /** The wait for the workers. */
  function AwaitWorkersCall(m: Memory, t: Tid, wakes: seq<Memory>): (Memory, bool)
    decreases |wakes|
  {
    if m.activeWorkers == 0 then (m, true)
    else if wakes == [] then (SleepForWorkers(m, t), false)
    else AwaitWorkersCall(WakeForWorkers(wakes[0], t), t, wakes[1..])
  }

  /**
   What decides the wait of the shutdown: it is over when it first finds no submitter, and sleeps
   while it has found some every time.
   */
  lemma {:induction false} AwaitSubmittersCallIsDecided(m: Memory, t: Tid, wakes: seq<Memory>) returns (i: nat)
    ensures i <= |wakes| && forall k | 0 <= k < i :: Found(m, wakes, k).submitters > 0
    ensures var l, (m', over) := Found(m, wakes, i), AwaitSubmittersCall(m, t, wakes);
            && (over <==> l.submitters == 0)
            && (!over ==> i == |wakes| && t in m'.submittersUntilZero.asleep)
            && m'.submitters == l.submitters && m'.activeWorkers == l.activeWorkers
            && m'.shutdownRequested == l.shutdownRequested && m'.jobQ == l.jobQ
    decreases |wakes|
  {
    i := 0;
    if m.submitters > 0 && wakes != [] {
      var woken := WakeForSubmitters(wakes[0], t);
      var j := AwaitSubmittersCallIsDecided(woken, t, wakes[1..]);
      i := j + 1;
      forall k | 0 <= k < i ensures Found(m, wakes, k).submitters > 0 {
        if k > 0 { var before := Found(woken, wakes[1..], k - 1); }
      }
    }
  }

  /** And the same for the wait for the workers. */
  lemma {:induction false} AwaitWorkersCallIsDecided(m: Memory, t: Tid, wakes: seq<Memory>) returns (i: nat)
    ensures i <= |wakes| && forall k | 0 <= k < i :: Found(m, wakes, k).activeWorkers > 0
    ensures var l, (m', over) := Found(m, wakes, i), AwaitWorkersCall(m, t, wakes);
            && (over <==> l.activeWorkers == 0)
            && (!over ==> i == |wakes| && t in m'.workersUntilZero.asleep)
            && m'.submitters == l.submitters && m'.activeWorkers == l.activeWorkers
            && m'.shutdownRequested == l.shutdownRequested && m'.jobQ == l.jobQ
    decreases |wakes|
  {
    i := 0;
    if m.activeWorkers > 0 && wakes != [] {
      var woken := WakeForWorkers(wakes[0], t);
      var j := AwaitWorkersCallIsDecided(woken, t, wakes[1..]);
      i := j + 1;
      forall k | 0 <= k < i ensures Found(m, wakes, k).activeWorkers > 0 {
        if k > 0 { var before := Found(woken, wakes[1..], k - 1); }
      }
    }
  }

  // ---- what becomes of the queued jobs ----

  predicate AllCreated(queue: seq<JobId>, jobs: seq<Job.Job>) {
    forall a | 0 <= a < |queue| :: queue[a] < |jobs|
  }

  /** One job after the other, in the order of the queue. */
  function Process(jobs: seq<Job.Job>, queue: seq<JobId>, f: (JobId, Job.Job) -> Job.Job): (r: seq<Job.Job>)
    requires AllCreated(queue, jobs)
    ensures |r| == |jobs|
    decreases |queue|
  {
    if queue == [] then jobs else Process(jobs[queue[0] := f(queue[0], jobs[queue[0]])], queue[1..], f)
  }

  predicate Distinct(queue: seq<JobId>) {
    forall a, b | 0 <= a < b < |queue| :: queue[a] != queue[b]
  }

  /** Each queued job is dealt with once; no other job is touched. */
  lemma {:induction false} ProcessDealsWithEachOnce(jobs: seq<Job.Job>, queue: seq<JobId>,
                                                    f: (JobId, Job.Job) -> Job.Job, j: JobId)
    requires AllCreated(queue, jobs) && Distinct(queue) && j < |jobs|
    ensures Process(jobs, queue, f)[j] == if j in queue then f(j, jobs[j]) else jobs[j]
    decreases |queue|
  {
    if queue != [] {
      var i := queue[0];
      assert i !in queue[1..];
      ProcessDealsWithEachOnce(jobs[i := f(i, jobs[i])], queue[1..], f, j);
    }
  }

  function Cancelled(): (JobId, Job.Job) -> Job.Job {
    (_: JobId, job: Job.Job) => Job.Cancel(job)
  }

  function Executed(outputs: JobId -> Ptr): (JobId, Job.Job) -> Job.Job {
    (j: JobId, job: Job.Job) =>
      if job.state == Job.CREATED then Job.EndExecution(Job.BeginExecution(job), outputs(j)) else job
  }

  /**
   A discard settles each of the queued jobs by cancelling it, a worker that is alone by
   executing it, and both leave all other jobs alone.
   */
  lemma QueuedJobsAreSettled(jobs: seq<Job.Job>, queue: seq<JobId>, outputs: JobId -> Ptr, j: JobId)
    requires AllCreated(queue, jobs) && Distinct(queue) && j < |jobs|
    requires j in queue ==> Job.Untouched(jobs[j])
    ensures var discarded := Process(jobs, queue, Cancelled())[j];
            var done := Process(jobs, queue, Executed(outputs))[j];
            && (j in queue ==> Job.CancelledOnce(discarded) && Job.ExecutedOnce(done) && done.output == outputs(j))
            && (j !in queue ==> discarded == done == jobs[j])
  {
    ProcessDealsWithEachOnce(jobs, queue, Cancelled(), j);
    ProcessDealsWithEachOnce(jobs, queue, Executed(outputs), j);
    if j in queue { Job.LifeOfAJob(jobs[j], outputs(j)); }
  }

  /** How many of the attempts to start a worker worked. */
  function Successes(starts: seq<bool>): nat {
    if starts == [] then 0 else Successes(starts[..|starts| - 1]) + if starts[|starts| - 1] then 1 else 0
  }

  /** n times what others do. */
  function Repeated(q: JobQueue<JobId>, others: JobQueue<JobId> -> JobQueue<JobId>, n: nat): JobQueue<JobId> {
    if n == 0 then q else others(Repeated(q, others, n - 1))
  }

  /** The executor after n attempts to start a worker: as many workers as attempts that worked. */
  function ConstructedSoFar(cfg: Config, starts: seq<bool>, others: JobQueue<JobId> -> JobQueue<JobId>, n: nat): Memory
    requires n <= |starts|
  {
    var m := Init(cfg).w.m;
    m.(activeWorkers := Successes(starts[..n]), jobQ := Repeated(m.jobQ, others, n))
  }

  function Constructed(cfg: Config, starts: seq<bool>, others: JobQueue<JobId> -> JobQueue<JobId>): Memory
    requires |starts| >= cfg.workerLimit
  {
    if cfg.kind == FixedThreadCount then ConstructedSoFar(cfg, starts, others, cfg.workerLimit) else Init(cfg).w.m
  }

  lemma {:induction false} SuccessesAreCounted(starts: seq<bool>)
    ensures Successes(starts) == |set k | 0 <= k < |starts| && starts[k]|
    decreases |starts|
  {
    if starts != [] {
      var n := |starts| - 1;
      SuccessesAreCounted(starts[..n]);
      var before := set k | 0 <= k < n && starts[..n][k];
      var all := set k | 0 <= k < |starts| && starts[k];
      assert all == if starts[n] then before + {n} else before;
    }
  }

  /** What others do to the queue, attempt by attempt. */
  lemma {:induction false} RepeatedStepByStep(q: JobQueue<JobId>, others: JobQueue<JobId> -> JobQueue<JobId>, n: nat)
    returns (queues: seq<JobQueue<JobId>>)
    ensures |queues| == n + 1 && queues[0] == q && queues[n] == Repeated(q, others, n)
    ensures forall k | 0 <= k < n :: queues[k + 1] == others(queues[k])
  {
    queues := [q];
    if n > 0 {
      var before := RepeatedStepByStep(q, others, n - 1);
      queues := before + [others(before[n - 1])];
    }
  }

  /**
   A new executor has as many workers as there were attempts that worked, out of exactly as many
   as it may have if it is fixed and out of none if it is cached; nobody waits and nothing is
   requested, and its queue is what the workers have made of a new one meanwhile.
   */
  lemma NewExecutorsAreStaffed(cfg: Config, starts: seq<bool>, others: JobQueue<JobId> -> JobQueue<JobId>)
    returns (queues: seq<JobQueue<JobId>>)
    requires |starts| >= cfg.workerLimit
    ensures var attempts := if cfg.kind == FixedThreadCount then cfg.workerLimit else 0;
            var m := Constructed(cfg, starts, others);
            && m.activeWorkers == |set k | 0 <= k < attempts && starts[k]|
            && m.submitters == 0 && !m.shutdownRequested && m.workersUntilZero == m.submittersUntilZero == NOBODY
            && |queues| == attempts + 1 && queues[0] == Initialize(cfg.maxQueueCapacity) && queues[attempts] == m.jobQ
            && forall k | 0 <= k < attempts :: queues[k + 1] == others(queues[k])
  {
    var attempts := if cfg.kind == FixedThreadCount then cfg.workerLimit else 0;
    SuccessesAreCounted(starts[..attempts]);
    assert (set k | 0 <= k < attempts && starts[..attempts][k]) == set k | 0 <= k < attempts && starts[k];
    queues := RepeatedStepByStep(Initialize(cfg.maxQueueCapacity), others, attempts);
  }

  // ---- what the loops of a discarder and of a worker see ----

  /** The part of the executor that a discarder or a worker touches. */
  datatype Bench = Bench(q: JobQueue<JobId>, jobs: seq<Job.Job>) {
    function Done(j: JobId, f: (JobId, Job.Job) -> Job.Job): Bench {
      if j < |jobs| then this.(jobs := jobs[j := f(j, jobs[j])]) else this
    }

    /** The queue is closed, and holds jobs that were created, each once. */
    ghost predicate Leftovers() {
      q.Sound() && q.Closed() && Distinct(q.Items()) && AllCreated(q.Items(), jobs)
    }
  }

  /**
   What a thread finds when it has the queue's lock: what the other threads have made of queue
   and jobs, if they have done anything; whether its wait has timed out; whom its signal wakes;
   and how far the array list shrinks.
   */
  datatype Find = Find(bench: Option<Bench>, timedOut: bool, signalled: set<Tid>, slack: nat) {
    function Seen(b: Bench): Bench {
      if bench.Some? then bench.value else b
    }

    function Chosen(q: JobQueue<JobId>): Choice {
      ShrinkingChoice(q, signalled, slack)
    }
  }

  /** A pop that does not wait, and what becomes of the job it takes. */
  function DiscardOne(b: Bench, t: Tid, find: Find): Bench {
    var (q, outcome) := Pop(b.q, t, true, find.Chosen(b.q));
    match outcome
    case PopReturns(Some(j)) => Bench(q, b.jobs).Done(j, Cancelled())
    case _ => Bench(q, b.jobs)
  }

  /** discard_leftover_jobs, which takes the lock twice for each job; false when the finds end first. */
  function DiscardCall(b: Bench, t: Tid, finds: seq<Find>): (Bench, bool)
    decreases |finds|
  {
    if finds == [] then (b, false)
    else if finds[0].Seen(b).q.Items() == [] then (finds[0].Seen(b), true)
    else if |finds| == 1 then (finds[0].Seen(b), false)
    else DiscardCall(DiscardOne(finds[1].Seen(finds[0].Seen(b)), t, finds[1]), t, finds[2..])
  }

  /** Where the finds leave a worker: between two jobs, in its wait, or out of its loop. */
  datatype WorkerEnd = IsBetweenJobs | IsWaiting | HasQuit

  /** worker_function's loop; a wait is resumed with the next find. */
  function WorkerCall(b: Bench, t: Tid, waiting: bool, outputs: JobId -> Ptr, finds: seq<Find>): (Bench, WorkerEnd)
    decreases |finds|
  {
    if finds == [] then (b, if waiting then IsWaiting else IsBetweenJobs) else
    var seen := finds[0].Seen(b);
    var choice := finds[0].Chosen(seen.q);
    var (q, outcome) :=
      if waiting then PopWake(seen.q, t, finds[0].timedOut, choice) else Pop(seen.q, t, false, choice);
    match outcome
    case PopSleeps => WorkerCall(Bench(q, seen.jobs), t, true, outputs, finds[1..])
    case PopReturns(None) => (Bench(q, seen.jobs), HasQuit)
    case PopReturns(Some(j)) =>
      WorkerCall(Bench(q, seen.jobs).Done(j, Executed(outputs)), t, false, outputs, finds[1..])
  }

  /** What the thread may find, as far as the libraries and the other threads go. */
  ghost predicate MayFind(b: Bench, t: Tid, waiting: bool, find: Find) {
    && b.q.Sound() && PopChoiceOk(b.q, find.Chosen(b.q)) && AllCreated(b.q.Items(), b.jobs)
    && (t in b.q.Empty().waiting ==> waiting)
  }

  /** The job in front of the queue is gone from it and dealt with, and nothing else has changed. */
  ghost predicate FrontDone(b: Bench, b': Bench, done: Job.Job) {
    && b.q.Items() != [] && b.q.Items()[0] < |b.jobs|
    && b'.q.Items() == b.q.Items()[1..]
    && b'.jobs == b.jobs[b.q.Items()[0] := done]
  }

  /**
   One round of discard_leftover_jobs under interference. It is over exactly when its look finds
   the queue empty; else it cancels the job that is in front when it pops, if there still is one.
   It never sleeps, and it is not over when the finds end in between.
   */
  lemma DiscardRound(b: Bench, t: Tid, finds: seq<Find>) returns (b': Bench)
    requires |finds| >= 2 ==> MayFind(finds[1].Seen(finds[0].Seen(b)), t, false, finds[1])
    ensures finds == [] ==> DiscardCall(b, t, finds) == (b, false)
    ensures |finds| == 1 ==> DiscardCall(b, t, finds) == (finds[0].Seen(b), finds[0].Seen(b).q.Items() == [])
    ensures |finds| >= 2 && finds[0].Seen(b).q.Items() == [] ==> DiscardCall(b, t, finds) == (finds[0].Seen(b), true)
    ensures |finds| >= 2 && finds[0].Seen(b).q.Items() != [] ==>
              var popped := finds[1].Seen(finds[0].Seen(b));
              && DiscardCall(b, t, finds) == DiscardCall(b', t, finds[2..])
              && b'.q.Empty() == popped.q.Empty()
              && (popped.q.Items() == [] ==> b'.q.Items() == [] && b'.jobs == popped.jobs)
              && (popped.q.Items() != [] ==> FrontDone(popped, b', Job.Cancel(popped.jobs[popped.q.Items()[0]])))
  {
    b' := b;
    if |finds| >= 2 {
      var popped := finds[1].Seen(finds[0].Seen(b));
      b' := DiscardOne(popped, t, finds[1]);
      PopHasEffect(popped.q, t, true, finds[1].Chosen(popped.q));
    }
  }

  /**
   One round of a worker under interference. It executes the job in front exactly when there is
   one; else it quits exactly when the queue is closed or its wait has timed out, and waits.
   */
  lemma WorkerRound(b: Bench, t: Tid, waiting: bool, outputs: JobId -> Ptr, finds: seq<Find>)
    returns (b': Bench)
    requires finds != [] && MayFind(finds[0].Seen(b), t, waiting, finds[0])
    ensures var seen := finds[0].Seen(b);
            if seen.q.Items() != [] then
              var j := seen.q.Items()[0];
              var job := seen.jobs[j];
              && FrontDone(seen, b', if job.state != Job.CREATED then job
                                     else Job.EndExecution(Job.BeginExecution(job), outputs(j)))
              && WorkerCall(b, t, waiting, outputs, finds) == WorkerCall(b', t, false, outputs, finds[1..])
            else
              && b'.q.Items() == [] && b'.jobs == seen.jobs
              && if seen.q.Closed() || (waiting && finds[0].timedOut) then
                   WorkerCall(b, t, waiting, outputs, finds) == (b', HasQuit)
                 else
                   && t in b'.q.Empty().asleep
                   && WorkerCall(b, t, waiting, outputs, finds) == WorkerCall(b', t, true, outputs, finds[1..])
    ensures WorkerCall(b, t, true, outputs, []) == (b, IsWaiting)
    ensures WorkerCall(b, t, false, outputs, []) == (b, IsBetweenJobs)
  {
    var seen := finds[0].Seen(b);
    var choice := finds[0].Chosen(seen.q);
    if waiting {
      PopWakeHasEffect(seen.q, t, finds[0].timedOut, choice);
    } else {
      PopHasEffect(seen.q, t, false, choice);
    }
    var q := (if waiting then PopWake(seen.q, t, finds[0].timedOut, choice) else Pop(seen.q, t, false, choice)).0;
    b' := Bench(q, seen.jobs);
    if seen.q.Items() != [] { b' := b'.Done(seen.q.Items()[0], Executed(outputs)); }
  }

  /** Nobody else touches queue or jobs, and nobody is asleep to be woken. */
  predicate Alone(finds: seq<Find>) {
    forall k | 0 <= k < |finds| :: finds[k].bench == None && finds[k].signalled == {}
  }

  lemma PopLeavesLeftovers(b: Bench, t: Tid, waitError: bool, find: Find)
    requires b.Leftovers() && find.signalled == {} && t !in b.q.Empty().waiting
    ensures var (q, outcome) := Pop(b.q, t, waitError, find.Chosen(b.q));
            && (b.q.Items() == [] ==> outcome == PopReturns(None) && Bench(q, b.jobs).Leftovers() && q.Items() == [])
            && (b.q.Items() != [] ==> outcome == PopReturns(Some(b.q.Items()[0])) && q.Items() == b.q.Items()[1..])
            && q.Sound() && q.Closed() && q.Empty() == b.q.Empty()
  {
    ClosedQueueMayBeQuiet(b.q, find.slack);
    PopHasEffect(b.q, t, waitError, find.Chosen(b.q));
  }

  /** discard_leftover_jobs alone on the queue empties it, and cancels its jobs in order. */
  lemma {:induction false} DiscardAloneCancelsAll(b: Bench, t: Tid, finds: seq<Find>)
    requires b.Leftovers() && t !in b.q.Empty().waiting && Alone(finds) && |finds| > 2 * |b.q.Items()|
    ensures var (b', over) := DiscardCall(b, t, finds);
            && over && b'.q.Items() == []
            && b'.jobs == Process(b.jobs, b.q.Items(), Cancelled())
    decreases |finds|
  {
    if b.q.Items() != [] {
      PopLeavesLeftovers(b, t, true, finds[1]);
      DiscardAloneCancelsAll(DiscardOne(b, t, finds[1]), t, finds[2..]);
    }
  }

  /** A worker alone on a closed queue executes its jobs in order, and quits. */
  lemma {:induction false} WorkerAloneExecutesAll(b: Bench, t: Tid, outputs: JobId -> Ptr, finds: seq<Find>)
    requires b.Leftovers() && t !in b.q.Empty().waiting && Alone(finds) && |finds| > |b.q.Items()|
    ensures var (b', end) := WorkerCall(b, t, false, outputs, finds);
            && end == HasQuit && b'.q.Items() == []
            && b'.jobs == Process(b.jobs, b.q.Items(), Executed(outputs))
    decreases |finds|
  {
    PopLeavesLeftovers(b, t, false, finds[0]);
    if b.q.Items() != [] {
      var q := Pop(b.q, t, false, finds[0].Chosen(b.q)).0;
      WorkerAloneExecutesAll(Bench(q, b.jobs).Done(b.q.Items()[0], Executed(outputs)), t, outputs, finds[1..]);
    }
  }

  class Monitor {
    const cfg: Config
    var activeWorkerCount: nat
    var submittersCount: nat
    var shutdownRequested: bool
    var workersUntilZeroWait: CondVar
    var submittersUntilZeroWait: CondVar
    var jobQ: JobQueue<JobId>
    var jobs: seq<Job.Job>

    ghost function View(): Memory
      reads this
    {
      Memory(activeWorkerCount, submittersCount, shutdownRequested, workersUntilZeroWait, submittersUntilZeroWait, jobQ)
    }

    /**
     new_executor once it has its memory: starts tells which attempts to start a worker work,
     and others is what the workers started so far do to the queue while one is being started.
     */
    constructor (kind: Kind, workerLimit: nat, maxQueueCapacity: nat, emptyTimeout: nat, starts: seq<bool>,
                 others: JobQueue<JobId> -> JobQueue<JobId>)
      requires workerLimit > 0 && |starts| >= workerLimit
      ensures cfg == NewConfig(kind, workerLimit, maxQueueCapacity, emptyTimeout) && jobs == []
      ensures View() == Constructed(cfg, starts, others)
    {
      cfg := Config(kind, workerLimit, if kind == FixedThreadCount then BLOCKING else emptyTimeout, maxQueueCapacity);
      jobQ := Initialize(maxQueueCapacity);
      activeWorkerCount, workersUntilZeroWait := 0, NOBODY;
      submittersCount, submittersUntilZeroWait := 0, NOBODY;
      shutdownRequested, jobs := false, [];
      new;
      if kind == FixedThreadCount {
        var i := 0;
        while i < workerLimit
          invariant i <= workerLimit && Successes(starts[..i]) <= i
          invariant View() == ConstructedSoFar(cfg, starts, others, i) && jobs == []
        {
          assert starts[..i + 1][..i] == starts[..i];
          var added := CreateWorker(starts[i], (m: Memory) => m.(jobQ := others(m.jobQ)));
          i := i + 1;
        }
      }
    }

    method SetMemory(m: Memory)
      modifies this
      ensures View() == m && jobs == old(jobs)
    {
      activeWorkerCount, submittersCount, shutdownRequested := m.activeWorkers, m.submitters, m.shutdownRequested;
      workersUntilZeroWait, submittersUntilZeroWait, jobQ := m.workersUntilZero, m.submittersUntilZero, m.jobQ;
    }

    /**
     create_worker: `others` is what the other threads do to the executor while the worker is
     being started without the lock.
     */
    method CreateWorker(starts: bool, others: Memory -> Memory) returns (isThreadAdded: bool)
      modifies this
      ensures jobs == old(jobs)
      ensures isThreadAdded <==>
              old(activeWorkerCount) < cfg.workerLimit && starts && cfg.emptyTimeout != NON_BLOCKING
      ensures var m := others(ReserveSection(old(View()), cfg.workerLimit));
              View() == if old(activeWorkerCount) >= cfg.workerLimit then old(View())
                        else if isThreadAdded then m else RetireSection(m)
    {
      isThreadAdded := false;
      if activeWorkerCount < cfg.workerLimit {
        activeWorkerCount := activeWorkerCount + 1;
        SetMemory(others(Memory(activeWorkerCount, submittersCount, shutdownRequested,
                                workersUntilZeroWait, submittersUntilZeroWait, jobQ)));
        var error := cfg.emptyTimeout == NON_BLOCKING || !starts;
        if error { CleanUp(); } else { isThreadAdded := true; }
      }
    }

    /** A worker retires: clean_up, and the failure branch of create_worker. */
    method CleanUp()
      modifies this
      ensures View() == RetireSection(old(View())) && jobs == old(jobs)
    {
      activeWorkerCount := if activeWorkerCount == 0 then MAX_U64 else activeWorkerCount - 1;
      if activeWorkerCount == 0 { workersUntilZeroWait := workersUntilZeroWait.Broadcast(); }
    }

    /** submit_job_executor up to its first unlock. */
    method SubmitEnter() returns (mayPush: bool)
      modifies this
      ensures mayPush == !old(shutdownRequested)
      ensures View() == SubmitEnterSection(old(View())) && jobs == old(jobs)
    {
      if shutdownRequested { return false; }
      submittersCount := submittersCount + 1;
      return true;
    }

    /** submit_job_executor from its second lock. */
    method SubmitExit()
      modifies this
      ensures View() == SubmitExitSection(old(View())) && jobs == old(jobs)
    {
      submittersCount := if submittersCount == 0 then MAX_U64 else submittersCount - 1;
      if submittersCount == 0 && shutdownRequested {
        submittersUntilZeroWait := submittersUntilZeroWait.Broadcast();
      }
    }

    /** shutdown_executor as far as it holds the lock. */
    method Shutdown(t: Tid, wakes: seq<Memory>) returns (over: bool)
      modifies this
      ensures jobs == old(jobs)
      ensures (View(), over) == if old(shutdownRequested) then (old(View()), true)
                                else AwaitSubmittersCall(RequestShutdownSection(old(View())), t, wakes)
    {
      if shutdownRequested { return true; }
      shutdownRequested := true;
      jobQ := CloseSection(jobQ);
      var k := 0;
      while submittersCount > 0
        invariant k <= |wakes| && jobs == old(jobs)
        invariant AwaitSubmittersCall(View(), t, wakes[k..]) ==
                  AwaitSubmittersCall(RequestShutdownSection(old(View())), t, wakes)
        decreases |wakes| - k
      {
        submittersUntilZeroWait := submittersUntilZeroWait.Sleep(t);
        if k == |wakes| { return false; }
        SetMemory(wakes[k]);
        submittersUntilZeroWait := submittersUntilZeroWait.Leave(t);
        k := k + 1;
      }
      return true;
    }

    /**
     wait_for_all_executor_workers_to_complete: `others` is what the other threads do between
     its two locks; `sleeps` when it still waits after the last wake-up.
     */
    method WaitForAllWorkersToComplete(t: Tid, others: Memory -> Memory, wakes: seq<Memory>)
      returns (res: bool, sleeps: bool)
      modifies this
      ensures jobs == old(jobs)
      ensures !old(shutdownRequested) ==> View() == old(View()) && !res && !sleeps
      ensures old(shutdownRequested) ==>
                res != sleeps && (View(), res) == AwaitWorkersCall(others(old(View())), t, wakes)
    {
      if !shutdownRequested { return false, false; }
      SetMemory(others(Memory(activeWorkerCount, submittersCount, shutdownRequested,
                              workersUntilZeroWait, submittersUntilZeroWait, jobQ)));
      var k := 0;
      while activeWorkerCount > 0
        invariant k <= |wakes| && jobs == old(jobs)
        invariant AwaitWorkersCall(View(), t, wakes[k..]) == AwaitWorkersCall(others(old(View())), t, wakes)
        decreases |wakes| - k
      {
        workersUntilZeroWait := workersUntilZeroWait.Sleep(t);
        if k == |wakes| { return false, true; }
        SetMemory(wakes[k]);
        workersUntilZeroWait := workersUntilZeroWait.Leave(t);
        k := k + 1;
      }
      return true, false;
    }

    ghost function BenchView(): Bench
      reads this
    {
      Bench(jobQ, jobs)
    }

    /** The queue's lock is taken: queue and jobs are what the other threads have left. */
    method TakeLock(find: Find)
      modifies this`jobQ, this`jobs
      ensures BenchView() == find.Seen(old(BenchView()))
    {
      if find.bench.Some? { jobQ, jobs := find.bench.value.q, find.bench.value.jobs; }
    }

    method SettleJob(j: JobId, f: (JobId, Job.Job) -> Job.Job)
      modifies this`jobs
      ensures BenchView() == old(BenchView()).Done(j, f)
    {
      if j < |jobs| { jobs := jobs[j := f(j, jobs[j])]; }
    }

    /** discard_leftover_jobs, whatever the other threads do; false when the finds end first. */
    method DiscardLeftoverJobs(t: Tid, finds: seq<Find>) returns (over: bool)
      modifies this`jobQ, this`jobs
      ensures (BenchView(), over) == DiscardCall(old(BenchView()), t, finds)
    {
      var k := 0;
      while k < |finds|
        invariant k <= |finds|
        invariant DiscardCall(BenchView(), t, finds[k..]) == DiscardCall(old(BenchView()), t, finds)
      {
        TakeLock(finds[k]);
        if |jobQ.Items()| == 0 { return true; }
        if k + 1 == |finds| { return false; }
        TakeLock(finds[k + 1]);
        var (q, outcome) := Pop(jobQ, t, true, finds[k + 1].Chosen(jobQ));
        jobQ := q;
        if outcome.PopReturns? && outcome.item.Some? { SettleJob(outcome.item.value, Cancelled()); }
        assert finds[k..][2..] == finds[k + 2..];
        k := k + 2;
      }
      return false;
    }

    /**
     worker_function, whatever the other threads do to queue and jobs; once it has quit its
     loop it cleans up, after what the others have done to the executor in between.
     */
    method WorkerFunction(t: Tid, outputs: JobId -> Ptr, finds: seq<Find>, others: Memory -> Memory)
      returns (end: WorkerEnd)
      modifies this
      ensures var (b, e) := WorkerCall(old(BenchView()), t, false, outputs, finds);
              var left := old(View()).(jobQ := b.q);
              end == e && jobs == b.jobs && View() == if e == HasQuit then RetireSection(others(left)) else left
    {
      var k, waiting := 0, false;
      while k < |finds|
        invariant k <= |finds| && View() == old(View()).(jobQ := jobQ)
        invariant WorkerCall(BenchView(), t, waiting, outputs, finds[k..]) ==
                  WorkerCall(old(BenchView()), t, false, outputs, finds)
      {
        TakeLock(finds[k]);
        var choice := finds[k].Chosen(jobQ);
        var (q, outcome) :=
          if waiting then PopWake(jobQ, t, finds[k].timedOut, choice) else Pop(jobQ, t, false, choice);
        jobQ := q;
        waiting := outcome.PopSleeps?;
        if outcome.PopReturns? {
          if outcome.item.None? {
            SetMemory(others(Memory(activeWorkerCount, submittersCount, shutdownRequested,
                                    workersUntilZeroWait, submittersUntilZeroWait, jobQ)));
            CleanUp();
            return HasQuit;
          }
          SettleJob(outcome.item.value, Executed(outputs));
        }
        assert finds[k..][1..] == finds[k + 1..];
        k := k + 1;
      }
      end := if waiting then IsWaiting else IsBetweenJobs;
    }
  }

  /** new_executor, which refuses to make an executor without workers. */
  method NewExecutor(kind: Kind, workerLimit: nat, maxQueueCapacity: nat, emptyTimeout: nat, starts: seq<bool>,
                     others: JobQueue<JobId> -> JobQueue<JobId>) returns (m: Monitor?)
    requires |starts| >= workerLimit && maxQueueCapacity <= MAX_U64
    ensures m == null <==> workerLimit == 0
    ensures m != null ==>
              && fresh(m) && ConfigOk(m.cfg) && m.jobs == []
              && m.cfg.kind == kind && m.cfg.workerLimit == workerLimit && m.cfg.maxQueueCapacity == maxQueueCapacity
              && m.cfg.emptyTimeout == (if kind == FixedThreadCount then BLOCKING else emptyTimeout)
              && m.View() == Constructed(m.cfg, starts, others)
  {
    if workerLimit == 0 { return null; }
    m := new Monitor(kind, workerLimit, maxQueueCapacity, emptyTimeout, starts, others);
  }
}
