/**
 What the executor's promises depend on, exactly: the drain on the timeout of the workers,
 and the order of shutdown and delete on the kind of executor and of shutdown. Each condition
 is shown necessary by a run of every executor that does not meet it.
 */
module ExecutorLimits {
  import opened Base
  import opened CondVars
  import opened QueueTypes
  import opened JobQueue
  import opened Executor
  import opened ExecutorTheorems
  import ExecutorCounts
  import ExecutorPhases
  import Job
  import Runs
  import SyncQueue
  import SyncLLQueue

  // ---- the job queue of any executor, with at most one element ----

  /** Room for one element; nobody is asleep to be woken. */
  const ROOM := Choice({}, 1, true)

  const SLEEPER := CondVar({4}, {4})

  function Queue(cfg: Config, items: seq<JobId>, closed: bool, empty: CondVar): JobQueue<JobId> {
    if cfg.maxQueueCapacity == JOB_QUEUE_AS_LINKEDLIST then LinkedList(SyncLLQueue.Queue(items, closed, empty))
    else ArrayList(SyncQueue.Queue(items, 1, cfg.maxQueueCapacity, closed, empty, NOBODY))
  }

  lemma FirstPush(cfg: Config, t: Tid)
    ensures PushChoiceOk(Initialize<JobId>(cfg.maxQueueCapacity), ROOM)
    ensures Push(Initialize(cfg.maxQueueCapacity), t, 0, false, ROOM) ==
            (Queue(cfg, [0], false, NOBODY), PushReturns(true))
  {
    assert NOBODY.Signal({}) == NOBODY && [] + [0] == [0];
  }

  lemma SecondPush(cfg: Config, t: Tid)
    ensures PushChoiceOk(Queue(cfg, [], false, NOBODY), ROOM)
    ensures Push(Queue(cfg, [], false, NOBODY), t, 1, false, ROOM) ==
            (Queue(cfg, [1], false, NOBODY), PushReturns(true))
  {
    assert NOBODY.Signal({}) == NOBODY && [] + [1] == [1];
  }

  lemma PopTakes(cfg: Config, t: Tid, closed: bool, waitError: bool)
    ensures PopChoiceOk(Queue(cfg, [0], closed, NOBODY), ROOM)
    ensures Pop(Queue(cfg, [0], closed, NOBODY), t, waitError, ROOM) ==
            (Queue(cfg, [], closed, NOBODY), PopReturns(Some(0)))
  {
    assert NOBODY.Signal({}) == NOBODY && [0][1..] == [];
  }

  lemma PopSleeps(cfg: Config)
    ensures PopChoiceOk(Queue(cfg, [], false, NOBODY), ROOM)
    ensures Pop(Queue(cfg, [], false, NOBODY), 4, false, ROOM) == (Queue(cfg, [], false, SLEEPER), PopOutcome.PopSleeps)
  {
    assert NOBODY.Sleep(4) == SLEEPER;
  }

  lemma PopTimesOut(cfg: Config)
    ensures PopChoiceOk(Queue(cfg, [], false, SLEEPER), ROOM)
    ensures PopWake(Queue(cfg, [], false, SLEEPER), 4, true, ROOM) ==
            (Queue(cfg, [], false, NOBODY), PopReturns(None))
  {
    assert SLEEPER.Leave(4) == NOBODY;
  }

  // ---- runs, one step at a time ----

  /** The run so far, and one more step. */
  lemma OneMore(cfg: Config, schedule: seq<Step>, step: Step, s: State, s': State) returns (longer: seq<Step>)
    requires Reach(cfg, schedule) == s && Next(s, step) == s'
    ensures Reach(cfg, longer) == s'
  {
    Runs.AfterAppend(Next, Init(cfg), schedule, step);
    longer := schedule + [step];
  }

  const JOB := Job.New(None, false)

  /** Nobody waits for a counter. */
  function Mem(active: nat, submitters: nat, closed: bool, q: JobQueue<JobId>): Memory {
    Memory(active, submitters, closed, NOBODY, NOBODY, q)
  }

  function Constructing(cfg: Config, i: nat): State {
    State(Init(cfg).w, map[CONSTRUCTOR := ConstructorLoop(i)])
  }

  /** No worker of a fixed executor could be started so far. */
  lemma {:induction false} ReachConstructing(cfg: Config, i: nat) returns (schedule: seq<Step>)
    requires cfg.kind == FixedThreadCount && i <= cfg.workerLimit
    ensures Reach(cfg, schedule) == Constructing(cfg, i)
  {
    if i == 0 {
      schedule := [];
    } else {
      schedule := ReachConstructing(cfg, i - 1);
      schedule := ConstructingGoesOn(cfg, i - 1, schedule);
    }
  }

  lemma ConstructingGoesOn(cfg: Config, i: nat, before: seq<Step>) returns (schedule: seq<Step>)
    requires cfg.kind == FixedThreadCount && i < cfg.workerLimit
    requires Reach(cfg, before) == Constructing(cfg, i)
    ensures Reach(cfg, schedule) == Constructing(cfg, i + 1)
  {
    var w := Init(cfg).w;
    var owner := ByConstructor(i);
    var s1 := State(w, map[CONSTRUCTOR := CreateEnter(owner)]);
    schedule := OneMore(cfg, before, Creates(CONSTRUCTOR, ConstructorLoops), Constructing(cfg, i), s1);
    var reserved := w.(m := w.m.(activeWorkers := 1));
    var s2 := State(reserved, map[CONSTRUCTOR := CreateReserved(owner)]);
    schedule := OneMore(cfg, schedule, Creates(CONSTRUCTOR, CreateBegins), s1, s2);
    var s3 := State(reserved, map[CONSTRUCTOR := CreateFailed(owner)]);
    schedule := OneMore(cfg, schedule, Creates(CONSTRUCTOR, WorkerDoesNotStart), s2, s3);
    schedule := OneMore(cfg, schedule, Creates(CONSTRUCTOR, CreateEnds), s3, Constructing(cfg, i + 1));
  }

  function WithoutWorkers(cfg: Config): State {
    State(Init(cfg).w.(h := {Published}), map[])
  }

  /** Every executor can be constructed without a worker. */
  lemma ReachWithoutWorkers(cfg: Config) returns (schedule: seq<Step>)
    ensures Reach(cfg, schedule) == WithoutWorkers(cfg)
  {
    var i := 0;
    schedule := [];
    if cfg.kind == FixedThreadCount {
      i := cfg.workerLimit;
      schedule := ReachConstructing(cfg, i);
    }
    var step := Creates(CONSTRUCTOR, ConstructorLoops);
    schedule := OneMore(cfg, schedule, step, Constructing(cfg, i), WithoutWorkers(cfg));
  }

  /** Job 0 is in the queue, and thread 1 is where it goes after its push. */
  function Pushed(cfg: Config): State {
    State(
      World(cfg, Mem(0, 1, false, Queue(cfg, [0], false, NOBODY)), [JOB], {0}, {Published}),
      map[1 := if cfg.kind == CachedThreadPool then SubmitPushed else SubmitExit])
  }

  lemma ReachPushed(cfg: Config) returns (schedule: seq<Step>)
    ensures Reach(cfg, schedule) == Pushed(cfg)
  {
    schedule := ReachWithoutWorkers(cfg);
    var w := Init(cfg).w.(m := Mem(0, 1, false, Initialize(cfg.maxQueueCapacity)), h := {Published});
    var s1 := State(w, map[1 := SubmitNew]);
    schedule := OneMore(cfg, schedule, Calls(1, Submit), WithoutWorkers(cfg), s1);
    var s2 := State(w.(jobs := [JOB]), map[1 := SubmitPush(0)]);
    schedule := OneMore(cfg, schedule, Submits(1, JobCreated(None, false)), s1, s2);
    FirstPush(cfg, 1);
    schedule := OneMore(cfg, schedule, Submits(1, PushCalled(ROOM)), s2, Pushed(cfg));
  }

  /** In a cached executor thread 1 then is about to create a worker. */
  function Creating(cfg: Config): State {
    State(Pushed(cfg).w, map[1 := CreateEnter(BySubmitter)])
  }

  lemma ReachCreating(cfg: Config) returns (schedule: seq<Step>)
    requires cfg.kind == CachedThreadPool
    ensures Reach(cfg, schedule) == Creating(cfg)
  {
    schedule := ReachPushed(cfg);
    var s := State(Pushed(cfg).w, map[1 := SubmitSawNoWaiters]);
    schedule := OneMore(cfg, schedule, Submits(1, CountsWaiters), Pushed(cfg), s);
    schedule := OneMore(cfg, schedule, Submits(1, LooksAtQueue), s, Creating(cfg));
  }

  // ---- an immediate shutdown that is overtaken by a delete ----

  /** Job 0 is in the queue of an executor without workers, and nobody is inside. */
  function Left(cfg: Config): State {
    State(World(cfg, Mem(0, 0, false, Queue(cfg, [0], false, NOBODY)), [JOB], {0}, {Published}), map[])
  }

  lemma ReachLeft(cfg: Config) returns (schedule: seq<Step>)
    requires ConfigOk(cfg)
    ensures Reach(cfg, schedule) == Left(cfg)
  {
    var exit := State(Pushed(cfg).w, map[1 := SubmitExit]);
    if cfg.kind == CachedThreadPool {
      schedule := ReachCreating(cfg);
      schedule := CreationFails(cfg, schedule);
    } else {
      schedule := ReachPushed(cfg);
    }
    schedule := OneMore(cfg, schedule, Submits(1, SubmitEnds), exit, Left(cfg));
  }

  lemma CreationFails(cfg: Config, before: seq<Step>) returns (schedule: seq<Step>)
    requires cfg.workerLimit > 0 && Reach(cfg, before) == Creating(cfg)
    ensures Reach(cfg, schedule) == State(Pushed(cfg).w, map[1 := SubmitExit])
  {
    var w := Pushed(cfg).w;
    var reserved := w.(m := w.m.(activeWorkers := 1));
    var s1 := State(reserved, map[1 := CreateReserved(BySubmitter)]);
    schedule := OneMore(cfg, before, Creates(1, CreateBegins), Creating(cfg), s1);
    var s2 := State(reserved, map[1 := CreateFailed(BySubmitter)]);
    schedule := OneMore(cfg, schedule, Creates(1, WorkerDoesNotStart), s1, s2);
    schedule := OneMore(cfg, schedule, Creates(1, CreateEnds), s2, State(w, map[1 := SubmitExit]));
  }

  /** Thread 2 shuts down immediately and holds job 0. */
  function Discarding(cfg: Config): State {
    State(
      World(cfg, Mem(0, 0, true, Queue(cfg, [], true, NOBODY)), [JOB], {0}, {Published, Immediate}),
      map[2 := DiscardTook(ByShutdown, 0)])
  }

  lemma ReachDiscarding(cfg: Config) returns (schedule: seq<Step>)
    requires ConfigOk(cfg)
    ensures Reach(cfg, schedule) == Discarding(cfg)
  {
    schedule := ReachLeft(cfg);
    var w := Discarding(cfg).w.(m := Mem(0, 0, true, Queue(cfg, [0], true, NOBODY)));
    var s1 := State(w, map[2 := DiscardLook(ByShutdown)]);
    schedule := OneMore(cfg, schedule, Calls(2, Shutdown(true)), Left(cfg), s1);
    var s2 := State(w, map[2 := DiscardPop(ByShutdown)]);
    schedule := OneMore(cfg, schedule, Closes(2, DiscardLooks), s1, s2);
    PopTakes(cfg, 2, true, true);
    schedule := OneMore(cfg, schedule, Closes(2, DiscardPops(ROOM)), s2, Discarding(cfg));
  }

  /**
   In every executor, delete_executor can overtake an immediate shutdown: it returns 1 while
   the shutdown holds an accepted job that is neither executed nor cancelled.
   */
  lemma DeleteCanOvertakeAnImmediateShutdown(cfg: Config) returns (schedule: seq<Step>)
    requires ConfigOk(cfg)
    ensures var s := Reach(cfg, schedule);
            && DeleteReturned in s.w.h && DeleteOrdered !in s.w.h && Immediate in s.w.h
            && 2 in s.pcs && s.pcs[2] == DiscardTook(ByShutdown, 0) && !AllSettled(s.w)
  {
    schedule := ReachDiscarding(cfg);
    var w, here := Discarding(cfg).w, DiscardTook(ByShutdown, 0);
    var s1 := State(w.(h := {Published, Immediate, DeleteCalled}), map[2 := here, 3 := WaitLook(true)]);
    schedule := OneMore(cfg, schedule, Calls(3, Wait(true)), Discarding(cfg), s1);
    var s2 := State(w.(h := {Published, Immediate, DeleteCalled, SawNoWorkers}),
                    map[2 := here, 3 := DiscardLook(ByDelete)]);
    schedule := OneMore(cfg, schedule, Closes(3, WaitLooks), s1, s2);
    var s3 := State(w.(h := {Published, Immediate, DeleteCalled, SawNoWorkers, DeleteReturned}), map[2 := here]);
    schedule := OneMore(cfg, schedule, Closes(3, DiscardLooks), s2, s3);
    assert 0 in s3.w.accepted && s3.w.jobs[0] == JOB;
  }

  // ---- a delete that overtakes a submitter in a cached executor ----

  predicate MayHaveWorkers(cfg: Config) {
    cfg.kind == CachedThreadPool && cfg.emptyTimeout != NON_BLOCKING && cfg.workerLimit > 0
  }

  /** Thread 2 shuts down and waits for thread 1; thread 3 deletes and has seen no worker. */
  function Looked(cfg: Config): State {
    var m := Memory(0, 1, true, NOBODY, CondVar({2}, {2}), Queue(cfg, [0], true, NOBODY));
    State(World(cfg, m, [JOB], {0}, {Published, DeleteCalled, SawNoWorkers}),
          map[1 := CreateEnter(BySubmitter), 2 := ShutdownBlocked, 3 := DiscardLook(ByDelete)])
  }

  lemma ReachLooked(cfg: Config) returns (schedule: seq<Step>)
    requires cfg.kind == CachedThreadPool
    ensures Reach(cfg, schedule) == Looked(cfg)
  {
    schedule := ReachCreating(cfg);
    assert NOBODY.Sleep(2) == CondVar({2}, {2});
    var w := Looked(cfg).w.(h := {Published});
    var s1 := State(w, map[1 := CreateEnter(BySubmitter), 2 := ShutdownBlocked]);
    schedule := OneMore(cfg, schedule, Calls(2, Shutdown(false)), Creating(cfg), s1);
    var s2 := State(w.(h := {Published, DeleteCalled}), s1.pcs[3 := WaitLook(true)]);
    schedule := OneMore(cfg, schedule, Calls(3, Wait(true)), s1, s2);
    schedule := OneMore(cfg, schedule, Closes(3, WaitLooks), s2, Looked(cfg));
  }

  /** Thread 1 has started worker 4. */
  function Started(cfg: Config): State {
    var w := Looked(cfg).w;
    State(w.(m := w.m.(activeWorkers := 1), h := {Published, DeleteCalled, SawNoWorkers, WorkerStarted}),
          map[1 := CreateStarted(BySubmitter), 2 := ShutdownBlocked, 3 := DiscardLook(ByDelete), 4 := WorkerPop])
  }

  lemma ReachStarted(cfg: Config) returns (schedule: seq<Step>)
    requires MayHaveWorkers(cfg)
    ensures Reach(cfg, schedule) == Started(cfg)
  {
    schedule := ReachLooked(cfg);
    var s := State(Looked(cfg).w.(m := Started(cfg).w.m), Looked(cfg).pcs[1 := CreateReserved(BySubmitter)]);
    schedule := OneMore(cfg, schedule, Creates(1, CreateBegins), Looked(cfg), s);
    schedule := OneMore(cfg, schedule, Creates(1, WorkerStarts(4)), s, Started(cfg));
  }

  /**
   In every cached executor that may have workers, delete_executor can overtake a submitter
   behind a shutdown that is not immediate: it returns 1 while a worker holds an accepted job.
   */
  lemma DeleteCanOvertakeASubmitter(cfg: Config) returns (schedule: seq<Step>)
    requires MayHaveWorkers(cfg)
    ensures var s := Reach(cfg, schedule);
            && DeleteReturned in s.w.h && DeleteOrdered !in s.w.h && Immediate !in s.w.h
            && 4 in s.pcs && s.pcs[4] == WorkerTook(0) && !AllSettled(s.w)
  {
    schedule := ReachStarted(cfg);
    PopTakes(cfg, 4, true, false);
    var w := Started(cfg).w;
    var w1 := w.(m := w.m.(jobQ := Queue(cfg, [], true, NOBODY)));
    var s1 := State(w1, Started(cfg).pcs[4 := WorkerTook(0)]);
    schedule := OneMore(cfg, schedule, Works(4, Pops(ROOM)), Started(cfg), s1);
    var s2 := State(w1.(h := w1.h + {DeleteReturned}), s1.pcs - {3});
    schedule := OneMore(cfg, schedule, Closes(3, DiscardLooks), s1, s2);
    assert 0 in s2.w.accepted && s2.w.jobs[0] == JOB;
  }

  // ---- the order of shutdown and delete ----

  /** A delete that was called before the first shutdown had returned has returned 1. */
  predicate DeletedOutOfOrder(w: World, immediately: bool) {
    && DeleteReturned in w.h && DeleteOrdered !in w.h
    && (Immediate in w.h <==> immediately)
  }

  /**
   Exactly when a user may delete without waiting for the shutdown to return: when that is not
   immediate, and the executor is fixed or never has a worker. Then, in every run, all accepted
   jobs are settled when the delete returns; otherwise some run leaves one unsettled.
   */
  lemma DeletingOutOfOrderIsSafeExactlyWhen(cfg: Config, immediately: bool)
    requires ConfigOk(cfg)
    ensures (forall schedule ::
               DeletedOutOfOrder(Reach(cfg, schedule).w, immediately) ==> AllSettled(Reach(cfg, schedule).w))
            <==> !immediately && (cfg.kind == FixedThreadCount || cfg.emptyTimeout == NON_BLOCKING)
  {
    if immediately {
      var bad := DeleteCanOvertakeAnImmediateShutdown(cfg);
      assert DeletedOutOfOrder(Reach(cfg, bad).w, immediately) && !AllSettled(Reach(cfg, bad).w);
    } else if MayHaveWorkers(cfg) {
      var bad := DeleteCanOvertakeASubmitter(cfg);
      assert DeletedOutOfOrder(Reach(cfg, bad).w, immediately) && !AllSettled(Reach(cfg, bad).w);
    } else {
      forall schedule | DeletedOutOfOrder(Reach(cfg, schedule).w, immediately)
        ensures AllSettled(Reach(cfg, schedule).w)
      {
        ConfigStays(cfg, schedule);
        if cfg.kind == FixedThreadCount {
          DeletedExecutorHasSettledEveryJob(cfg, schedule);
        } else {
          DeletedExecutorWithoutWorkersHasSettledEveryJob(cfg, schedule);
        }
      }
    }
  }

  lemma ConfigStays(cfg: Config, schedule: seq<Step>)
    ensures Reach(cfg, schedule).w.cfg == cfg
  {
    ExecutorCounts.InitCounted(cfg);
    ConfigIsFixed(Init(cfg), schedule);
  }

  // ---- a job that nobody comes for ----

  predicate Impatient(cfg: Config) {
    cfg.emptyTimeout != BLOCKING && cfg.emptyTimeout != NON_BLOCKING
  }

  const STAFFED := {Published, WorkerStarted}

  /** Thread 1 has started worker 4 and is gone. */
  function Serving(cfg: Config): State {
    State(World(cfg, Mem(1, 0, false, Queue(cfg, [0], false, NOBODY)), [JOB], {0}, STAFFED), map[4 := WorkerPop])
  }

  lemma ReachServing(cfg: Config) returns (schedule: seq<Step>)
    requires MayHaveWorkers(cfg)
    ensures Reach(cfg, schedule) == Serving(cfg)
  {
    schedule := ReachCreating(cfg);
    var w := Creating(cfg).w.(m := Mem(1, 1, false, Queue(cfg, [0], false, NOBODY)));
    var s1 := State(w, map[1 := CreateReserved(BySubmitter)]);
    schedule := OneMore(cfg, schedule, Creates(1, CreateBegins), Creating(cfg), s1);
    var s2 := State(w.(h := STAFFED), map[1 := CreateStarted(BySubmitter), 4 := WorkerPop]);
    schedule := OneMore(cfg, schedule, Creates(1, WorkerStarts(4)), s1, s2);
    var s3 := State(w.(h := STAFFED), map[1 := SubmitExit, 4 := WorkerPop]);
    schedule := OneMore(cfg, schedule, Creates(1, CreateEnds), s2, s3);
    schedule := OneMore(cfg, schedule, Submits(1, SubmitEnds), s3, Serving(cfg));
  }

  const DONE := Job.EndExecution(Job.BeginExecution(JOB), 7)

  /** The worker has executed job 0. */
  function Idle(cfg: Config): State {
    State(World(cfg, Mem(1, 0, false, Queue(cfg, [], false, NOBODY)), [DONE], {0}, STAFFED), map[4 := WorkerPop])
  }

  lemma ReachIdle(cfg: Config) returns (schedule: seq<Step>)
    requires MayHaveWorkers(cfg)
    ensures Reach(cfg, schedule) == Idle(cfg)
  {
    schedule := ReachServing(cfg);
    PopTakes(cfg, 4, false, false);
    var s1 := State(Idle(cfg).w.(jobs := [JOB]), map[4 := WorkerTook(0)]);
    schedule := OneMore(cfg, schedule, Works(4, Pops(ROOM)), Serving(cfg), s1);
    var s2 := State(Idle(cfg).w.(jobs := [Job.BeginExecution(JOB)]), map[4 := WorkerRunning(0)]);
    schedule := OneMore(cfg, schedule, Works(4, Begins), s1, s2);
    schedule := OneMore(cfg, schedule, Works(4, Ends(7)), s2, Idle(cfg));
  }

  /** The worker has waited until its time was over, and is about to leave. */
  function Leaving(cfg: Config): State {
    State(Idle(cfg).w.(h := STAFFED + {WorkerQuit}), map[4 := WorkerExit])
  }

  lemma ReachLeaving(cfg: Config) returns (schedule: seq<Step>)
    requires MayHaveWorkers(cfg) && Impatient(cfg)
    ensures Reach(cfg, schedule) == Leaving(cfg)
  {
    schedule := ReachIdle(cfg);
    PopSleeps(cfg);
    var w := Idle(cfg).w;
    var s := State(w.(m := w.m.(jobQ := Queue(cfg, [], false, SLEEPER))), map[4 := WorkerBlocked]);
    schedule := OneMore(cfg, schedule, Works(4, Pops(ROOM)), Idle(cfg), s);
    PopTimesOut(cfg);
    schedule := OneMore(cfg, schedule, Works(4, PopWakes(true, ROOM)), s, Leaving(cfg));
  }

  /** Thread 2 has pushed job 1 and found no worker that waits. */
  function Asking(cfg: Config): State {
    State(
      World(cfg, Mem(1, 1, false, Queue(cfg, [1], false, NOBODY)), [DONE, JOB], {0, 1}, Leaving(cfg).w.h),
      map[2 := CreateEnter(BySubmitter), 4 := WorkerExit])
  }

  lemma ReachSecondPush(cfg: Config) returns (schedule: seq<Step>)
    requires MayHaveWorkers(cfg) && Impatient(cfg)
    ensures Reach(cfg, schedule) == State(Asking(cfg).w, map[2 := SubmitPushed, 4 := WorkerExit])
  {
    schedule := ReachLeaving(cfg);
    var w := Leaving(cfg).w;
    var s1 := State(w.(m := w.m.(submitters := 1)), map[2 := SubmitNew, 4 := WorkerExit]);
    schedule := OneMore(cfg, schedule, Calls(2, Submit), Leaving(cfg), s1);
    var s2 := State(s1.w.(jobs := [DONE, JOB]), map[2 := SubmitPush(1), 4 := WorkerExit]);
    schedule := OneMore(cfg, schedule, Submits(2, JobCreated(None, false)), s1, s2);
    SecondPush(cfg, 2);
    assert {0} + {1} == {0, 1};
    var s3 := State(Asking(cfg).w, map[2 := SubmitPushed, 4 := WorkerExit]);
    schedule := OneMore(cfg, schedule, Submits(2, PushCalled(ROOM)), s2, s3);
  }

  lemma ReachAsking(cfg: Config) returns (schedule: seq<Step>)
    requires MayHaveWorkers(cfg) && Impatient(cfg)
    ensures Reach(cfg, schedule) == Asking(cfg)
  {
    schedule := ReachSecondPush(cfg);
    var s1 := State(Asking(cfg).w, map[2 := SubmitPushed, 4 := WorkerExit]);
    var s2 := State(Asking(cfg).w, map[2 := SubmitSawNoWaiters, 4 := WorkerExit]);
    schedule := OneMore(cfg, schedule, Submits(2, CountsWaiters), s1, s2);
    schedule := OneMore(cfg, schedule, Submits(2, LooksAtQueue), s2, Asking(cfg));
  }

  /**
   No worker comes: with a limit of one worker, the one that is about to leave still counts,
   so thread 2 may not start another; with a larger limit, starting one fails.
   */
  lemma ReachTurnedAway(cfg: Config) returns (schedule: seq<Step>)
    requires MayHaveWorkers(cfg) && Impatient(cfg)
    ensures Reach(cfg, schedule) == State(Asking(cfg).w, map[2 := SubmitExit, 4 := WorkerExit])
  {
    schedule := ReachAsking(cfg);
    var exit := State(Asking(cfg).w, map[2 := SubmitExit, 4 := WorkerExit]);
    if cfg.workerLimit == 1 {
      schedule := OneMore(cfg, schedule, Creates(2, CreateBegins), Asking(cfg), exit);
    } else {
      var w := Asking(cfg).w;
      var reserved := w.(m := w.m.(activeWorkers := 2));
      var s1 := State(reserved, map[2 := CreateReserved(BySubmitter), 4 := WorkerExit]);
      schedule := OneMore(cfg, schedule, Creates(2, CreateBegins), Asking(cfg), s1);
      var s2 := State(reserved, map[2 := CreateFailed(BySubmitter), 4 := WorkerExit]);
      schedule := OneMore(cfg, schedule, Creates(2, WorkerDoesNotStart), s1, s2);
      schedule := OneMore(cfg, schedule, Creates(2, CreateEnds), s2, exit);
    }
  }

  /** Job 1 is in the queue, and nobody is inside. */
  function Stranded(cfg: Config): State {
    State(
      World(cfg, Mem(0, 0, false, Queue(cfg, [1], false, NOBODY)), [DONE, JOB], {0, 1}, Leaving(cfg).w.h), map[])
  }

  /**
   Every executor whose workers wait for a limited time can leave an accepted job in its queue
   with nobody inside who would take it: only a later submission or the discard deals with it.
   */
  lemma ImpatientExecutorCanLeaveAJob(cfg: Config) returns (schedule: seq<Step>)
    requires ConfigOk(cfg) && Impatient(cfg)
    ensures Reach(cfg, schedule) == Stranded(cfg)
  {
    schedule := ReachTurnedAway(cfg);
    var s1 := State(Asking(cfg).w, map[2 := SubmitExit, 4 := WorkerExit]);
    var w := Asking(cfg).w;
    var s2 := State(w.(m := w.m.(submitters := 0)), map[4 := WorkerExit]);
    schedule := OneMore(cfg, schedule, Submits(2, SubmitEnds), s1, s2);
    schedule := OneMore(cfg, schedule, Works(4, Exits), s2, Stranded(cfg));
  }

  /** There was a worker, there is none, and nobody has asked for a shutdown. */
  predicate Deserted(w: World) {
    WorkerStarted in w.h && w.m.activeWorkers == 0 && !w.m.shutdownRequested
  }

  /** Patient workers stay until a shutdown is requested; and where there never is a worker, none is missed. */
  lemma NeverDeserted(cfg: Config, schedule: seq<Step>)
    requires ConfigOk(cfg) && !Impatient(cfg)
    ensures !Deserted(Reach(cfg, schedule).w)
  {
    if cfg.emptyTimeout == BLOCKING {
      if Deserted(Reach(cfg, schedule).w) { PatientWorkersLeaveNothingQueued(cfg, schedule); }
    } else {
      NonBlockingExecutorHasNoWorkers(cfg, schedule);
    }
  }

  /**
   Exactly when a queued job always has somebody to come for it, once there was a worker: when
   the workers wait without a limit, or not at all, so that there never is one.
   */
  lemma NobodyIsMissingExactlyWhen(cfg: Config)
    requires ConfigOk(cfg)
    ensures (forall schedule :: Deserted(Reach(cfg, schedule).w) ==> Reach(cfg, schedule).w.m.jobQ.Items() == [])
            <==> cfg.emptyTimeout == BLOCKING || cfg.emptyTimeout == NON_BLOCKING
  {
    if Impatient(cfg) {
      var bad := ImpatientExecutorCanLeaveAJob(cfg);
      assert Deserted(Reach(cfg, bad).w) && Reach(cfg, bad).w.m.jobQ.Items() == [1];
    } else {
      forall schedule ensures !Deserted(Reach(cfg, schedule).w) { NeverDeserted(cfg, schedule); }
    }
  }

  /** There was a worker, a shutdown that is not immediate has returned, and no worker is left. */
  predicate DrainedInOrder(w: World) {
    && WorkerStarted in w.h && ShutdownReturned in w.h && Immediate !in w.h && w.m.activeWorkers == 0
    && (DeleteCalled in w.h ==> DeleteOrdered in w.h)
  }

  /**
   Exactly when a shutdown that is not immediate drains the queue, once there was a worker: under
   the same condition. Then every accepted job is executed by the time the workers are gone.
   */
  lemma ShutdownDrainsExactlyWhen(cfg: Config)
    requires ConfigOk(cfg)
    ensures (forall schedule :: DrainedInOrder(Reach(cfg, schedule).w) ==> AllExecuted(Reach(cfg, schedule).w))
            <==> cfg.emptyTimeout == BLOCKING || cfg.emptyTimeout == NON_BLOCKING
  {
    if Impatient(cfg) {
      var bad := ImpatientExecutorCanLeaveAJob(cfg);
      var w := Stranded(cfg).w;
      var s := State(w.(m := Mem(0, 0, true, Queue(cfg, [1], true, NOBODY)), h := w.h + {ShutdownReturned}), map[]);
      bad := OneMore(cfg, bad, Calls(2, Shutdown(false)), Stranded(cfg), s);
      assert 1 in s.w.accepted && s.w.jobs[1] == JOB;
      assert DrainedInOrder(Reach(cfg, bad).w) && !AllExecuted(Reach(cfg, bad).w);
    } else {
      forall schedule | DrainedInOrder(Reach(cfg, schedule).w) ensures AllExecuted(Reach(cfg, schedule).w) {
        if cfg.emptyTimeout == BLOCKING {
          ConfigStays(cfg, schedule);
          assert ExecutorPhases.Graceful(Reach(cfg, schedule).w);
          GracefulShutdownExecutesEveryJob(cfg, schedule);
        } else {
          NonBlockingExecutorHasNoWorkers(cfg, schedule);
        }
      }
    }
  }
}
