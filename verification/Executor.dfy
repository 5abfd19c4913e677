/**
 The executor of src/executor.c with its workers (src/worker.c) as a step system: any number
 of threads submitting, shutting down, waiting and deleting, and the workers themselves. A
 step is one critical section, or one action on data that only the acting thread can reach.
 */
module Executor {
  import opened Base
  import opened CondVars
  import opened QueueTypes
  import opened JobQueue
  import Job
  import Promise
  import Runs

  datatype Kind = FixedThreadCount | CachedThreadPool

  /** What new_executor stores and nobody changes afterwards. */
  datatype Config = Config(kind: Kind, workerLimit: nat, emptyTimeout: nat, maxQueueCapacity: nat)

  function NewConfig(kind: Kind, workerLimit: nat, maxQueueCapacity: nat, emptyTimeout: nat): Config {
    Config(kind, workerLimit, if kind == FixedThreadCount then BLOCKING else emptyTimeout, maxQueueCapacity)
  }

  ghost predicate ConfigOk(cfg: Config) {
    && cfg.workerLimit > 0
    && cfg.maxQueueCapacity <= MAX_U64
    && (cfg.kind == FixedThreadCount ==> cfg.emptyTimeout == BLOCKING)
  }

  type JobId = nat

  /** The mutable fields of the executor. */
  datatype Memory = Memory(
    activeWorkers: nat,
    submitters: nat,
    shutdownRequested: bool,
    workersUntilZero: CondVar,
    submittersUntilZero: CondVar,
    jobQ: JobQueue<JobId>)

  function Decrement(n: nat): nat {
    if n == 0 then MAX_U64 else n - 1
  }

  // ---- critical sections ----

  /** submit_job_executor, before the push, unless shutdown was requested. */
  function SubmitEnterSection(m: Memory): Memory {
    if m.shutdownRequested then m else m.(submitters := m.submitters + 1)
  }

  /** submit_job_executor, on the way out. */
  function SubmitExitSection(m: Memory): Memory {
    var left := m.(submitters := Decrement(m.submitters));
    if left.submitters == 0 && m.shutdownRequested then
      left.(submittersUntilZero := m.submittersUntilZero.Broadcast())
    else left
  }

  /** create_worker counts a worker before it starts it, unless the limit is reached. */
  function ReserveSection(m: Memory, limit: nat): Memory {
    if m.activeWorkers < limit then m.(activeWorkers := m.activeWorkers + 1) else m
  }

  /** A worker cleans up, or could not be started. */
  function RetireSection(m: Memory): Memory {
    var left := m.(activeWorkers := Decrement(m.activeWorkers));
    if left.activeWorkers == 0 then left.(workersUntilZero := m.workersUntilZero.Broadcast()) else left
  }

  /** shutdown_executor's first call: close the queue. The wait for the submitters follows under the same lock. */
  function RequestShutdownSection(m: Memory): Memory {
    m.(shutdownRequested := true, jobQ := CloseSection(m.jobQ))
  }

  function SleepForSubmitters(m: Memory, t: Tid): Memory {
    m.(submittersUntilZero := m.submittersUntilZero.Sleep(t))
  }

  function WakeForSubmitters(m: Memory, t: Tid): Memory {
    m.(submittersUntilZero := m.submittersUntilZero.Leave(t))
  }

  function SleepForWorkers(m: Memory, t: Tid): Memory {
    m.(workersUntilZero := m.workersUntilZero.Sleep(t))
  }

  function WakeForWorkers(m: Memory, t: Tid): Memory {
    m.(workersUntilZero := m.workersUntilZero.Leave(t))
  }

  // ---- threads ----

  /** Who calls create_worker: the constructor in iteration i, or a submitter. */
  datatype Creator = ByConstructor(i: nat) | BySubmitter

  /** Who discards jobs: the first shutdown, or delete_executor. */
  datatype Discarder = ByShutdown | ByDelete

  /** What a thread is about to do. */
  datatype PC =
    | Outside
    | ConstructorLoop(i: nat)
    | CreateEnter(owner: Creator)
    | CreateReserved(owner: Creator)
    | CreateStarted(owner: Creator)
    | CreateFailed(owner: Creator)
    | SubmitNew
    | SubmitPush(j: JobId)
    | SubmitBlocked(j: JobId)
    | SubmitPushed
    | SubmitSawNoWaiters
    | SubmitExit
    | WorkerPop
    | WorkerBlocked
    | WorkerTook(j: JobId)
    | WorkerRunning(j: JobId)
    | WorkerExit
    | ShutdownBlocked
    | DiscardLook(who: Discarder)
    | DiscardPop(who: Discarder)
    | DiscardTook(who: Discarder, j: JobId)
    | WaitLook(deletes: bool)
    | WaitBlocked(deletes: bool)

  /**
   What has happened so far: the constructor is done, the first shutdown was to discard, it
   has returned, some wait saw no workers, some worker was started, some worker quit its
   loop, delete_executor was called, that was after the first shutdown had returned, and
   delete_executor has returned 1.
   */
  datatype Fact =
    | Published
    | Immediate
    | ShutdownReturned
    | SawNoWorkers
    | WorkerStarted
    | WorkerQuit
    | DeleteCalled
    | DeleteOrdered
    | DeleteReturned

  /** What the threads share: the executor, every job ever created, and the jobs whose push succeeded. */
  datatype World = World(
    cfg: Config,
    m: Memory,
    jobs: seq<Job.Job>,
    accepted: set<JobId>,
    h: set<Fact>)

  datatype State = State(w: World, pcs: map<Tid, PC>)

  const CONSTRUCTOR: Tid := 0

  function Init(cfg: Config): State {
    State(
      World(cfg, Memory(0, 0, false, NOBODY, NOBODY, Initialize(cfg.maxQueueCapacity)), [], {}, {}),
      map[CONSTRUCTOR := ConstructorLoop(0)])
  }

  /** Steps of a thread that creates workers: the constructor, or a submitter in create_worker. */
  datatype CreatorStep =
    | ConstructorLoops
    | CreateBegins
    | WorkerStarts(worker: Tid)
    | WorkerDoesNotStart
    | CreateEnds

  datatype SubmitterStep =
    | JobCreated(promise: Option<Promise.Promise>, hasCancellationCallback: bool)
    | JobNotCreated
    | PushCalled(choice: Choice)
    | PushWakes(timedOut: bool, choice: Choice)
    | CountsWaiters
    | LooksAtQueue
    | SubmitEnds

  datatype WorkerStep =
    | Pops(choice: Choice)
    | PopWakes(timedOut: bool, choice: Choice)
    | Begins
    | Ends(output: Ptr)
    | Exits

  /** Steps of a thread that shuts down, waits for the workers or deletes. */
  datatype CloserStep =
    | ShutdownWakes
    | DiscardLooks
    | DiscardPops(choice: Choice)
    | DiscardCancels
    | WaitLooks
    | WaitWakes

  /** The calls of the executor's users. */
  datatype Call = Submit | Shutdown(immediately: bool) | Wait(deletes: bool)

  /** Thread t makes a step. */
  datatype Step =
    | Calls(t: Tid, call: Call)
    | Creates(t: Tid, creator: CreatorStep)
    | Submits(t: Tid, submitter: SubmitterStep)
    | Works(t: Tid, worker: WorkerStep)
    | Closes(t: Tid, closer: CloserStep)

  /**
   What a step leaves behind: the shared data, where the thread is now, and the worker it
   started, if it did. Stuck: the thread cannot make the step.
   */
  datatype Move =
    | Stuck
    | Goes(w: World, pc: PC)
    | Spawns(w: World, pc: PC, worker: Tid)

  /** What the caller of create_worker does next. */
  function Created(w: World, owner: Creator): Move {
    match owner
    case ByConstructor(i) => Goes(w, ConstructorLoop(i + 1))
    case BySubmitter => Goes(w, SubmitExit)
  }

  function CreatorMove(w: World, pc: PC, step: CreatorStep): Move {
    match step
    case ConstructorLoops =>
      if !pc.ConstructorLoop? then Stuck
      else if w.cfg.kind == FixedThreadCount && pc.i < w.cfg.workerLimit then
        Goes(w, CreateEnter(ByConstructor(pc.i)))
      else Goes(w.(h := w.h + {Published}), Outside)
    case CreateBegins =>
      if !pc.CreateEnter? then Stuck
      else if w.m.activeWorkers < w.cfg.workerLimit then
        Goes(w.(m := ReserveSection(w.m, w.cfg.workerLimit)), CreateReserved(pc.owner))
      else Created(w, pc.owner)
    case WorkerStarts(worker) =>
      if !pc.CreateReserved? || w.cfg.emptyTimeout == NON_BLOCKING then Stuck
      else Spawns(w.(h := w.h + {WorkerStarted}), CreateStarted(pc.owner), worker)
    case WorkerDoesNotStart =>
      if !pc.CreateReserved? then Stuck else Goes(w, CreateFailed(pc.owner))
    case CreateEnds =>
      if pc.CreateStarted? then Created(w, pc.owner)
      else if pc.CreateFailed? then Created(w.(m := RetireSection(w.m)), pc.owner)
      else Stuck
  }

  /** A call from outside: the executor exists and has not been deleted. */
  predicate MayCall(w: World) {
    Published in w.h && DeleteReturned !in w.h
  }

  function SubmitCall(w: World): Move {
    if w.m.shutdownRequested then Goes(w, Outside) else Goes(w.(m := SubmitEnterSection(w.m)), SubmitNew)
  }

  function PushEnds(w: World, j: JobId, r: (JobQueue<JobId>, PushOutcome)): Move {
    var w' := w.(m := w.m.(jobQ := r.0));
    match r.1
    case PushSleeps => Goes(w', SubmitBlocked(j))
    case PushReturns(true) =>
      Goes(w'.(accepted := w.accepted + {j}), if w.cfg.kind == CachedThreadPool then SubmitPushed else SubmitExit)
    case PushReturns(false) => Goes(w', SubmitExit)
  }

  function SubmitterMove(w: World, t: Tid, pc: PC, step: SubmitterStep): Move {
    match step
    case JobCreated(promise, hasCancellationCallback) =>
      if !pc.SubmitNew? then Stuck
      else Goes(w.(jobs := w.jobs + [Job.New(promise, hasCancellationCallback)]), SubmitPush(|w.jobs|))
    case JobNotCreated =>
      if !pc.SubmitNew? then Stuck else Goes(w, SubmitExit)
    case PushCalled(choice) =>
      if !pc.SubmitPush? || !PushChoiceOk(w.m.jobQ, choice) then Stuck
      else PushEnds(w, pc.j, Push(w.m.jobQ, t, pc.j, false, choice))
    case PushWakes(timedOut, choice) =>
      if !pc.SubmitBlocked? || !PushChoiceOk(w.m.jobQ, choice) then Stuck
      else PushEnds(w, pc.j, PushWake(w.m.jobQ, t, pc.j, timedOut, choice))
    case CountsWaiters =>
      if !pc.SubmitPushed? then Stuck
      else Goes(w, if w.m.jobQ.Empty().waiting == {} then SubmitSawNoWaiters else SubmitExit)
    case LooksAtQueue =>
      if !pc.SubmitSawNoWaiters? then Stuck
      else Goes(w, if |w.m.jobQ.Items()| != 0 then CreateEnter(BySubmitter) else SubmitExit)
    case SubmitEnds =>
      if !pc.SubmitExit? then Stuck else Goes(w.(m := SubmitExitSection(w.m)), Outside)
  }

  function UpdateJob(w: World, j: JobId, job: Job.Job): World {
    if j < |w.jobs| then w.(jobs := w.jobs[j := job]) else w
  }

  function JobOf(w: World, j: JobId): Job.Job {
    if j < |w.jobs| then w.jobs[j] else Job.New(None, false)
  }

  function WorkerPopEnds(w: World, r: (JobQueue<JobId>, PopOutcome<JobId>)): Move {
    var w' := w.(m := w.m.(jobQ := r.0));
    match r.1
    case PopSleeps => Goes(w', WorkerBlocked)
    case PopReturns(Some(j)) => Goes(w', WorkerTook(j))
    case PopReturns(None) => Goes(w'.(h := w.h + {WorkerQuit}), WorkerExit)
  }

  function WorkerMove(w: World, t: Tid, pc: PC, step: WorkerStep): Move {
    match step
    case Pops(choice) =>
      if !pc.WorkerPop? || !PopChoiceOk(w.m.jobQ, choice) then Stuck
      else WorkerPopEnds(w, Pop(w.m.jobQ, t, false, choice))
    case PopWakes(timedOut, choice) =>
      // a BLOCKING wait never times out
      if !pc.WorkerBlocked? || !PopChoiceOk(w.m.jobQ, choice) || (timedOut && w.cfg.emptyTimeout == BLOCKING) then Stuck
      else WorkerPopEnds(w, PopWake(w.m.jobQ, t, timedOut, choice))
    case Begins =>
      if !pc.WorkerTook? then Stuck
      else if JobOf(w, pc.j).state != Job.CREATED then Goes(w, WorkerPop)
      else Goes(UpdateJob(w, pc.j, Job.BeginExecution(JobOf(w, pc.j))), WorkerRunning(pc.j))
    case Ends(output) =>
      if !pc.WorkerRunning? then Stuck
      else Goes(UpdateJob(w, pc.j, Job.EndExecution(JobOf(w, pc.j), output)), WorkerPop)
    case Exits =>
      if !pc.WorkerExit? then Stuck else Goes(w.(m := RetireSection(w.m)), Outside)
  }

  /** The first shutdown goes on once it has seen no submitters. */
  function AwaitSubmitters(w: World, t: Tid): Move {
    if w.m.submitters > 0 then Goes(w.(m := SleepForSubmitters(w.m, t)), ShutdownBlocked)
    else if Immediate in w.h then Goes(w, DiscardLook(ByShutdown))
    else Goes(w.(h := w.h + {ShutdownReturned}), Outside)
  }

  function AwaitWorkers(w: World, t: Tid, deletes: bool): Move {
    if w.m.activeWorkers > 0 then Goes(w.(m := SleepForWorkers(w.m, t)), WaitBlocked(deletes))
    else if deletes then Goes(w.(h := w.h + {SawNoWorkers}), DiscardLook(ByDelete))
    else Goes(w.(h := w.h + {SawNoWorkers}), Outside)
  }

  function DiscardEnds(w: World, who: Discarder): Move {
    match who
    case ByShutdown => Goes(w.(h := w.h + {ShutdownReturned}), Outside)
    case ByDelete => Goes(w.(h := w.h + {DeleteReturned}), Outside)
  }

  function DiscardPopEnds(w: World, who: Discarder, r: (JobQueue<JobId>, PopOutcome<JobId>)): Move {
    var w' := w.(m := w.m.(jobQ := r.0));
    match r.1
    case PopReturns(Some(j)) => Goes(w', DiscardTook(who, j))
    case _ => Goes(w', DiscardLook(who))
  }

  /** shutdown_executor; a call that is not the first returns at once. */
  function ShutdownCall(w: World, t: Tid, immediately: bool): Move {
    if w.m.shutdownRequested then Goes(w, Outside)
    else AwaitSubmitters(w.(m := RequestShutdownSection(w.m), h := if immediately then w.h + {Immediate} else w.h), t)
  }

  /** wait_for_all_executor_workers_to_complete, or delete_executor; both return 0 before a shutdown. */
  function WaitCall(w: World, deletes: bool): Move {
    if !w.m.shutdownRequested then Goes(w, Outside)
    else if !deletes then Goes(w, WaitLook(false))
    else if DeleteCalled in w.h then Stuck
    else
      var called := if ShutdownReturned in w.h then {DeleteCalled, DeleteOrdered} else {DeleteCalled};
      Goes(w.(h := w.h + called), WaitLook(true))
  }

  function CloserMove(w: World, t: Tid, pc: PC, step: CloserStep): Move {
    match step
    case ShutdownWakes =>
      if !pc.ShutdownBlocked? then Stuck
      else AwaitSubmitters(w.(m := WakeForSubmitters(w.m, t)), t)
    case DiscardLooks =>
      if !pc.DiscardLook? then Stuck
      else if |w.m.jobQ.Items()| == 0 then DiscardEnds(w, pc.who)
      else Goes(w, DiscardPop(pc.who))
    case DiscardPops(choice) =>
      // discard_leftover_jobs pops with NON_BLOCKING: a wait, if there is one, times out at once
      if !pc.DiscardPop? || !PopChoiceOk(w.m.jobQ, choice) then Stuck
      else DiscardPopEnds(w, pc.who, Pop(w.m.jobQ, t, true, choice))
    case DiscardCancels =>
      if !pc.DiscardTook? then Stuck
      else Goes(UpdateJob(w, pc.j, Job.Cancel(JobOf(w, pc.j))), DiscardLook(pc.who))
    case WaitLooks =>
      if !pc.WaitLook? then Stuck else AwaitWorkers(w, t, pc.deletes)
    case WaitWakes =>
      if !pc.WaitBlocked? then Stuck
      else AwaitWorkers(w.(m := WakeForWorkers(w.m, t)), t, pc.deletes)
  }

  function CallMove(w: World, t: Tid, call: Call): Move {
    if !MayCall(w) then Stuck else
    match call
    case Submit => SubmitCall(w)
    case Shutdown(immediately) => ShutdownCall(w, t, immediately)
    case Wait(deletes) => WaitCall(w, deletes)
  }

  /** What a thread at pc does in a step. */
  function MoveOf(w: World, pc: PC, step: Step): Move {
    match step
    case Calls(t, call) => if pc.Outside? then CallMove(w, t, call) else Stuck
    case Creates(_, creator) => CreatorMove(w, pc, creator)
    case Submits(t, submitter) => SubmitterMove(w, t, pc, submitter)
    case Works(t, worker) => WorkerMove(w, t, pc, worker)
    case Closes(t, closer) => CloserMove(w, t, pc, closer)
  }

  function PcOf(pcs: map<Tid, PC>, t: Tid): PC {
    if t in pcs then pcs[t] else Outside
  }

  /** The map holds the threads that are inside the executor. */
  function Place(pcs: map<Tid, PC>, t: Tid, pc: PC): map<Tid, PC> {
    if pc.Outside? then pcs - {t} else pcs[t := pc]
  }

  /** A new worker is a thread that was not there before. */
  function Next(s: State, step: Step): State {
    match MoveOf(s.w, PcOf(s.pcs, step.t), step)
    case Stuck => s
    case Goes(w, pc) => State(w, Place(s.pcs, step.t, pc))
    case Spawns(w, pc, worker) =>
      if worker in s.pcs then s else State(w, Place(Place(s.pcs, step.t, pc), worker, WorkerPop))
  }

  function Reach(cfg: Config, schedule: seq<Step>): State {
    Runs.After(Next, Init(cfg), schedule)
  }
}
