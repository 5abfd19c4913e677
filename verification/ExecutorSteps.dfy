/**
 What decides each step of the executor, told on the states before and after it, and what the
 steps of one thread come to whatever the others do in between.
 */
module ExecutorSteps {
  import opened Base
  import opened CondVars
  import opened QueueTypes
  import opened JobQueue
  import opened Executor
  import opened ExecutorCounts
  import opened ExecutorWaits
  import opened ExecutorJobs
  import opened ExecutorPhases
  import opened ExecutorTheorems
  import opened Threads
  import Job
  import Promise
  import Runs

  /** Where thread t is after a step. */
  function PcAfter(s: State, step: Step): PC {
    PcOf(Next(s, step).pcs, step.t)
  }

  lemma StepGoes(s: State, step: Step)
    requires MoveOf(s.w, PcOf(s.pcs, step.t), step).Goes?
    ensures var move := MoveOf(s.w, PcOf(s.pcs, step.t), step);
            Next(s, step).w == move.w && PcAfter(s, step) == move.pc
  {
  }

  // ---- submissions ----

  /** A submission is refused exactly after a shutdown was requested, and else counted. */
  lemma SubmissionsEnterExactlyBeforeShutdown(s: State, t: Tid)
    requires PcOf(s.pcs, t) == Outside && Published in s.w.h && DeleteReturned !in s.w.h
    ensures var w', pc' := Next(s, Calls(t, Submit)).w, PcAfter(s, Calls(t, Submit));
            && pc' == (if s.w.m.shutdownRequested then Outside else SubmitNew)
            && w'.m.submitters == s.w.m.submitters + (if s.w.m.shutdownRequested then 0 else 1)
            && w'.jobs == s.w.jobs && w'.accepted == s.w.accepted && w'.m.jobQ == s.w.m.jobQ
            && w'.m.shutdownRequested == s.w.m.shutdownRequested
  {
  }

  /** The job that was created is the one that is pushed; without one nothing is. */
  lemma CreatedJobsArePushed(s: State, t: Tid, promise: Option<Promise.Promise>, hasCallback: bool)
    requires PcOf(s.pcs, t) == SubmitNew
    ensures PcAfter(s, Submits(t, JobCreated(promise, hasCallback))) == SubmitPush(|s.w.jobs|)
    ensures PcAfter(s, Submits(t, JobNotCreated)) == SubmitExit
    ensures Next(s, Submits(t, JobNotCreated)).w == s.w
  {
  }

  function PushStep(t: Tid, pc: PC, timedOut: bool, choice: Choice): Step {
    Submits(t, if pc.SubmitBlocked? then PushWakes(timedOut, choice) else PushCalled(choice))
  }

  lemma PushMoveIsDecided(w: World, t: Tid, pc: PC, timedOut: bool, choice: Choice)
    requires QueueOk(w.m) && QueueSees(w.m, t, pc) && Submitting(pc) && PushChoiceOk(w.m.jobQ, choice)
    ensures var q, move := w.m.jobQ, MoveOf(w, pc, PushStep(t, pc, timedOut, choice));
            && move.Goes?
            && (move.pc == SubmitBlocked(pc.j) <==> MakesPushersWait(q) && !(pc.SubmitBlocked? && timedOut))
            && (move.pc == SubmitPushed <==> HasRoom(q, choice) && w.cfg.kind == CachedThreadPool)
            && (move.pc.SubmitBlocked? || move.pc == SubmitPushed || move.pc == SubmitExit)
            && move.w.accepted == (if HasRoom(q, choice) then w.accepted + {pc.j} else w.accepted)
            && move.w.m.jobQ.Items() == (if HasRoom(q, choice) then q.Items() + [pc.j] else q.Items())
            && move.w.m.jobQ.Closed() == q.Closed() && move.w.jobs == w.jobs && move.w.h == w.h
  {
    PushOutcomeExactlyWhen(w.m.jobQ, t, pc.j, pc.SubmitBlocked? && timedOut, choice);
    if pc.SubmitBlocked? {
      PushWakeHasEffect(w.m.jobQ, t, pc.j, timedOut, choice);
    } else {
      PushHasEffect(w.m.jobQ, t, pc.j, false, choice);
    }
  }

  /** Whether a submission sleeps, is accepted or is turned away; only of a cached executor does it look for workers. */
  lemma SubmissionIsAcceptedExactlyWhen(s: State, t: Tid, timedOut: bool, choice: Choice)
    requires Inv(s) && PushChoiceOk(s.w.m.jobQ, choice)
    requires var pc := PcOf(s.pcs, t); pc.SubmitPush? || pc.SubmitBlocked?
    ensures var pc, q := PcOf(s.pcs, t), s.w.m.jobQ;
            var step := PushStep(t, pc, timedOut, choice);
            var w', pc' := Next(s, step).w, PcAfter(s, step);
            && (pc' == SubmitBlocked(pc.j) <==> MakesPushersWait(q) && !(pc.SubmitBlocked? && timedOut))
            && (pc' == SubmitPushed <==> HasRoom(q, choice) && s.w.cfg.kind == CachedThreadPool)
            && (pc'.SubmitBlocked? || pc' == SubmitPushed || pc' == SubmitExit)
            && w'.accepted == (if HasRoom(q, choice) then s.w.accepted + {pc.j} else s.w.accepted)
            && w'.m.jobQ.Items() == (if HasRoom(q, choice) then q.Items() + [pc.j] else q.Items())
            && w'.m.jobQ.Closed() == q.Closed() && w'.jobs == s.w.jobs && w'.h == s.w.h
  {
    CountsReachMover(s, t);
    PushMoveIsDecided(s.w, t, PcOf(s.pcs, t), timedOut, choice);
  }

  /** A thread that is inside stays where it is while only others make steps. */
  lemma {:induction false} ThreadRests(s: State, t: Tid, schedule: seq<Step>)
    requires PcOf(s.pcs, t) != Outside && forall k | 0 <= k < |schedule| :: schedule[k].t != t
    ensures PcOf(Runs.After(Next, s, schedule).pcs, t) == PcOf(s.pcs, t)
    decreases |schedule|
  {
    if schedule != [] { ThreadRests(Next(s, schedule[0]), t, schedule[1..]); }
  }

  /**
   A submission whose job was accepted looks twice, and others may do anything in between: it
   asks for a worker exactly when nobody was waiting for jobs at the first look and a job is
   queued at the second.
   */
  lemma WorkerIsAskedForExactlyWhen(s: State, t: Tid, others: seq<Step>)
    requires PcOf(s.pcs, t) == SubmitPushed && forall k | 0 <= k < |others| :: others[k].t != t
    ensures var later := Runs.After(Next, Next(s, Submits(t, CountsWaiters)), others);
            var last := Next(later, Submits(t, LooksAtQueue));
            && last.w == later.w
            && PcOf(last.pcs, t) ==
               if s.w.m.jobQ.Empty().waiting == {} && later.w.m.jobQ.Items() != [] then CreateEnter(BySubmitter)
               else SubmitExit
  {
    ThreadRests(Next(s, Submits(t, CountsWaiters)), t, others);
  }

  /**
   The counters, section by section: who comes in is counted unless it is too late or there are
   too many, who leaves is taken off, and the last one to leave wakes those who wait for that,
   submitters only for a shutdown.
   */
  lemma EntriesAndExitsAreCounted(m: Memory, limit: nat)
    requires m.submitters > 0 && m.activeWorkers > 0
    ensures SubmitEnterSection(m) == if m.shutdownRequested then m else m.(submitters := m.submitters + 1)
    ensures ReserveSection(m, limit) ==
            if m.activeWorkers >= limit then m else m.(activeWorkers := m.activeWorkers + 1)
    ensures var m', last := SubmitExitSection(m), m.submitters == 1 && m.shutdownRequested;
            && m' == m.(submitters := m.submitters - 1, submittersUntilZero := m'.submittersUntilZero)
            && m'.submittersUntilZero.waiting == m.submittersUntilZero.waiting
            && m'.submittersUntilZero.asleep == if last then {} else m.submittersUntilZero.asleep
    ensures var m', last := RetireSection(m), m.activeWorkers == 1;
            && m' == m.(activeWorkers := m.activeWorkers - 1, workersUntilZero := m'.workersUntilZero)
            && m'.workersUntilZero.waiting == m.workersUntilZero.waiting
            && m'.workersUntilZero.asleep == if last then {} else m.workersUntilZero.asleep
  {
  }

  // ---- the creation of workers ----

  /** Where a creator goes on after create_worker. */
  function Onwards(owner: Creator): PC {
    if owner.ByConstructor? then ConstructorLoop(owner.i + 1) else SubmitExit
  }

  /** create_worker counts a worker exactly below the limit; else its caller goes on. */
  lemma WorkerIsCountedExactlyBelowTheLimit(s: State, t: Tid)
    requires PcOf(s.pcs, t).CreateEnter?
    ensures var owner, m := PcOf(s.pcs, t).owner, s.w.m;
            var begun := Next(s, Creates(t, CreateBegins));
            if m.activeWorkers >= s.w.cfg.workerLimit then begun.w == s.w && PcOf(begun.pcs, t) == Onwards(owner)
            else
              && begun.w == s.w.(m := m.(activeWorkers := m.activeWorkers + 1))
              && PcOf(begun.pcs, t) == CreateReserved(owner)
  {
  }

  lemma CreationFails(s: State, t: Tid)
    requires PcOf(s.pcs, t).CreateFailed?
    ensures var last := Next(s, Creates(t, CreateEnds));
            && last.w == s.w.(m := RetireSection(s.w.m))
            && PcOf(last.pcs, t) == Onwards(PcOf(s.pcs, t).owner)
  {
  }

  /**
   A worker that cannot be started is taken back after whatever the others have done meanwhile,
   and whoever waits for the last worker is woken if it was the last.
   */
  lemma FailedWorkersAreTakenBack(s: State, t: Tid, others: seq<Step>)
    requires PcOf(s.pcs, t).CreateReserved? && forall k | 0 <= k < |others| :: others[k].t != t
    ensures var failed := Next(s, Creates(t, WorkerDoesNotStart));
            var later := Runs.After(Next, failed, others);
            var last := Next(later, Creates(t, CreateEnds));
            && failed.w == s.w
            && (later.w.m.activeWorkers >= 1 ==> last.w.m.activeWorkers == later.w.m.activeWorkers - 1)
            && (later.w.m.activeWorkers == 1 ==> last.w.m.workersUntilZero.asleep == {})
            && (later.w.m.activeWorkers > 1 ==> last.w.m.workersUntilZero == later.w.m.workersUntilZero)
            && PcOf(last.pcs, t) == Onwards(PcOf(s.pcs, t).owner)
  {
    var failed := Next(s, Creates(t, WorkerDoesNotStart));
    assert PcOf(failed.pcs, t) == CreateFailed(PcOf(s.pcs, t).owner);
    ThreadRests(failed, t, others);
    CreationFails(Runs.After(Next, failed, others), t);
  }

  /** A worker that has been counted starts on its own thread exactly when its workers would wait at all. */
  lemma WorkerStartsExactlyWhen(s: State, t: Tid, worker: Tid, others: seq<Step>)
    requires PcOf(s.pcs, t).CreateReserved? && worker !in s.pcs && worker != t
    requires forall k | 0 <= k < |others| :: others[k].t != t
    ensures var started := Next(s, Creates(t, WorkerStarts(worker)));
            var later := Runs.After(Next, started, others);
            var last := Next(later, Creates(t, CreateEnds));
            if s.w.cfg.emptyTimeout == NON_BLOCKING then started == s
            else
              && PcOf(started.pcs, worker) == WorkerPop && started.w == s.w.(h := s.w.h + {WorkerStarted})
              && last.w == later.w && PcOf(last.pcs, t) == Onwards(PcOf(s.pcs, t).owner)
  {
    if s.w.cfg.emptyTimeout != NON_BLOCKING {
      ThreadRests(Next(s, Creates(t, WorkerStarts(worker))), t, others);
    }
  }

  /** The step by which the constructor calls create_worker. */
  function Tries(s: State, step: Step): nat {
    var pc := PcOf(s.pcs, step.t);
    if pc.CreateEnter? && pc.owner.ByConstructor? && step.Creates? && step.creator == CreateBegins then 1 else 0
  }

  /** How often it has done so. */
  function Attempts(s: State, schedule: seq<Step>): nat
    decreases |schedule|
  {
    if schedule == [] then 0 else Tries(s, schedule[0]) + Attempts(Next(s, schedule[0]), schedule[1..])
  }

  function AttemptsDue(cfg: Config): nat {
    if cfg.kind == FixedThreadCount then cfg.workerLimit else 0
  }

  /** How many attempts the constructor has made when it is here. */
  function Made(pc: PC): nat {
    match pc
    case ConstructorLoop(i) => i
    case CreateEnter(ByConstructor(i)) => i
    case CreateReserved(ByConstructor(i)) => i + 1
    case CreateStarted(ByConstructor(i)) => i + 1
    case CreateFailed(ByConstructor(i)) => i + 1
    case _ => 0
  }

  ghost predicate AttemptsFit(cfg: Config, pc: PC, n: nat) {
    IsConstructor(pc) ==> Made(pc) == n && (if pc.CreateEnter? then n < AttemptsDue(cfg) else n <= AttemptsDue(cfg))
  }

  ghost predicate AttemptsAre(s: State, n: nat) {
    && (forall t | t in s.pcs :: AttemptsFit(s.w.cfg, s.pcs[t], n))
    && (Published in s.w.h ==> n == AttemptsDue(s.w.cfg))
  }

  lemma ConstructorGoesOn(w: World, pc: PC, creator: CreatorStep)
    requires IsConstructor(pc) && !CreatorMove(w, pc, creator).Stuck? && Published !in w.h
    requires AttemptsFit(w.cfg, pc, Made(pc))
    ensures var move := CreatorMove(w, pc, creator);
            var n := Made(pc) + if pc.CreateEnter? then 1 else 0;
            && (pc.CreateEnter? <==> creator == CreateBegins)
            && AttemptsFit(w.cfg, move.pc, n)
            && (Published in move.w.h ==> n == AttemptsDue(w.cfg))
  {
  }

  lemma OnlyOneConstructor(s: State, t: Tid, u: Tid)
    requires OneConstructor(s) && t in s.pcs && u in s.pcs && IsConstructor(s.pcs[t]) && IsConstructor(s.pcs[u])
    ensures t == u
  {
    var both := {t, u};
    assert both <= Where(s.pcs, IsConstructor);
    assert |Where(s.pcs, IsConstructor)| >= |both| by {
      assert Where(s.pcs, IsConstructor) == both + (Where(s.pcs, IsConstructor) - both);
    }
  }

  /** What a step says about the thread that makes it. */
  lemma MoverKeepsAttempts(s: State, n: nat, step: Step)
    requires Inv(s) && AttemptsAre(s, n) && Next(s, step) != s
    ensures var move := MoveOf(s.w, PcOf(s.pcs, step.t), step);
            && move.w.cfg == s.w.cfg
            && AttemptsFit(s.w.cfg, move.pc, n + Tries(s, step))
            && (Published in move.w.h ==> n + Tries(s, step) == AttemptsDue(s.w.cfg))
            && (!IsConstructor(PcOf(s.pcs, step.t)) ==> Tries(s, step) == 0)
  {
    var pc := PcOf(s.pcs, step.t);
    StepIsOk(s, step);
    if IsConstructor(pc) {
      SomebodyThere(s.pcs, step.t, IsConstructor);
      assert step.Creates?;
      ConstructorGoesOn(s.w, pc, step.creator);
    } else {
      MoveKeepsConstructor(s.w, pc, step);
    }
  }

  lemma StepKeepsAttempts(s: State, n: nat, step: Step)
    requires Inv(s) && AttemptsAre(s, n) && Next(s, step) != s
    ensures AttemptsAre(Next(s, step), n + Tries(s, step))
  {
    var s' := Next(s, step);
    MoverKeepsAttempts(s, n, step);
    forall t | t in s'.pcs ensures AttemptsFit(s'.w.cfg, s'.pcs[t], n + Tries(s, step)) {
      ThreadAfterStep(s, step, t);
      if t != step.t && t in s.pcs && IsConstructor(s.pcs[t]) && IsConstructor(PcOf(s.pcs, step.t)) {
        OnlyOneConstructor(s, t, step.t);
      }
    }
  }

  lemma {:induction false} RunsKeepAttempts(s: State, n: nat, schedule: seq<Step>)
    requires Inv(s) && AttemptsAre(s, n)
    ensures AttemptsAre(Runs.After(Next, s, schedule), n + Attempts(s, schedule))
    decreases |schedule|
  {
    if schedule != [] {
      StepKeepsInv(s, schedule[0]);
      TryingMoves(s, schedule[0]);
      if Next(s, schedule[0]) != s { StepKeepsAttempts(s, n, schedule[0]); }
      RunsKeepAttempts(Next(s, schedule[0]), n + Tries(s, schedule[0]), schedule[1..]);
    }
  }

  /** A call of create_worker is never held up. */
  lemma TryingMoves(s: State, step: Step)
    ensures Tries(s, step) == 1 ==> PcAfter(s, step) != PcOf(s.pcs, step.t)
  {
  }

  /**
   The constructor of a fixed executor makes exactly as many attempts to start a worker as the
   executor may have workers, whatever becomes of them; that of a cached one makes none.
   */
  lemma ConstructorMakesEveryAttempt(cfg: Config, schedule: seq<Step>)
    requires ConfigOk(cfg) && Published in Reach(cfg, schedule).w.h
    ensures Attempts(Init(cfg), schedule) == if cfg.kind == FixedThreadCount then cfg.workerLimit else 0
  {
    InvHolds(cfg, []);
    RunsKeepAttempts(Init(cfg), 0, schedule);
    InitCounted(cfg);
    ConfigIsFixed(Init(cfg), schedule);
  }

  // ---- workers ----

  function PopStep(t: Tid, pc: PC, timedOut: bool, choice: Choice): Step {
    Works(t, if pc.WorkerBlocked? then PopWakes(timedOut, choice) else Pops(choice))
  }

  /** The front job is taken, or there is none and the worker quits or sleeps. */
  ghost predicate TakesQuitsOrSleeps(w: World, t: Tid, over: bool, w': World, pc': PC) {
    var items := w.m.jobQ.Items();
    && (items != [] ==> pc' == WorkerTook(items[0]) && w'.m.jobQ.Items() == items[1..])
    && (items == [] ==> pc' == (if over then WorkerExit else WorkerBlocked) && w'.m.jobQ.Items() == [])
    && (pc' == WorkerBlocked ==> t in w'.m.jobQ.Empty().asleep)
    && w'.m.activeWorkers == w.m.activeWorkers && w'.jobs == w.jobs
  }

  lemma PopEndsAreDecided(w: World, t: Tid, empty: CondVar, late: bool, r: (JobQueue<JobId>, PopOutcome<JobId>))
    requires PopEffect(w.m.jobQ, empty, t, late, r.0, r.1)
    ensures var move := WorkerPopEnds(w, r);
            move.Goes? && TakesQuitsOrSleeps(w, t, w.m.jobQ.Closed() || late, move.w, move.pc)
  {
  }

  lemma NewPopIsDecided(w: World, t: Tid, choice: Choice)
    requires QueueOk(w.m) && QueueSees(w.m, t, WorkerPop) && PopChoiceOk(w.m.jobQ, choice)
    ensures var move := MoveOf(w, WorkerPop, Works(t, Pops(choice)));
            move.Goes? && TakesQuitsOrSleeps(w, t, w.m.jobQ.Closed(), move.w, move.pc)
  {
    PopHasEffect(w.m.jobQ, t, false, choice);
    PopEndsAreDecided(w, t, w.m.jobQ.Empty(), false, Pop(w.m.jobQ, t, false, choice));
  }

  lemma WokenPopIsDecided(w: World, t: Tid, timedOut: bool, choice: Choice)
    requires QueueOk(w.m) && PopChoiceOk(w.m.jobQ, choice) && (timedOut ==> w.cfg.emptyTimeout != BLOCKING)
    ensures var move := MoveOf(w, WorkerBlocked, Works(t, PopWakes(timedOut, choice)));
            move.Goes? && TakesQuitsOrSleeps(w, t, w.m.jobQ.Closed() || timedOut, move.w, move.pc)
  {
    PopWakeHasEffect(w.m.jobQ, t, timedOut, choice);
    PopEndsAreDecided(w, t, w.m.jobQ.Empty().Leave(t), timedOut, PopWake(w.m.jobQ, t, timedOut, choice));
  }

  /** When a worker takes a job and which, when it waits, and when it quits. */
  lemma WorkerQuitsExactlyWhen(s: State, t: Tid, timedOut: bool, choice: Choice)
    requires Inv(s) && PopChoiceOk(s.w.m.jobQ, choice)
    requires var pc := PcOf(s.pcs, t);
             pc.WorkerPop? || (pc.WorkerBlocked? && (timedOut ==> s.w.cfg.emptyTimeout != BLOCKING))
    ensures var pc := PcOf(s.pcs, t);
            var step := PopStep(t, pc, timedOut, choice);
            var over := s.w.m.jobQ.Closed() || (pc.WorkerBlocked? && timedOut);
            TakesQuitsOrSleeps(s.w, t, over, Next(s, step).w, PcAfter(s, step))
  {
    CountsReachMover(s, t);
    if PcOf(s.pcs, t).WorkerPop? {
      NewPopIsDecided(s.w, t, choice);
      StepGoes(s, Works(t, Pops(choice)));
    } else {
      WokenPopIsDecided(s.w, t, timedOut, choice);
      StepGoes(s, Works(t, PopWakes(timedOut, choice)));
    }
  }

  /** A worker starts the job that it took. */
  lemma WorkerRunsTheJobItTook(s: State, t: Tid)
    requires Inv(s) && PcOf(s.pcs, t).WorkerTook?
    ensures var j := PcOf(s.pcs, t).j;
            && PcAfter(s, Works(t, Begins)) == WorkerRunning(j)
            && j < |s.w.jobs| && |Next(s, Works(t, Begins)).w.jobs| == |s.w.jobs|
            && Next(s, Works(t, Begins)).w.jobs[j].calls == s.w.jobs[j].calls + 1 == 1
  {
    MoverBefore(s, t, PcOf(s.pcs, t).j);
  }

  /** A job that is not CREATED any more it would leave alone. */
  lemma WorkerLeavesOtherJobsAlone(s: State, t: Tid)
    requires PcOf(s.pcs, t).WorkerTook?
    requires var j := PcOf(s.pcs, t).j; j < |s.w.jobs| && s.w.jobs[j].state != Job.CREATED
    ensures Next(s, Works(t, Begins)).w == s.w && PcAfter(s, Works(t, Begins)) == WorkerPop
  {
  }

  /** And comes back for the next one, whatever the others have done while it was running. */
  lemma WorkerComesBack(s: State, t: Tid, output: Ptr, others: seq<Step>)
    requires PcOf(s.pcs, t).WorkerRunning? && forall k | 0 <= k < |others| :: others[k].t != t
    ensures PcAfter(Runs.After(Next, s, others), Works(t, Ends(output))) == WorkerPop
  {
    ThreadRests(s, t, others);
  }

  // ---- shutdown, wait and delete ----

  /** A user calls shutdown_executor. */
  predicate CallsShutdown(s: State, step: Step) {
    step.Calls? && step.call.Shutdown? && PcOf(s.pcs, step.t) == Outside && MayCall(s.w)
  }

  /** The first such call of the run, if there is one: whether it was to discard. */
  function FirstShutdown(s: State, schedule: seq<Step>): Option<bool>
    decreases |schedule|
  {
    if schedule == [] then None
    else if CallsShutdown(s, schedule[0]) then Some(schedule[0].call.immediately)
    else FirstShutdown(Next(s, schedule[0]), schedule[1..])
  }

  /** A user calls delete_executor after a shutdown was requested. */
  predicate CallsDelete(s: State, step: Step) {
    && step.Calls? && step.call == Wait(true) && PcOf(s.pcs, step.t) == Outside && MayCall(s.w)
    && s.w.m.shutdownRequested
  }

  /** The first such call of the run, if there is one: whether the first shutdown had returned by then. */
  function FirstDelete(s: State, schedule: seq<Step>): Option<bool>
    decreases |schedule|
  {
    if schedule == [] then None
    else if CallsDelete(s, schedule[0]) then Some(ShutdownReturned in s.w.h)
    else FirstDelete(Next(s, schedule[0]), schedule[1..])
  }

  /** Nothing is asked for. */
  ghost predicate AsksNothing(w: World, w': World) {
    && w'.m.shutdownRequested == w.m.shutdownRequested
    && (Immediate in w'.h <==> Immediate in w.h)
    && (DeleteCalled in w'.h <==> DeleteCalled in w.h)
    && (DeleteOrdered in w'.h <==> DeleteOrdered in w.h)
  }

  lemma CreatorAsksNothing(w: World, pc: PC, step: CreatorStep)
    requires !CreatorMove(w, pc, step).Stuck?
    ensures AsksNothing(w, CreatorMove(w, pc, step).w)
  {
  }

  lemma SubmitterAsksNothing(w: World, t: Tid, pc: PC, step: SubmitterStep)
    requires !SubmitterMove(w, t, pc, step).Stuck?
    ensures AsksNothing(w, SubmitterMove(w, t, pc, step).w)
  {
  }

  lemma WorkerAsksNothing(w: World, t: Tid, pc: PC, step: WorkerStep)
    requires !WorkerMove(w, t, pc, step).Stuck?
    ensures AsksNothing(w, WorkerMove(w, t, pc, step).w)
  {
  }

  lemma CloserAsksNothing(w: World, t: Tid, pc: PC, step: CloserStep)
    requires !CloserMove(w, t, pc, step).Stuck?
    ensures AsksNothing(w, CloserMove(w, t, pc, step).w)
  {
  }

  /** Only a call of shutdown_executor or delete_executor changes what is asked for. */
  lemma OtherStepsAskNothing(s: State, step: Step)
    requires !CallsShutdown(s, step) && !CallsDelete(s, step)
    ensures AsksNothing(s.w, Next(s, step).w)
  {
    var pc := PcOf(s.pcs, step.t);
    if !MoveOf(s.w, pc, step).Stuck? {
      match step
      case Calls(_, _) =>
      case Creates(_, creator) => CreatorAsksNothing(s.w, pc, creator);
      case Submits(t, submitter) => SubmitterAsksNothing(s.w, t, pc, submitter);
      case Works(t, worker) => WorkerAsksNothing(s.w, t, pc, worker);
      case Closes(t, closer) => CloserAsksNothing(s.w, t, pc, closer);
    }
  }

  lemma ShutdownAsks(s: State, step: Step)
    requires CallsShutdown(s, step) && (Immediate in s.w.h ==> s.w.m.shutdownRequested)
    ensures var w, w' := s.w, Next(s, step).w;
            && w'.m.shutdownRequested
            && (Immediate in w'.h <==> if w.m.shutdownRequested then Immediate in w.h else step.call.immediately)
            && (DeleteCalled in w'.h <==> DeleteCalled in w.h)
            && (DeleteOrdered in w'.h <==> DeleteOrdered in w.h)
  {
  }

  lemma DeleteAsks(s: State, step: Step)
    requires CallsDelete(s, step)
    ensures var w, w' := s.w, Next(s, step).w;
            && w'.m.shutdownRequested && (Immediate in w'.h <==> Immediate in w.h)
            && DeleteCalled in w'.h
            && (DeleteOrdered in w'.h <==>
                  DeleteOrdered in w.h || (DeleteCalled !in w.h && ShutdownReturned in w.h))
  {
  }

  /** What a state and the rest of the run say about the first calls. */
  ghost predicate Remembers(s: State, schedule: seq<Step>, w': World) {
    && (if s.w.m.shutdownRequested then w'.m.shutdownRequested && (Immediate in w'.h <==> Immediate in s.w.h)
        else
          && (w'.m.shutdownRequested <==> FirstShutdown(s, schedule).Some?)
          && (Immediate in w'.h <==> FirstShutdown(s, schedule) == Some(true)))
    && (if DeleteCalled in s.w.h then DeleteCalled in w'.h && (DeleteOrdered in w'.h <==> DeleteOrdered in s.w.h)
        else
          && (DeleteCalled in w'.h <==> FirstDelete(s, schedule).Some?)
          && (DeleteOrdered in w'.h <==> FirstDelete(s, schedule) == Some(true)))
  }

  lemma {:induction false} RunsRemember(s: State, schedule: seq<Step>)
    requires Immediate in s.w.h ==> s.w.m.shutdownRequested
    requires DeleteOrdered in s.w.h ==> DeleteCalled in s.w.h
    ensures Remembers(s, schedule, Runs.After(Next, s, schedule).w)
    decreases |schedule|
  {
    if schedule != [] {
      var step := schedule[0];
      if CallsShutdown(s, step) {
        ShutdownAsks(s, step);
      } else if CallsDelete(s, step) {
        DeleteAsks(s, step);
      } else {
        OtherStepsAskNothing(s, step);
      }
      RunsRemember(Next(s, step), schedule[1..]);
    }
  }

  /** In every run the first shutdown closes the queue and decides whether jobs are discarded, once and for all. */
  lemma FirstShutdownDecides(cfg: Config, schedule: seq<Step>)
    requires ConfigOk(cfg)
    ensures var w, first := Reach(cfg, schedule).w, FirstShutdown(Init(cfg), schedule);
            && w.m.shutdownRequested == w.m.jobQ.Closed() == first.Some?
            && (Immediate in w.h <==> first == Some(true))
  {
    InvHolds(cfg, schedule);
    RunsRemember(Init(cfg), schedule);
  }

  /** In every run a delete is in order exactly when the first shutdown had returned when it was first called. */
  lemma FirstDeleteDecides(cfg: Config, schedule: seq<Step>)
    ensures var h, first := Reach(cfg, schedule).w.h, FirstDelete(Init(cfg), schedule);
            (DeleteCalled in h <==> first.Some?) && (DeleteOrdered in h <==> first == Some(true))
  {
    RunsRemember(Init(cfg), schedule);
  }

  /**
   Called first or woken, the shutdown sleeps exactly while there are submitters, and then
   discards exactly if it was asked to.
   */
  lemma ShutdownGoesOnExactlyWhen(s: State, t: Tid, immediately: bool)
    requires var pc := PcOf(s.pcs, t);
             || (pc == ShutdownBlocked && (immediately <==> Immediate in s.w.h))
             || (pc == Outside && MayCall(s.w) && !s.w.m.shutdownRequested && Immediate !in s.w.h)
    ensures var step := if PcOf(s.pcs, t) == Outside then Calls(t, Shutdown(immediately)) else Closes(t, ShutdownWakes);
            var w', pc' := Next(s, step).w, PcAfter(s, step);
            && pc' == (if s.w.m.submitters > 0 then ShutdownBlocked
                       else if immediately then DiscardLook(ByShutdown) else Outside)
            && (s.w.m.submitters > 0 ==> t in w'.m.submittersUntilZero.asleep)
            && (ShutdownReturned in w'.h <==> (ShutdownReturned in s.w.h || pc' == Outside))
            && w'.m.jobQ.Items() == s.w.m.jobQ.Items() && w'.jobs == s.w.jobs
  {
  }

  /** A later shutdown_executor does nothing. */
  lemma LaterShutdownsDoNothing(s: State, t: Tid, immediately: bool)
    requires PcOf(s.pcs, t) == Outside && s.w.m.shutdownRequested
    ensures Next(s, Calls(t, Shutdown(immediately))).w == s.w && PcAfter(s, Calls(t, Shutdown(immediately))) == Outside
  {
  }

  /** Before a shutdown a wait and a delete do nothing; after one they go on to wait for the workers. */
  lemma WaitsBeginExactlyAfterShutdown(s: State, t: Tid, deletes: bool)
    requires PcOf(s.pcs, t) == Outside && Published in s.w.h && DeleteReturned !in s.w.h
    requires deletes ==> DeleteCalled !in s.w.h
    ensures var w', pc' := Next(s, Calls(t, Wait(deletes))).w, PcAfter(s, Calls(t, Wait(deletes)));
            && (pc' == WaitLook(deletes) <==> s.w.m.shutdownRequested)
            && (!s.w.m.shutdownRequested ==> w' == s.w && pc' == Outside)
            && (DeleteCalled in w'.h <==> (DeleteCalled in s.w.h || (deletes && s.w.m.shutdownRequested)))
            && w' == s.w.(h := w'.h)
  {
  }

  /**
   At first and when woken, a wait sleeps exactly while there are workers, and then returns or,
   for a delete, discards.
   */
  lemma WaitGoesOnExactlyWhen(s: State, t: Tid)
    requires PcOf(s.pcs, t).WaitLook? || PcOf(s.pcs, t).WaitBlocked?
    ensures var deletes := PcOf(s.pcs, t).deletes;
            var step := Closes(t, if PcOf(s.pcs, t).WaitLook? then WaitLooks else WaitWakes);
            var w', pc' := Next(s, step).w, PcAfter(s, step);
            && pc' == (if s.w.m.activeWorkers > 0 then WaitBlocked(deletes)
                       else if deletes then DiscardLook(ByDelete) else Outside)
            && (s.w.m.activeWorkers > 0 ==> t in w'.m.workersUntilZero.asleep && w'.h == s.w.h)
            && (s.w.m.activeWorkers == 0 ==> w'.h == s.w.h + {SawNoWorkers})
            && w'.m.jobQ == s.w.m.jobQ && w'.jobs == s.w.jobs
  {
  }

  /** A discarder that looks returns exactly when it sees an empty queue. */
  lemma DiscarderReturnsExactlyWhen(s: State, t: Tid)
    requires PcOf(s.pcs, t).DiscardLook?
    ensures var who, looked := PcOf(s.pcs, t).who, Next(s, Closes(t, DiscardLooks));
            if s.w.m.jobQ.Items() == [] then
              && PcOf(looked.pcs, t) == Outside
              && looked.w == s.w.(h := s.w.h + {if who == ByShutdown then ShutdownReturned else DeleteReturned})
            else PcOf(looked.pcs, t) == DiscardPop(who) && looked.w == s.w
  {
  }

  lemma DiscardMoveIsDecided(w: World, t: Tid, pc: PC, choice: Choice)
    requires QueueOk(w.m) && QueueSees(w.m, t, pc) && PopChoiceOk(w.m.jobQ, choice) && pc.DiscardPop?
    ensures var items, move := w.m.jobQ.Items(), MoveOf(w, pc, Closes(t, DiscardPops(choice)));
            && move.Goes? && move.w.h == w.h && move.w.jobs == w.jobs
            && move.pc == (if items == [] then DiscardLook(pc.who) else DiscardTook(pc.who, items[0]))
            && move.w.m.jobQ.Items() == (if items == [] then [] else items[1..])
  {
    PopHasEffect(w.m.jobQ, t, true, choice);
  }

  /**
   Between the look and the pop others may do anything: the discarder takes the job that is then
   in front, and goes back to look when somebody else has taken the last one. It never sleeps.
   */
  lemma DiscarderTakesTheFront(s: State, t: Tid, others: seq<Step>, choice: Choice)
    requires Inv(s) && PcOf(s.pcs, t).DiscardPop? && forall k | 0 <= k < |others| :: others[k].t != t
    requires PopChoiceOk(Runs.After(Next, s, others).w.m.jobQ, choice)
    ensures var who, later := PcOf(s.pcs, t).who, Runs.After(Next, s, others);
            var items, last := later.w.m.jobQ.Items(), Next(later, Closes(t, DiscardPops(choice)));
            && last.w.h == later.w.h && last.w.jobs == later.w.jobs
            && PcOf(last.pcs, t) == (if items == [] then DiscardLook(who) else DiscardTook(who, items[0]))
            && last.w.m.jobQ.Items() == (if items == [] then [] else items[1..])
  {
    ThreadRests(s, t, others);
    RunsKeepInv(s, others);
    var later := Runs.After(Next, s, others);
    CountsReachMover(later, t);
    DiscardMoveIsDecided(later.w, t, PcOf(later.pcs, t), choice);
  }

  lemma RunsKeepInv(s: State, schedule: seq<Step>)
    requires Inv(s)
    ensures Inv(Runs.After(Next, s, schedule))
  {
    forall u, step | Inv(u) ensures Inv(Next(u, step)) { StepKeepsInv(u, step); }
    Runs.InvariantRule(Next, Inv, s, schedule);
  }
}
