/** What the executor promises its users, over every run. */
module ExecutorTheorems {
  import opened Base
  import opened CondVars
  import opened QueueTypes
  import opened JobQueue
  import opened Executor
  import opened ExecutorCounts
  import opened ExecutorWaits
  import opened ExecutorJobs
  import opened ExecutorPhases
  import opened Threads
  import ExecutorMonitor
  import Job
  import Runs

  ghost predicate Inv(s: State) {
    Counted(s) && QueueLinked(s) && CountersLinked(s) && JobsOk(s) && PhasesOk(s)
  }

  lemma StepKeepsInv(s: State, step: Step)
    requires Inv(s)
    ensures Inv(Next(s, step))
  {
    StepKeepsCounted(s, step);
    StepKeepsQueueLinked(s, step);
    StepKeepsCountersLinked(s, step);
    StepKeepsJobs(s, step);
    StepKeepsPhases(s, step);
  }

  lemma InvHolds(cfg: Config, schedule: seq<Step>)
    requires ConfigOk(cfg)
    ensures Inv(Reach(cfg, schedule))
  {
    InitCounted(cfg);
    InitLinked(cfg);
    InitJobs(cfg);
    InitPhases(cfg);
    forall s, step | Inv(s) ensures Inv(Next(s, step)) { StepKeepsInv(s, step); }
    Runs.InvariantRule(Next, Inv, Init(cfg), schedule);
  }

  // ---- exactly once ----

  function WorkerHolding(j: JobId): PC -> bool {
    (pc: PC) => (pc.WorkerTook? || pc.WorkerRunning?) && pc.j == j
  }

  function DiscarderHolding(j: JobId): PC -> bool {
    (pc: PC) => pc.DiscardTook? && pc.j == j
  }

  lemma AcceptedJobsHaveLeftSubmitters(s: State, j: JobId)
    requires JobsOk(s) && j in s.w.accepted
    ensures Carriers(s, j) == |Where(s.pcs, WorkerHolding(j))| + |Where(s.pcs, DiscarderHolding(j))|
  {
    forall t | t in s.pcs && Carries(s.pcs[t], j) ensures !Submitting(s.pcs[t]) {
      assert StageOk(s.w, s.pcs[t], j);
    }
    assert Where(s.pcs, Carrier(j)) == Where(s.pcs, WorkerHolding(j)) + Where(s.pcs, DiscarderHolding(j));
  }

  /**
   In every run, an accepted job is in exactly one place: once in the queue, with one worker,
   with one discarder, or settled, that is executed once or cancelled once with its promise
   set once.
   */
  lemma EveryAcceptedJobIsInOnePlace(cfg: Config, schedule: seq<Step>, j: JobId)
    requires ConfigOk(cfg) && j in Reach(cfg, schedule).w.accepted
    ensures var s := Reach(cfg, schedule);
            && j < |s.w.jobs|
            && Queued(s.w, j) + |Where(s.pcs, WorkerHolding(j))| + |Where(s.pcs, DiscarderHolding(j))|
                 + Tally(Job.Settled(s.w.jobs[j])) == 1
  {
    InvHolds(cfg, schedule);
    var s := Reach(cfg, schedule);
    AcceptedJobsHaveLeftSubmitters(s, j);
    assert JobOk(s.w, j, Carriers(s, j));
    if Carriers(s, j) == 1 {
      var t :| t in Where(s.pcs, Carrier(j));
      assert StageOk(s.w, s.pcs[t], j);
    }
  }

  /** In every run, a job that was not accepted never ran, was not cancelled, and its promise is untouched. */
  lemma RefusedJobsAreUntouched(cfg: Config, schedule: seq<Step>, j: JobId)
    requires ConfigOk(cfg)
    requires var s := Reach(cfg, schedule); j < |s.w.jobs| && j !in s.w.accepted
    ensures Job.Untouched(Reach(cfg, schedule).w.jobs[j])
  {
    InvHolds(cfg, schedule);
    assert JobOk(Reach(cfg, schedule).w, j, Carriers(Reach(cfg, schedule), j));
  }

  lemma TwiceIsTwo(items: seq<JobId>, a: nat, b: nat)
    requires a < b < |items|
    ensures items[a] == items[b] ==> multiset(items)[items[a]] >= 2
  {
    assert items == items[..b] + items[b..];
    assert items[a] == items[..b][a] && items[b] == items[b..][0];
  }

  /**
   In every run after a shutdown was requested the queue is as discard_leftover_jobs and a
   last worker expect it: closed, and holding jobs that exist and are untouched, each once.
   */
  lemma LeftoversAreInOrder(cfg: Config, schedule: seq<Step>)
    requires ConfigOk(cfg) && Reach(cfg, schedule).w.m.shutdownRequested
    ensures var w := Reach(cfg, schedule).w;
            && w.m.jobQ.Sound() && w.m.jobQ.Closed()
            && ExecutorMonitor.Distinct(w.m.jobQ.Items()) && ExecutorMonitor.AllCreated(w.m.jobQ.Items(), w.jobs)
            && (forall a | 0 <= a < |w.m.jobQ.Items()| :: Job.Untouched(w.jobs[w.m.jobQ.Items()[a]]))
  {
    InvHolds(cfg, schedule);
    var s := Reach(cfg, schedule);
    var items := s.w.m.jobQ.Items();
    forall a | 0 <= a < |items| ensures items[a] < |s.w.jobs| && Job.Untouched(s.w.jobs[items[a]]) {
      assert items[a] in multiset(items);
      assert JobOk(s.w, items[a], Carriers(s, items[a]));
    }
    forall a, b | 0 <= a < b < |items| ensures items[a] != items[b] {
      TwiceIsTwo(items, a, b);
      assert JobOk(s.w, items[a], Carriers(s, items[a]));
    }
  }

  /** Every accepted job was executed once or cancelled once. */
  ghost predicate AllSettled(w: World) {
    forall j | j in w.accepted :: j < |w.jobs| && Job.Settled(w.jobs[j])
  }

  ghost predicate AllExecuted(w: World) {
    forall j | j in w.accepted :: j < |w.jobs| && Job.ExecutedOnce(w.jobs[j])
  }

  lemma NobodyHoldsSoSettled(s: State)
    requires Inv(s) && s.w.m.jobQ.Items() == []
    requires forall t | t in s.pcs :: !IsWorker(s.pcs[t]) && !s.pcs[t].DiscardTook?
    ensures AllSettled(s.w)
  {
    forall j | j in s.w.accepted ensures j < |s.w.jobs| && Job.Settled(s.w.jobs[j]) {
      AcceptedJobsHaveLeftSubmitters(s, j);
      assert Where(s.pcs, WorkerHolding(j)) == {} && Where(s.pcs, DiscarderHolding(j)) == {};
      assert JobOk(s.w, j, Carriers(s, j));
    }
  }

  /** Nobody discards behind a delete that has returned, once the first shutdown has returned or need not discard. */
  lemma NoDiscarderAfterDelete(s: State)
    requires Inv(s) && DeleteReturned in s.w.h && (ShutdownReturned in s.w.h || Immediate !in s.w.h)
    ensures forall t | t in s.pcs :: !s.pcs[t].DiscardTook?
  {
    NobodyThere(s.pcs, IsDeleter);
    if ShutdownReturned in s.w.h { NobodyThere(s.pcs, IsFirstShutdown); }
    forall t | t in s.pcs ensures !s.pcs[t].DiscardTook? { assert PlaceOk(s.w, s.pcs[t]); }
  }

  /**
   Once delete_executor, called after the first shutdown had returned, has returned 1, every
   accepted job was executed once or cancelled once, and its promise, unless it had been
   fulfilled before, was set once: to the output of its function, or to NULL. For a fixed
   executor that is not shut down immediately the order does not matter.
   */
  lemma DeletedExecutorHasSettledEveryJob(cfg: Config, schedule: seq<Step>)
    requires ConfigOk(cfg)
    requires var w := Reach(cfg, schedule).w;
             DeleteReturned in w.h && (DeleteOrdered in w.h || (Fixed(w) && Immediate !in w.h))
    ensures AllSettled(Reach(cfg, schedule).w)
  {
    InvHolds(cfg, schedule);
    var s := Reach(cfg, schedule);
    NoDiscarderAfterDelete(s);
    NobodyThere(s.pcs, CountsAsWorker);
    NobodyHoldsSoSettled(s);
  }

  /** An executor whose workers would not wait at all never has any. */
  ghost predicate Unstaffed(s: State) {
    && s.w.cfg.emptyTimeout == NON_BLOCKING
    && WorkerStarted !in s.w.h
    && |Where(s.pcs, IsWorker)| == 0
  }

  lemma MoveMakesNoWorker(w: World, pc: PC, step: Step)
    requires !MoveOf(w, pc, step).Stuck? && !IsWorker(pc) && w.cfg.emptyTimeout == NON_BLOCKING
    ensures var move := MoveOf(w, pc, step);
            && !move.Spawns? && !IsWorker(move.pc) && move.w.cfg == w.cfg
            && (WorkerStarted in move.w.h ==> WorkerStarted in w.h)
  {
    match step
    case Calls(_, _) =>
    case Creates(_, _) =>
    case Submits(_, _) =>
    case Works(_, _) =>
    case Closes(_, _) =>
  }

  lemma StepKeepsUnstaffed(s: State, step: Step)
    requires Unstaffed(s)
    ensures Unstaffed(Next(s, step))
  {
    var pc := PcOf(s.pcs, step.t);
    if IsWorker(pc) { SomebodyThere(s.pcs, step.t, IsWorker); }
    if !MoveOf(s.w, pc, step).Stuck? { MoveMakesNoWorker(s.w, pc, step); }
    StepCounts(s, step, IsWorker);
  }

  /** start_worker refuses a worker that would not wait at all, so such an executor never has one. */
  lemma NonBlockingExecutorHasNoWorkers(cfg: Config, schedule: seq<Step>)
    requires cfg.emptyTimeout == NON_BLOCKING
    ensures var s := Reach(cfg, schedule);
            WorkerStarted !in s.w.h && forall t | t in s.pcs :: !IsWorker(s.pcs[t])
  {
    assert Where(Init(cfg).pcs, IsWorker) == {};
    forall s, step | Unstaffed(s) ensures Unstaffed(Next(s, step)) { StepKeepsUnstaffed(s, step); }
    Runs.InvariantRule(Next, Unstaffed, Init(cfg), schedule);
    NobodyThere(Reach(cfg, schedule).pcs, IsWorker);
  }

  /** Without workers, too, the order of a delete does not matter unless the shutdown is immediate. */
  lemma DeletedExecutorWithoutWorkersHasSettledEveryJob(cfg: Config, schedule: seq<Step>)
    requires ConfigOk(cfg) && cfg.emptyTimeout == NON_BLOCKING
    requires var w := Reach(cfg, schedule).w; DeleteReturned in w.h && Immediate !in w.h
    ensures AllSettled(Reach(cfg, schedule).w)
  {
    InvHolds(cfg, schedule);
    NonBlockingExecutorHasNoWorkers(cfg, schedule);
    NoDiscarderAfterDelete(Reach(cfg, schedule));
    NobodyHoldsSoSettled(Reach(cfg, schedule));
  }

  // ---- the drain ----

  /**
   Patient workers leave nothing behind, in an executor of either kind: in every run, if there
   was a worker and none is left, then a shutdown was requested and the queue is empty.
   */
  lemma PatientWorkersLeaveNothingQueued(cfg: Config, schedule: seq<Step>)
    requires ConfigOk(cfg) && cfg.emptyTimeout == BLOCKING
    requires var w := Reach(cfg, schedule).w; WorkerStarted in w.h && w.m.activeWorkers == 0
    ensures var w := Reach(cfg, schedule).w; w.m.shutdownRequested && w.m.jobQ.Items() == []
  {
    InvHolds(cfg, schedule);
    InitCounted(cfg);
    ConfigIsFixed(Init(cfg), schedule);
    CountsReachMover(Reach(cfg, schedule), CONSTRUCTOR);
  }

  /** No worker is left: now, or because a wait or an orderly delete has seen so. */
  predicate WorkersAreGone(w: World) {
    || w.m.activeWorkers == 0
    || (Fixed(w) && SawNoWorkers in w.h)
    || (DeleteOrdered in w.h && DeleteReturned in w.h)
  }

  /**
   The graceful drain: with patient workers of which there was one, no immediate shutdown and,
   in a cached executor, no delete out of order, once the workers are gone the queue is empty
   and every accepted job was executed, so delete_executor has nothing to discard.
   */
  lemma GracefulShutdownExecutesEveryJob(cfg: Config, schedule: seq<Step>)
    requires ConfigOk(cfg) && Graceful(Reach(cfg, schedule).w) && WorkersAreGone(Reach(cfg, schedule).w)
    ensures Reach(cfg, schedule).w.m.jobQ.Items() == [] && AllExecuted(Reach(cfg, schedule).w)
  {
    InvHolds(cfg, schedule);
    var s := Reach(cfg, schedule);
    CountsReachMover(s, CONSTRUCTOR);
    NobodyThere(s.pcs, CountsAsWorker);
    forall t | t in s.pcs ensures !s.pcs[t].DiscardTook? { assert DrainPlaceOk(s.w, s.pcs[t]); }
    NobodyHoldsSoSettled(s);
  }

  /** An immediate shutdown that has returned leaves the queue empty, in every run. */
  lemma ImmediateShutdownEmptiesTheQueue(cfg: Config, schedule: seq<Step>)
    requires ConfigOk(cfg)
    requires var h := Reach(cfg, schedule).w.h; Immediate in h && ShutdownReturned in h
    ensures Reach(cfg, schedule).w.m.jobQ.Items() == []
  {
    InvHolds(cfg, schedule);
  }

  // ---- the shutdown barrier ----

  /** submitters_count and active_worker_count count threads, and the limit is kept, in every run. */
  lemma CountersAreExact(cfg: Config, schedule: seq<Step>)
    requires ConfigOk(cfg)
    ensures var s := Reach(cfg, schedule);
            && s.w.m.submitters == |Where(s.pcs, InSubmitWindow)|
            && s.w.m.activeWorkers == |Where(s.pcs, CountsAsWorker)| <= cfg.workerLimit
  {
    InvHolds(cfg, schedule);
    InitCounted(cfg);
    ConfigIsFixed(Init(cfg), schedule);
  }

  lemma {:induction false} ConfigIsFixed(s: State, schedule: seq<Step>)
    requires Counted(s)
    ensures Runs.After(Next, s, schedule).w.cfg == s.w.cfg
    decreases |schedule|
  {
    if schedule != [] {
      var pc := PcOf(s.pcs, schedule[0].t);
      StepKeepsCounted(s, schedule[0]);
      if CountsAsWorker(pc) { SomebodyThere(s.pcs, schedule[0].t, CountsAsWorker); }
      if !MoveOf(s.w, pc, schedule[0]).Stuck? { MoveRespectsLimit(s.w, pc, schedule[0]); }
      ConfigIsFixed(Next(s, schedule[0]), schedule[1..]);
    }
  }

  lemma SubmitterKeepsAccepted(w: World, t: Tid, pc: PC, submitter: SubmitterStep)
    requires QueueOk(w.m) && QueueSees(w.m, t, pc) && w.m.shutdownRequested
    requires !SubmitterMove(w, t, pc, submitter).Stuck?
    ensures SubmitterMove(w, t, pc, submitter).w.accepted == w.accepted
  {
    match submitter
    case PushCalled(choice) => PushHasEffect(w.m.jobQ, t, pc.j, false, choice);
    case PushWakes(timedOut, choice) => PushWakeHasEffect(w.m.jobQ, t, pc.j, timedOut, choice);
    case _ =>
  }

  lemma MoveKeepsAccepted(w: World, pc: PC, step: Step)
    requires QueueOk(w.m) && QueueSees(w.m, step.t, pc) && !MoveOf(w, pc, step).Stuck? && w.m.shutdownRequested
    ensures MoveOf(w, pc, step).w.accepted == w.accepted
  {
    match step
    case Calls(_, _) =>
    case Creates(_, _) =>
    case Submits(t, submitter) => SubmitterKeepsAccepted(w, t, pc, submitter);
    case Works(_, _) =>
    case Closes(_, _) =>
  }

  /**
   After the first shutdown has returned: whatever happens next, no submitter is left, no
   push succeeds, and the number of workers only goes down, so a zero is final.
   */
  lemma {:induction false} ShutdownIsABarrier(s: State, schedule: seq<Step>)
    requires Inv(s) && ShutdownReturned in s.w.h
    ensures var s' := Runs.After(Next, s, schedule);
            && s.w.m.submitters == s'.w.m.submitters == 0
            && s'.w.accepted == s.w.accepted
            && s'.w.m.activeWorkers <= s.w.m.activeWorkers
    decreases |schedule|
  {
    if schedule != [] {
      var step, pc := schedule[0], PcOf(s.pcs, schedule[0].t);
      StepKeepsInv(s, step);
      StepKeepsPhases(s, step);
      if Next(s, step) != s {
        CountsReachMover(s, step.t);
        MoveKeepsAccepted(s.w, pc, step);
      }
      ShutdownIsABarrier(Next(s, step), schedule[1..]);
    }
  }

  /**
   Nobody sleeps in vain, in every run: a shutdown sleeps only while a submitter is inside, a
   waiter only while there is a worker, and after the close no pusher and no worker sleeps.
   */
  lemma SleepersHaveReason(cfg: Config, schedule: seq<Step>)
    requires ConfigOk(cfg)
    ensures var s := Reach(cfg, schedule);
            && (s.w.m.submittersUntilZero.asleep != {} ==> Where(s.pcs, InSubmitWindow) != {})
            && (s.w.m.workersUntilZero.asleep != {} ==> Where(s.pcs, CountsAsWorker) != {})
            && (s.w.m.shutdownRequested ==> s.w.m.jobQ.Full().asleep == {} && s.w.m.jobQ.Empty().asleep == {})
  {
    InvHolds(cfg, schedule);
  }

  /** The worker is on its way to the queue, or busy with a job after which it comes back. */
  ghost predicate Comes(s: State, t: Tid) {
    && t in s.pcs && IsWorker(s.pcs[t]) && !s.pcs[t].WorkerExit?
    && t !in s.w.m.jobQ.Empty().asleep
  }

  lemma PatientWorkersStay(s: State)
    requires Inv(s) && Patient(s.w) && WorkerStarted in s.w.h && s.w.m.jobQ.Items() != []
    ensures |Where(s.pcs, IsWorker)| >= 1
    ensures forall t | t in s.pcs :: !s.pcs[t].WorkerExit?
  {
    forall t | t in s.pcs ensures !s.pcs[t].WorkerExit? { assert PlaceOk(s.w, s.pcs[t]); }
  }

  /**
   The queue's wake-ups carried to the executor, in every run. While a worker sleeps, there are
   at least as many woken workers as queued jobs. And if the workers are patient and there was
   one, then a queued job always has a worker that comes for it.
   */
  lemma QueuedJobsHaveWorkersComing(cfg: Config, schedule: seq<Step>)
    requires ConfigOk(cfg)
    ensures var s := Reach(cfg, schedule);
            && (s.w.m.jobQ.Empty().asleep != {} ==> |s.w.m.jobQ.Items()| <= |s.w.m.jobQ.Empty().Woken()|)
            && (cfg.emptyTimeout == BLOCKING && WorkerStarted in s.w.h && s.w.m.jobQ.Items() != [] ==>
                  exists t :: Comes(s, t))
  {
    InvHolds(cfg, schedule);
    InitCounted(cfg);
    ConfigIsFixed(Init(cfg), schedule);
    var s := Reach(cfg, schedule);
    var empty := s.w.m.jobQ.Empty();
    WokenCounts(empty);
    if cfg.emptyTimeout == BLOCKING && WorkerStarted in s.w.h && s.w.m.jobQ.Items() != [] {
      PatientWorkersStay(s);
      if empty.asleep == {} {
        var t :| t in Where(s.pcs, IsWorker);
        assert Comes(s, t);
      } else {
        var t :| t in empty.Woken();
        assert t in Where(s.pcs, BlockedOnEmpty);
        assert Comes(s, t);
      }
    }
  }
}
