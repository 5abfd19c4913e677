/**
 Where each job is. A job that was accepted is in the queue once, or in the hands of one
 thread, or settled; a job that was not accepted is untouched.
 */
module ExecutorJobs {
  import opened Base
  import opened CondVars
  import opened QueueTypes
  import opened JobQueue
  import opened Executor
  import opened ExecutorCounts
  import opened ExecutorWaits
  import opened Threads
  import Job

  predicate Submitting(pc: PC) {
    pc.SubmitPush? || pc.SubmitBlocked?
  }

  /** The thread alone holds job j. */
  predicate Carries(pc: PC, j: JobId) {
    (Submitting(pc) || pc.WorkerTook? || pc.WorkerRunning? || pc.DiscardTook?) && pc.j == j
  }

  function Carrier(j: JobId): PC -> bool {
    pc => Carries(pc, j)
  }

  ghost function Queued(w: World, j: JobId): nat {
    multiset(w.m.jobQ.Items())[j]
  }

  /** The job is as far as the thread that carries it. */
  ghost predicate StageOk(w: World, pc: PC, j: JobId) {
    Carries(pc, j) ==>
      && j < |w.jobs|
      && (Submitting(pc) <==> j !in w.accepted)
      && (if pc.WorkerRunning? then Job.Started(w.jobs[j]) else Job.Untouched(w.jobs[j]))
  }

  /** Job j, when `carriers` threads carry it. */
  ghost predicate JobOk(w: World, j: JobId, carriers: nat) {
    && carriers + Queued(w, j) <= 1
    && (j >= |w.jobs| ==> carriers + Queued(w, j) == 0 && j !in w.accepted)
    && (j < |w.jobs| && j !in w.accepted ==> Job.Untouched(w.jobs[j]) && Queued(w, j) == 0)
    && (j < |w.jobs| && Queued(w, j) == 1 ==> Job.Untouched(w.jobs[j]))
    && (j in w.accepted && carriers + Queued(w, j) == 0 ==> Job.Settled(w.jobs[j]))
  }

  /** What a thread may do to job j: the job stays in order, and only its carrier touches it. */
  ghost predicate Handles(w: World, pc: PC, j: JobId, carriers: nat, w': World, pc': PC)
    requires carriers >= Tally(Carries(pc, j))
  {
    && JobOk(w', j, carriers - Tally(Carries(pc, j)) + Tally(Carries(pc', j)))
    && StageOk(w', pc', j)
    && (!Carries(pc, j) && j < |w.jobs| ==>
          j < |w'.jobs| && w'.jobs[j] == w.jobs[j] && (j in w'.accepted <==> j in w.accepted))
  }

  ghost predicate Before(w: World, pc: PC, j: JobId, carriers: nat) {
    && JobOk(w, j, carriers)
    && StageOk(w, pc, j)
    && carriers >= Tally(Carries(pc, j))
  }

  lemma PushEndsHandles(w: World, t: Tid, pc: PC, full: CondVar, waitError: bool, r: (JobQueue<JobId>, PushOutcome),
                        j: JobId, carriers: nat)
    requires Submitting(pc) && Before(w, pc, j, carriers)
    requires PushEffect(w.m.jobQ, full, t, pc.j, waitError, r.0, r.1)
    ensures Handles(w, pc, j, carriers, PushEnds(w, pc.j, r).w, PushEnds(w, pc.j, r).pc)
  {
  }

  lemma PopTakes(items: seq<JobId>, j: JobId)
    requires items != []
    ensures multiset(items)[j] == multiset(items[1..])[j] + Tally(items[0] == j)
  {
    assert items == [items[0]] + items[1..];
  }

  lemma WorkerPopEndsHandles(w: World, t: Tid, pc: PC, empty: CondVar, waitError: bool,
                             r: (JobQueue<JobId>, PopOutcome<JobId>), j: JobId, carriers: nat)
    requires (pc.WorkerPop? || pc.WorkerBlocked?) && Before(w, pc, j, carriers)
    requires PopEffect(w.m.jobQ, empty, t, waitError, r.0, r.1)
    ensures Handles(w, pc, j, carriers, WorkerPopEnds(w, r).w, WorkerPopEnds(w, r).pc)
  {
    if |w.m.jobQ.Items()| != 0 { PopTakes(w.m.jobQ.Items(), j); }
  }

  lemma DiscardPopEndsHandles(w: World, t: Tid, pc: PC, r: (JobQueue<JobId>, PopOutcome<JobId>),
                              j: JobId, carriers: nat)
    requires pc.DiscardPop? && Before(w, pc, j, carriers)
    requires PopEffect(w.m.jobQ, w.m.jobQ.Empty(), t, true, r.0, r.1)
    ensures Handles(w, pc, j, carriers, DiscardPopEnds(w, pc.who, r).w, DiscardPopEnds(w, pc.who, r).pc)
  {
    if |w.m.jobQ.Items()| != 0 { PopTakes(w.m.jobQ.Items(), j); }
  }

  /** A move of a thread that carries no job, before or after, and leaves all jobs where they are. */
  lemma JobsRest(w: World, pc: PC, w': World, pc': PC, j: JobId, carriers: nat)
    requires Before(w, pc, j, carriers) && !Carries(pc, j) && !Carries(pc', j)
    requires w'.jobs == w.jobs && w'.accepted == w.accepted && w'.m.jobQ.Items() == w.m.jobQ.Items()
    ensures Handles(w, pc, j, carriers, w', pc')
  {
  }

  lemma JobCreatedHandles(w: World, pc: PC, job: Job.Job, j: JobId, carriers: nat)
    requires pc.SubmitNew? && Before(w, pc, j, carriers) && Job.Untouched(job)
    ensures Handles(w, pc, j, carriers, w.(jobs := w.jobs + [job]), SubmitPush(|w.jobs|))
  {
  }

  /** The carrier of a job brings it to the next stage. */
  lemma JobUpdateHandles(w: World, pc: PC, job: Job.Job, pc': PC, j: JobId, carriers: nat)
    requires pc.WorkerTook? || pc.WorkerRunning? || pc.DiscardTook?
    requires Before(w, pc, j, carriers) && Before(w, pc, pc.j, 1)
    requires (pc' == WorkerRunning(pc.j) && Job.Started(job)) ||
             ((pc'.WorkerPop? || pc'.DiscardLook?) && Job.Settled(job))
    ensures Handles(w, pc, j, carriers, UpdateJob(w, pc.j, job), pc')
  {
  }

  lemma SubmitterHandles(w: World, t: Tid, pc: PC, step: SubmitterStep, j: JobId, carriers: nat)
    requires QueueOk(w.m) && QueueSees(w.m, t, pc) && !SubmitterMove(w, t, pc, step).Stuck?
    requires Before(w, pc, j, carriers)
    ensures var move := SubmitterMove(w, t, pc, step); Handles(w, pc, j, carriers, move.w, move.pc)
  {
    var move := SubmitterMove(w, t, pc, step);
    match step
    case JobCreated(promise, hasCancellationCallback) =>
      JobCreatedHandles(w, pc, Job.New(promise, hasCancellationCallback), j, carriers);
    case PushCalled(choice) =>
      PushHasEffect(w.m.jobQ, t, pc.j, false, choice);
      PushEndsHandles(w, t, pc, w.m.jobQ.Full(), false, Push(w.m.jobQ, t, pc.j, false, choice), j, carriers);
    case PushWakes(timedOut, choice) =>
      PushWakeHasEffect(w.m.jobQ, t, pc.j, timedOut, choice);
      PushEndsHandles(w, t, pc, w.m.jobQ.Full().Leave(t), timedOut,
                      PushWake(w.m.jobQ, t, pc.j, timedOut, choice), j, carriers);
    case _ => JobsRest(w, pc, move.w, move.pc, j, carriers);
  }

  lemma WorkerHandles(w: World, t: Tid, pc: PC, step: WorkerStep, j: JobId, carriers: nat)
    requires QueueOk(w.m) && QueueSees(w.m, t, pc) && !WorkerMove(w, t, pc, step).Stuck?
    requires Before(w, pc, j, carriers)
    requires pc.WorkerTook? || pc.WorkerRunning? ==> Before(w, pc, pc.j, 1)
    ensures var move := WorkerMove(w, t, pc, step); Handles(w, pc, j, carriers, move.w, move.pc)
  {
    var move := WorkerMove(w, t, pc, step);
    match step
    case Pops(choice) =>
      PopHasEffect(w.m.jobQ, t, false, choice);
      WorkerPopEndsHandles(w, t, pc, w.m.jobQ.Empty(), false, Pop(w.m.jobQ, t, false, choice), j, carriers);
    case PopWakes(timedOut, choice) =>
      PopWakeHasEffect(w.m.jobQ, t, timedOut, choice);
      WorkerPopEndsHandles(w, t, pc, w.m.jobQ.Empty().Leave(t), timedOut,
                           PopWake(w.m.jobQ, t, timedOut, choice), j, carriers);
    case Begins =>
      Job.LifeOfAJob(w.jobs[pc.j], NULL);
      JobUpdateHandles(w, pc, Job.BeginExecution(w.jobs[pc.j]), move.pc, j, carriers);
    case Ends(output) =>
      Job.EndSettles(w.jobs[pc.j], output);
      JobUpdateHandles(w, pc, Job.EndExecution(w.jobs[pc.j], output), move.pc, j, carriers);
    case Exits => JobsRest(w, pc, move.w, move.pc, j, carriers);
  }

  lemma CloserHandles(w: World, t: Tid, pc: PC, step: CloserStep, j: JobId, carriers: nat)
    requires QueueOk(w.m) && QueueSees(w.m, t, pc) && !CloserMove(w, t, pc, step).Stuck?
    requires Before(w, pc, j, carriers)
    requires pc.DiscardTook? ==> Before(w, pc, pc.j, 1)
    ensures var move := CloserMove(w, t, pc, step); Handles(w, pc, j, carriers, move.w, move.pc)
  {
    var move := CloserMove(w, t, pc, step);
    match step
    case DiscardPops(choice) =>
      PopHasEffect(w.m.jobQ, t, true, choice);
      DiscardPopEndsHandles(w, t, pc, Pop(w.m.jobQ, t, true, choice), j, carriers);
    case DiscardCancels =>
      Job.LifeOfAJob(w.jobs[pc.j], NULL);
      JobUpdateHandles(w, pc, Job.Cancel(w.jobs[pc.j]), move.pc, j, carriers);
    case _ => JobsRest(w, pc, move.w, move.pc, j, carriers);
  }

  lemma CallHandles(w: World, t: Tid, call: Call, j: JobId, carriers: nat)
    requires QueueOk(w.m) && !CallMove(w, t, call).Stuck? && Before(w, Outside, j, carriers)
    ensures var move := CallMove(w, t, call); Handles(w, Outside, j, carriers, move.w, move.pc)
  {
    var move := CallMove(w, t, call);
    CloseHasEffect(w.m.jobQ);
    JobsRest(w, Outside, move.w, move.pc, j, carriers);
  }

  lemma MoveHandles(w: World, pc: PC, step: Step, j: JobId, carriers: nat)
    requires QueueOk(w.m) && QueueSees(w.m, step.t, pc) && !MoveOf(w, pc, step).Stuck?
    requires Before(w, pc, j, carriers)
    requires pc.WorkerTook? || pc.WorkerRunning? || pc.DiscardTook? ==> Before(w, pc, pc.j, 1)
    ensures var move := MoveOf(w, pc, step); Handles(w, pc, j, carriers, move.w, move.pc)
  {
    match step
    case Calls(t, call) => CallHandles(w, t, call, j, carriers);
    case Creates(t, creator) => JobsRest(w, pc, MoveOf(w, pc, step).w, MoveOf(w, pc, step).pc, j, carriers);
    case Submits(t, submitter) => SubmitterHandles(w, t, pc, submitter, j, carriers);
    case Works(t, worker) => WorkerHandles(w, t, pc, worker, j, carriers);
    case Closes(t, closer) => CloserHandles(w, t, pc, closer, j, carriers);
  }

  ghost function Carriers(s: State, j: JobId): nat {
    |Where(s.pcs, Carrier(j))|
  }

  ghost predicate JobsOk(s: State) {
    && (forall j :: JobOk(s.w, j, Carriers(s, j)))
    && (forall t, j | t in s.pcs :: StageOk(s.w, s.pcs[t], j))
  }

  lemma CarrierCounted(s: State, t: Tid, j: JobId)
    ensures Carriers(s, j) >= Tally(Carries(PcOf(s.pcs, t), j))
  {
    if Carries(PcOf(s.pcs, t), j) { assert t in Where(s.pcs, Carrier(j)); }
  }

  lemma OneCarrier(s: State, t: Tid, u: Tid, j: JobId)
    requires JobOk(s.w, j, Carriers(s, j)) && t in s.pcs && u in s.pcs
    requires Carries(s.pcs[t], j) && Carries(s.pcs[u], j)
    ensures t == u
  {
    var both := {t, u};
    assert both <= Where(s.pcs, Carrier(j));
    assert |Where(s.pcs, Carrier(j))| >= |both| by {
      assert Where(s.pcs, Carrier(j)) == both + (Where(s.pcs, Carrier(j)) - both);
    }
  }

  lemma MoverBefore(s: State, t: Tid, j: JobId)
    requires JobsOk(s)
    ensures Before(s.w, PcOf(s.pcs, t), j, Carriers(s, j))
    ensures Carries(PcOf(s.pcs, t), j) ==> Carriers(s, j) == 1
  {
    CarrierCounted(s, t, j);
    assert JobOk(s.w, j, Carriers(s, j));
    if t in s.pcs { assert StageOk(s.w, s.pcs[t], j); }
  }

  lemma StepHandles(s: State, step: Step, j: JobId)
    requires QueueLinked(s) && JobsOk(s) && !MoveOf(s.w, PcOf(s.pcs, step.t), step).Stuck?
    ensures var move := MoveOf(s.w, PcOf(s.pcs, step.t), step);
            && Carriers(s, j) >= Tally(Carries(PcOf(s.pcs, step.t), j))
            && Handles(s.w, PcOf(s.pcs, step.t), j, Carriers(s, j), move.w, move.pc)
  {
    var pc := PcOf(s.pcs, step.t);
    MoverBefore(s, step.t, j);
    if pc.WorkerTook? || pc.WorkerRunning? || pc.DiscardTook? { MoverBefore(s, step.t, pc.j); }
    MoveHandles(s.w, pc, step, j, Carriers(s, j));
  }

  lemma StepKeepsJob(s: State, step: Step, j: JobId)
    requires QueueLinked(s) && JobsOk(s)
    ensures JobOk(Next(s, step).w, j, Carriers(Next(s, step), j))
  {
    if !MoveOf(s.w, PcOf(s.pcs, step.t), step).Stuck? { StepHandles(s, step, j); }
    StepCounts(s, step, Carrier(j));
    assert JobOk(s.w, j, Carriers(s, j));
  }

  lemma StepKeepsStage(s: State, step: Step, u: Tid, j: JobId)
    requires QueueLinked(s) && JobsOk(s) && u in Next(s, step).pcs
    ensures StageOk(Next(s, step).w, Next(s, step).pcs[u], j)
  {
    var s', pc := Next(s, step), PcOf(s.pcs, step.t);
    if s' != s {
      StepHandles(s, step, j);
      if u != step.t && u in s.pcs {
        assert StageOk(s.w, s.pcs[u], j) && s'.pcs[u] == s.pcs[u];
        if Carries(s.pcs[u], j) && Carries(pc, j) {
          assert JobOk(s.w, j, Carriers(s, j));
          OneCarrier(s, u, step.t, j);
        }
      }
    } else {
      assert StageOk(s.w, s.pcs[u], j);
    }
  }

  lemma StepKeepsJobs(s: State, step: Step)
    requires QueueLinked(s) && JobsOk(s)
    ensures JobsOk(Next(s, step))
  {
    var s' := Next(s, step);
    forall j ensures JobOk(s'.w, j, Carriers(s', j)) { StepKeepsJob(s, step, j); }
    forall t, j | t in s'.pcs ensures StageOk(s'.w, s'.pcs[t], j) { StepKeepsStage(s, step, t, j); }
  }

  lemma InitJobs(cfg: Config)
    ensures JobsOk(Init(cfg))
  {
    forall j ensures Carriers(Init(cfg), j) == 0 { assert Where(Init(cfg).pcs, Carrier(j)) == {}; }
  }
}
