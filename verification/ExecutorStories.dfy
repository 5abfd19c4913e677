/**
 What becomes of each job, told from the steps of a run and from where the threads are: with
 which promise it was submitted, who took it from the queue, and what its function returned.
 */
module ExecutorStories {
  import opened Base
  import opened CondVars
  import opened QueueTypes
  import opened JobQueue
  import opened Executor
  import opened ExecutorCounts
  import opened ExecutorWaits
  import opened ExecutorJobs
  import opened ExecutorPhases
  import opened ExecutorTheorems
  import opened Threads
  import Job
  import Promise
  import Runs

  datatype Taker = Nobody | AWorker | ADiscarder

  datatype Story = Story(
    promise: Option<Promise.Promise>,
    hasCancellationCallback: bool,
    taker: Taker,
    output: Option<Ptr>)

  /** What a step by a thread that goes from `pc` to `pc'` adds to the story of job j. */
  function Told(story: Story, j: JobId, step: Step, pc: PC, pc': PC): Story {
    if pc'.WorkerTook? && pc'.j == j then story.(taker := AWorker)
    else if pc'.DiscardTook? && pc'.j == j then story.(taker := ADiscarder)
    else if step.Works? && step.worker.Ends? && pc.WorkerRunning? && pc.j == j then
      story.(output := Some(step.worker.output))
    else story
  }

  /** The stories after a step; a job that is created begins its own. */
  function AllTold(stories: seq<Story>, s: State, step: Step): seq<Story> {
    var s' := Next(s, step);
    if s' == s then stories else
    var pc, pc' := PcOf(s.pcs, step.t), PcOf(s'.pcs, step.t);
    var told := seq(|stories|, j requires 0 <= j < |stories| => Told(stories[j], j, step, pc, pc'));
    match step
    case Submits(_, JobCreated(promise, hasCancellationCallback)) =>
      told + [Story(promise, hasCancellationCallback, Nobody, None)]
    case _ => told
  }

  function StoriesOf(s: State, stories: seq<Story>, schedule: seq<Step>): seq<Story>
    decreases |schedule|
  {
    if schedule == [] then stories
    else StoriesOf(Next(s, schedule[0]), AllTold(stories, s, schedule[0]), schedule[1..])
  }

  /** How a job ends that nobody holds any more: as the one who took it has to end it. */
  ghost predicate EndsAsTold(job: Job.Job, story: Story) {
    match story.taker
    case Nobody => false
    case AWorker => Job.ExecutedOnce(job) && story.output == Some(job.output)
    case ADiscarder => Job.CancelledOnce(job) && story.output == None
  }

  ghost predicate StoryOk(w: World, j: JobId, story: Story, carriers: nat) {
    && j < |w.jobs|
    && w.jobs[j].offered == story.promise
    && w.jobs[j].hasCancellationCallback == story.hasCancellationCallback
    && (j !in w.accepted || Queued(w, j) == 1 ==> story.taker == Nobody && story.output == None)
    && (story.taker == AWorker ==> WorkerStarted in w.h)
    && (j in w.accepted && carriers + Queued(w, j) == 0 ==> EndsAsTold(w.jobs[j], story))
  }

  /** The thread that holds the job is the one of its story. */
  ghost predicate HolderOk(pc: PC, j: JobId, story: Story) {
    && ((pc.WorkerTook? || pc.WorkerRunning?) && pc.j == j ==> story.taker == AWorker && story.output == None)
    && (pc.DiscardTook? && pc.j == j ==> story.taker == ADiscarder && story.output == None)
  }

  /** All that is known about job j before a move, and about the mover. */
  ghost predicate Known(w: World, pc: PC, j: JobId, story: Story, carriers: nat) {
    Before(w, pc, j, carriers) && StoryOk(w, j, story, carriers) && HolderOk(pc, j, story)
  }

  ghost predicate TellsOn(w: World, pc: PC, j: JobId, story: Story, carriers: nat, w': World, pc': PC)
    requires carriers >= Tally(Carries(pc, j))
  {
    && StoryOk(w', j, story, carriers - Tally(Carries(pc, j)) + Tally(Carries(pc', j)))
    && HolderOk(pc', j, story)
  }

  lemma PushEndsTells(w: World, t: Tid, pc: PC, full: CondVar, waitError: bool, r: (JobQueue<JobId>, PushOutcome),
                      j: JobId, story: Story, carriers: nat)
    requires Submitting(pc) && Known(w, pc, j, story, carriers)
    requires PushEffect(w.m.jobQ, full, t, pc.j, waitError, r.0, r.1)
    ensures TellsOn(w, pc, j, story, carriers, PushEnds(w, pc.j, r).w, PushEnds(w, pc.j, r).pc)
  {
  }

  lemma WorkerPopEndsTells(w: World, t: Tid, pc: PC, empty: CondVar, waitError: bool, step: Step,
                           r: (JobQueue<JobId>, PopOutcome<JobId>), j: JobId, story: Story, carriers: nat)
    requires (pc.WorkerPop? || pc.WorkerBlocked?) && Known(w, pc, j, story, carriers) && WorkerStarted in w.h
    requires PopEffect(w.m.jobQ, empty, t, waitError, r.0, r.1)
    ensures var move := WorkerPopEnds(w, r);
            TellsOn(w, pc, j, Told(story, j, step, pc, move.pc), carriers, move.w, move.pc)
  {
    if |w.m.jobQ.Items()| != 0 { PopTakes(w.m.jobQ.Items(), j); }
  }

  lemma DiscardPopEndsTells(w: World, t: Tid, pc: PC, step: Step, r: (JobQueue<JobId>, PopOutcome<JobId>),
                            j: JobId, story: Story, carriers: nat)
    requires pc.DiscardPop? && Known(w, pc, j, story, carriers)
    requires PopEffect(w.m.jobQ, w.m.jobQ.Empty(), t, true, r.0, r.1)
    ensures var move := DiscardPopEnds(w, pc.who, r);
            TellsOn(w, pc, j, Told(story, j, step, pc, move.pc), carriers, move.w, move.pc)
  {
    if |w.m.jobQ.Items()| != 0 { PopTakes(w.m.jobQ.Items(), j); }
  }

  /** A move of a thread that carries no job, before or after, and leaves all jobs where they are. */
  lemma StoryRests(w: World, pc: PC, w': World, pc': PC, j: JobId, story: Story, carriers: nat)
    requires Known(w, pc, j, story, carriers) && !Carries(pc, j) && !Carries(pc', j)
    requires w'.jobs == w.jobs && w'.accepted == w.accepted && w'.m.jobQ.Items() == w.m.jobQ.Items() && w.h <= w'.h
    ensures TellsOn(w, pc, j, story, carriers, w', pc')
  {
  }

  lemma JobBegins(w: World, t: Tid, pc: PC, j: JobId, story: Story, carriers: nat)
    requires pc.WorkerTook? && Known(w, pc, j, story, carriers) && Before(w, pc, pc.j, 1)
    ensures var move := WorkerMove(w, t, pc, Begins);
            !move.Stuck? && TellsOn(w, pc, j, story, carriers, move.w, move.pc)
  {
  }

  lemma JobEnds(w: World, t: Tid, pc: PC, output: Ptr, j: JobId, story: Story, carriers: nat)
    requires pc.WorkerRunning? && Known(w, pc, j, story, carriers) && Before(w, pc, pc.j, 1)
    ensures var move := WorkerMove(w, t, pc, Ends(output));
            && !move.Stuck?
            && TellsOn(w, pc, j, Told(story, j, Works(t, Ends(output)), pc, move.pc), carriers, move.w, move.pc)
  {
    Job.EndSettles(w.jobs[pc.j], output);
  }

  lemma JobIsCancelled(w: World, t: Tid, pc: PC, j: JobId, story: Story, carriers: nat)
    requires pc.DiscardTook? && Known(w, pc, j, story, carriers) && Before(w, pc, pc.j, 1)
    ensures var move := CloserMove(w, t, pc, DiscardCancels);
            !move.Stuck? && TellsOn(w, pc, j, story, carriers, move.w, move.pc)
  {
    Job.LifeOfAJob(w.jobs[pc.j], NULL);
  }

  lemma SubmitterTells(w: World, t: Tid, pc: PC, step: SubmitterStep, j: JobId, story: Story, carriers: nat)
    requires QueueOk(w.m) && QueueSees(w.m, t, pc) && !SubmitterMove(w, t, pc, step).Stuck?
    requires Known(w, pc, j, story, carriers)
    ensures var move := SubmitterMove(w, t, pc, step); TellsOn(w, pc, j, story, carriers, move.w, move.pc)
  {
    var move := SubmitterMove(w, t, pc, step);
    match step
    case JobCreated(_, _) =>
    case PushCalled(choice) =>
      PushHasEffect(w.m.jobQ, t, pc.j, false, choice);
      PushEndsTells(w, t, pc, w.m.jobQ.Full(), false, Push(w.m.jobQ, t, pc.j, false, choice), j, story, carriers);
    case PushWakes(timedOut, choice) =>
      PushWakeHasEffect(w.m.jobQ, t, pc.j, timedOut, choice);
      PushEndsTells(w, t, pc, w.m.jobQ.Full().Leave(t), timedOut,
                    PushWake(w.m.jobQ, t, pc.j, timedOut, choice), j, story, carriers);
    case _ => StoryRests(w, pc, move.w, move.pc, j, story, carriers);
  }

  lemma WorkerTells(w: World, t: Tid, pc: PC, step: WorkerStep, j: JobId, story: Story, carriers: nat)
    requires QueueOk(w.m) && QueueSees(w.m, t, pc) && !WorkerMove(w, t, pc, step).Stuck?
    requires Known(w, pc, j, story, carriers) && PlaceOk(w, pc)
    requires pc.WorkerTook? || pc.WorkerRunning? ==> Before(w, pc, pc.j, 1)
    ensures var move := WorkerMove(w, t, pc, step);
            TellsOn(w, pc, j, Told(story, j, Works(t, step), pc, move.pc), carriers, move.w, move.pc)
  {
    var move := WorkerMove(w, t, pc, step);
    match step
    case Pops(choice) =>
      PopHasEffect(w.m.jobQ, t, false, choice);
      WorkerPopEndsTells(w, t, pc, w.m.jobQ.Empty(), false, Works(t, step), Pop(w.m.jobQ, t, false, choice),
                         j, story, carriers);
    case PopWakes(timedOut, choice) =>
      PopWakeHasEffect(w.m.jobQ, t, timedOut, choice);
      WorkerPopEndsTells(w, t, pc, w.m.jobQ.Empty().Leave(t), timedOut, Works(t, step),
                         PopWake(w.m.jobQ, t, timedOut, choice), j, story, carriers);
    case Begins => JobBegins(w, t, pc, j, story, carriers);
    case Ends(output) => JobEnds(w, t, pc, output, j, story, carriers);
    case Exits => StoryRests(w, pc, move.w, move.pc, j, story, carriers);
  }

  lemma CloserTells(w: World, t: Tid, pc: PC, step: CloserStep, j: JobId, story: Story, carriers: nat)
    requires QueueOk(w.m) && QueueSees(w.m, t, pc) && !CloserMove(w, t, pc, step).Stuck?
    requires Known(w, pc, j, story, carriers)
    requires pc.DiscardTook? ==> Before(w, pc, pc.j, 1)
    ensures var move := CloserMove(w, t, pc, step);
            TellsOn(w, pc, j, Told(story, j, Closes(t, step), pc, move.pc), carriers, move.w, move.pc)
  {
    var move := CloserMove(w, t, pc, step);
    match step
    case DiscardPops(choice) =>
      PopHasEffect(w.m.jobQ, t, true, choice);
      DiscardPopEndsTells(w, t, pc, Closes(t, step), Pop(w.m.jobQ, t, true, choice), j, story, carriers);
    case DiscardCancels => JobIsCancelled(w, t, pc, j, story, carriers);
    case _ => StoryRests(w, pc, move.w, move.pc, j, story, carriers);
  }

  lemma CallTells(w: World, t: Tid, call: Call, j: JobId, story: Story, carriers: nat)
    requires QueueOk(w.m) && !CallMove(w, t, call).Stuck? && Known(w, Outside, j, story, carriers)
    ensures var move := CallMove(w, t, call); TellsOn(w, Outside, j, story, carriers, move.w, move.pc)
  {
    var move := CallMove(w, t, call);
    CloseHasEffect(w.m.jobQ);
    StoryRests(w, Outside, move.w, move.pc, j, story, carriers);
  }

  lemma CreatorTells(w: World, pc: PC, step: CreatorStep, j: JobId, story: Story, carriers: nat)
    requires !CreatorMove(w, pc, step).Stuck? && Known(w, pc, j, story, carriers)
    ensures var move := CreatorMove(w, pc, step); TellsOn(w, pc, j, story, carriers, move.w, move.pc)
  {
    var move := CreatorMove(w, pc, step);
    StoryRests(w, pc, move.w, move.pc, j, story, carriers);
  }

  /** Only a worker takes as a worker, and only a discarder as a discarder. */
  lemma OthersTellNothing(w: World, pc: PC, step: Step, j: JobId, story: Story)
    requires !MoveOf(w, pc, step).Stuck? && (step.Calls? || step.Creates? || step.Submits?)
    ensures Told(story, j, step, pc, MoveOf(w, pc, step).pc) == story
  {
  }

  lemma MoveTells(w: World, pc: PC, step: Step, j: JobId, story: Story, carriers: nat)
    requires QueueOk(w.m) && QueueSees(w.m, step.t, pc) && !MoveOf(w, pc, step).Stuck?
    requires Known(w, pc, j, story, carriers) && PlaceOk(w, pc)
    requires pc.WorkerTook? || pc.WorkerRunning? || pc.DiscardTook? ==> Before(w, pc, pc.j, 1)
    ensures var move := MoveOf(w, pc, step);
            TellsOn(w, pc, j, Told(story, j, step, pc, move.pc), carriers, move.w, move.pc)
  {
    if step.Calls? || step.Creates? || step.Submits? { OthersTellNothing(w, pc, step, j, story); }
    match step
    case Calls(t, call) => CallTells(w, t, call, j, story, carriers);
    case Creates(t, creator) => CreatorTells(w, pc, creator, j, story, carriers);
    case Submits(t, submitter) => SubmitterTells(w, t, pc, submitter, j, story, carriers);
    case Works(t, worker) => WorkerTells(w, t, pc, worker, j, story, carriers);
    case Closes(t, closer) => CloserTells(w, t, pc, closer, j, story, carriers);
  }

  // ---- all jobs and threads together ----

  ghost predicate StoriesOk(s: State, stories: seq<Story>) {
    && |stories| == |s.w.jobs|
    && (forall j | 0 <= j < |stories| :: StoryOk(s.w, j, stories[j], Carriers(s, j)))
    && (forall t, j | t in s.pcs && 0 <= j < |stories| :: HolderOk(s.pcs[t], j, stories[j]))
  }

  /** A job is created only by the step that says so, with what it says. */
  lemma JobsAreCreatedAsTold(w: World, pc: PC, step: Step)
    requires !MoveOf(w, pc, step).Stuck?
    requires pc.WorkerTook? || pc.WorkerRunning? || pc.DiscardTook? ==> pc.j < |w.jobs|
    ensures var jobs := MoveOf(w, pc, step).w.jobs;
            match step
            case Submits(_, JobCreated(promise, hasCancellationCallback)) =>
              && |jobs| == |w.jobs| + 1
              && jobs[|w.jobs|].offered == promise
              && jobs[|w.jobs|].hasCancellationCallback == hasCancellationCallback
            case _ => |jobs| == |w.jobs|
  {
    match step
    case Calls(_, _) =>
    case Creates(_, _) =>
    case Submits(_, _) =>
    case Works(_, _) =>
    case Closes(_, _) =>
  }

  lemma MoverIsKnown(s: State, stories: seq<Story>, step: Step, j: JobId)
    requires Inv(s) && StoriesOk(s, stories) && j < |stories|
    ensures var pc := PcOf(s.pcs, step.t);
            && Known(s.w, pc, j, stories[j], Carriers(s, j))
            && PlaceOk(s.w, pc) && QueueOk(s.w.m) && QueueSees(s.w.m, step.t, pc)
            && (pc.WorkerTook? || pc.WorkerRunning? || pc.DiscardTook? ==> Before(s.w, pc, pc.j, 1))
  {
    var pc := PcOf(s.pcs, step.t);
    MoverBefore(s, step.t, j);
    CountsReachMover(s, step.t);
    if pc.WorkerTook? || pc.WorkerRunning? || pc.DiscardTook? { MoverBefore(s, step.t, pc.j); }
    assert StoryOk(s.w, j, stories[j], Carriers(s, j));
  }

  /** The story of a job that is there, and the thread that moves. */
  lemma StepTells(s: State, stories: seq<Story>, step: Step, j: JobId)
    requires Inv(s) && StoriesOk(s, stories) && Next(s, step) != s && j < |stories|
    ensures var s', pc := Next(s, step), PcOf(s.pcs, step.t);
            var pc' := MoveOf(s.w, pc, step).pc;
            var story := Told(stories[j], j, step, pc, pc');
            StoryOk(s'.w, j, story, Carriers(s', j)) && HolderOk(pc', j, story)
  {
    MoverIsKnown(s, stories, step, j);
    MoveTells(s.w, PcOf(s.pcs, step.t), step, j, stories[j], Carriers(s, j));
    StepCounts(s, step, Carrier(j));
  }

  lemma AllToldAt(s: State, stories: seq<Story>, step: Step, j: JobId)
    requires Next(s, step) != s && j < |stories|
    ensures |AllTold(stories, s, step)| ==
            |stories| + if step.Submits? && step.submitter.JobCreated? then 1 else 0
    ensures AllTold(stories, s, step)[j] ==
            Told(stories[j], j, step, PcOf(s.pcs, step.t), MoveOf(s.w, PcOf(s.pcs, step.t), step).pc)
  {
    MoverGoes(s, step);
  }

  lemma MoverGoes(s: State, step: Step)
    requires Next(s, step) != s
    ensures PcOf(Next(s, step).pcs, step.t) == MoveOf(s.w, PcOf(s.pcs, step.t), step).pc
  {
  }

  /** What a thread holds that does not move, the mover holds neither before nor after the step. */
  lemma MoverHoldsOtherJobs(s: State, step: Step, t: Tid, j: JobId)
    requires Inv(s) && Inv(Next(s, step)) && t != step.t && t in s.pcs && Carries(s.pcs[t], j)
    requires t in Next(s, step).pcs && Next(s, step).pcs[t] == s.pcs[t]
    ensures !Carries(PcOf(s.pcs, step.t), j) && !Carries(PcOf(Next(s, step).pcs, step.t), j)
  {
    var s', pc := Next(s, step), PcOf(s.pcs, step.t);
    assert JobOk(s.w, j, Carriers(s, j)) && JobOk(s'.w, j, Carriers(s', j));
    if Carries(pc, j) { OneCarrier(s, t, step.t, j); }
    if step.t in s'.pcs && Carries(s'.pcs[step.t], j) { OneCarrier(s', t, step.t, j); }
  }

  /** A thread that does not move keeps its job, whose story the mover does not touch. */
  lemma OtherHolderStays(s: State, stories: seq<Story>, step: Step, t: Tid, j: JobId)
    requires Inv(s) && StoriesOk(s, stories) && Next(s, step) != s && j < |stories|
    requires t != step.t && t in Next(s, step).pcs
    ensures HolderOk(Next(s, step).pcs[t], j, AllTold(stories, s, step)[j])
  {
    AllToldAt(s, stories, step, j);
    MoverGoes(s, step);
    ThreadAfterStep(s, step, t);
    if t in s.pcs {
      assert HolderOk(s.pcs[t], j, stories[j]);
      if Carries(s.pcs[t], j) {
        StepKeepsInv(s, step);
        MoverHoldsOtherJobs(s, step, t, j);
      }
    }
  }

  /** A job that is created begins its story. */
  lemma StoryBegins(s: State, stories: seq<Story>, t: Tid, promise: Option<Promise.Promise>, hasCallback: bool)
    requires Inv(s) && StoriesOk(s, stories) && Next(s, Submits(t, JobCreated(promise, hasCallback))) != s
    ensures var step, j := Submits(t, JobCreated(promise, hasCallback)), |stories|;
            var s', story := Next(s, step), Story(promise, hasCallback, Nobody, None);
            && |s'.w.jobs| == j + 1
            && StoryOk(s'.w, j, story, Carriers(s', j))
            && forall u | u in s'.pcs :: HolderOk(s'.pcs[u], j, story)
  {
    var step, j := Submits(t, JobCreated(promise, hasCallback)), |stories|;
    var s', story := Next(s, step), Story(promise, hasCallback, Nobody, None);
    assert JobOk(s.w, j, Carriers(s, j));
    forall u | u in s'.pcs ensures HolderOk(s'.pcs[u], j, story) {
      ThreadAfterStep(s, step, u);
      if u in s.pcs { assert StageOk(s.w, s.pcs[u], j); }
    }
  }

  lemma StepKeepsStories(s: State, stories: seq<Story>, step: Step)
    requires Inv(s) && StoriesOk(s, stories)
    ensures StoriesOk(Next(s, step), AllTold(stories, s, step))
  {
    var s', stories' := Next(s, step), AllTold(stories, s, step);
    if s' != s {
      StepCreatesAsTold(s, step);
      if step.Submits? && step.submitter.JobCreated? {
        StoryBegins(s, stories, step.t, step.submitter.promise, step.submitter.hasCancellationCallback);
      }
      forall j | 0 <= j < |stories'| ensures StoryOk(s'.w, j, stories'[j], Carriers(s', j)) {
        if j < |stories| {
          AllToldAt(s, stories, step, j);
          StepTells(s, stories, step, j);
        }
      }
      forall t, j | t in s'.pcs && 0 <= j < |stories'| ensures HolderOk(s'.pcs[t], j, stories'[j]) {
        if j < |stories| { HolderAfterStep(s, stories, step, t, j); }
      }
    }
  }

  lemma HolderAfterStep(s: State, stories: seq<Story>, step: Step, t: Tid, j: JobId)
    requires Inv(s) && StoriesOk(s, stories) && Next(s, step) != s && j < |stories| && t in Next(s, step).pcs
    ensures HolderOk(Next(s, step).pcs[t], j, AllTold(stories, s, step)[j])
  {
    if t == step.t {
      AllToldAt(s, stories, step, j);
      MoverGoes(s, step);
      StepTells(s, stories, step, j);
    } else {
      OtherHolderStays(s, stories, step, t, j);
    }
  }

  lemma StepCreatesAsTold(s: State, step: Step)
    requires Inv(s) && Next(s, step) != s
    ensures |Next(s, step).w.jobs| == |s.w.jobs| + if step.Submits? && step.submitter.JobCreated? then 1 else 0
  {
    var pc := PcOf(s.pcs, step.t);
    if pc.WorkerTook? || pc.WorkerRunning? || pc.DiscardTook? { MoverBefore(s, step.t, pc.j); }
    JobsAreCreatedAsTold(s.w, pc, step);
  }

  lemma {:induction false} RunsKeepStories(s: State, stories: seq<Story>, schedule: seq<Step>)
    requires Inv(s) && StoriesOk(s, stories)
    ensures Inv(Runs.After(Next, s, schedule))
    ensures StoriesOk(Runs.After(Next, s, schedule), StoriesOf(s, stories, schedule))
    decreases |schedule|
  {
    if schedule != [] {
      StepKeepsInv(s, schedule[0]);
      StepKeepsStories(s, stories, schedule[0]);
      RunsKeepStories(Next(s, schedule[0]), AllTold(stories, s, schedule[0]), schedule[1..]);
    }
  }

  /**
   In every run every job has the promise and the callback that it was submitted with, and an
   accepted job that is neither queued nor held was taken by a worker or by a discarder: by a
   worker, then it was executed once and its output is what its function returned; by a
   discarder, then it was cancelled once, and its function was never called.
   */
  lemma JobsEndAsTheirTakersMust(cfg: Config, schedule: seq<Step>, j: JobId)
    requires ConfigOk(cfg) && j < |Reach(cfg, schedule).w.jobs|
    ensures var s, stories := Reach(cfg, schedule), StoriesOf(Init(cfg), [], schedule);
            && |stories| == |s.w.jobs|
            && s.w.jobs[j].offered == stories[j].promise
            && s.w.jobs[j].hasCancellationCallback == stories[j].hasCancellationCallback
            && (j in s.w.accepted && Queued(s.w, j) == 0 && Carriers(s, j) == 0 ==> EndsAsTold(s.w.jobs[j], stories[j]))
            && (stories[j].taker == AWorker ==> WorkerStarted in s.w.h)
  {
    InvHolds(cfg, []);
    RunsKeepStories(Init(cfg), [], schedule);
  }

  /** Where no worker was ever started, every accepted job that is neither queued nor held was cancelled. */
  lemma WithoutWorkersJobsAreCancelled(cfg: Config, schedule: seq<Step>, j: JobId)
    requires ConfigOk(cfg)
    requires var s := Reach(cfg, schedule);
             WorkerStarted !in s.w.h && j in s.w.accepted && Queued(s.w, j) == 0 && Carriers(s, j) == 0
    ensures j < |Reach(cfg, schedule).w.jobs| && Job.CancelledOnce(Reach(cfg, schedule).w.jobs[j])
  {
    InvHolds(cfg, schedule);
    var s := Reach(cfg, schedule);
    assert JobOk(s.w, j, Carriers(s, j));
    JobsEndAsTheirTakersMust(cfg, schedule, j);
  }

  /** Only workers call job functions: a step of any other thread changes no job's calls and no output. */
  lemma OnlyWorkersRunJobs(s: State, step: Step, j: JobId)
    requires Inv(s) && !IsWorker(PcOf(s.pcs, step.t)) && j < |s.w.jobs|
    ensures var jobs := Next(s, step).w.jobs;
            j < |jobs| && jobs[j].calls == s.w.jobs[j].calls && jobs[j].output == s.w.jobs[j].output
  {
    var pc := PcOf(s.pcs, step.t);
    if pc.DiscardTook? { MoverBefore(s, step.t, pc.j); }
    if !MoveOf(s.w, pc, step).Stuck? { OtherMovesRunNothing(s.w, pc, step, j); }
  }

  lemma OtherMovesRunNothing(w: World, pc: PC, step: Step, j: JobId)
    requires !MoveOf(w, pc, step).Stuck? && !IsWorker(pc) && j < |w.jobs|
    ensures var jobs := MoveOf(w, pc, step).w.jobs;
            j < |jobs| && jobs[j].calls == w.jobs[j].calls && jobs[j].output == w.jobs[j].output
  {
    match step
    case Calls(_, _) =>
    case Creates(_, _) =>
    case Submits(_, _) =>
    case Works(_, _) =>
    case Closes(_, _) =>
  }
}
