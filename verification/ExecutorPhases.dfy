/**
 What each phase of the executor's life guarantees: construction, service, shutdown, drain
 and deletion.
 */
module ExecutorPhases {
  import opened Base
  import opened CondVars
  import opened QueueTypes
  import opened JobQueue
  import opened Executor
  import opened ExecutorCounts
  import opened ExecutorWaits
  import opened Threads
  import Job

  predicate Discards(pc: PC, who: Discarder) {
    (pc.DiscardLook? || pc.DiscardPop? || pc.DiscardTook?) && pc.who == who
  }

  predicate Fixed(w: World) {
    w.cfg.kind == FixedThreadCount
  }

  /** Only the constructor creates the workers of a fixed executor. */
  predicate OnlyCached(pc: PC) {
    || pc.SubmitPushed? || pc.SubmitSawNoWaiters?
    || ((pc.CreateEnter? || pc.CreateReserved? || pc.CreateStarted? || pc.CreateFailed?) && pc.owner == BySubmitter)
  }

  predicate Closing(pc: PC) {
    pc.ShutdownBlocked? || pc.DiscardLook? || pc.DiscardPop? || pc.DiscardTook? || pc.WaitLook? || pc.WaitBlocked?
  }

  /** No submitter is left and none can come. */
  predicate NoSubmitters(w: World) {
    w.m.shutdownRequested && w.m.submitters == 0
  }

  /** Nobody can call create_worker any more. */
  predicate NoCreators(w: World) {
    Published in w.h && (Fixed(w) || NoSubmitters(w))
  }

  /** What a thread's place says about the executor. */
  ghost predicate PlaceOk(w: World, pc: PC) {
    && (InSubmitWindow(pc) ==> Published in w.h)
    && (OnlyCached(pc) ==> !Fixed(w))
    && (Closing(pc) ==> w.m.shutdownRequested)
    && (Discards(pc, ByShutdown) ==> Immediate in w.h && w.m.submitters == 0)
    && (IsDeleter(pc) ==> DeleteCalled in w.h)
    && (Discards(pc, ByDelete) ==> SawNoWorkers in w.h && (DeleteOrdered in w.h ==> w.m.activeWorkers == 0))
    && (pc.WorkerExit? ==> WorkerQuit in w.h)
    && (IsWorker(pc) ==> WorkerStarted in w.h)
  }

  /** What the history says about the executor. */
  ghost predicate HistoryOk(w: World) {
    && ConfigOk(w.cfg)
    && (w.m.shutdownRequested ==> Published in w.h)
    && (Immediate in w.h ==> w.m.shutdownRequested)
    && (ShutdownReturned in w.h ==> NoSubmitters(w))
    && (SawNoWorkers in w.h ==> w.m.shutdownRequested && (Fixed(w) ==> w.m.activeWorkers == 0))
    && (DeleteOrdered in w.h ==> ShutdownReturned in w.h && DeleteCalled in w.h)
    && (DeleteReturned in w.h ==>
          SawNoWorkers in w.h && DeleteCalled in w.h && (DeleteOrdered in w.h ==> w.m.activeWorkers == 0))
  }

  /** What no move ever undoes. */
  ghost predicate Forward(w: World, w': World) {
    && w'.cfg == w.cfg
    && w.h <= w'.h
    && (w.m.shutdownRequested ==> w'.m.shutdownRequested && (Immediate in w'.h ==> Immediate in w.h))
    && (NoSubmitters(w) ==> w'.m.submitters == 0)
    && (NoCreators(w) ==> w'.m.activeWorkers <= w.m.activeWorkers)
    && (NoCreators(w) && WorkerStarted in w'.h ==> WorkerStarted in w.h)
    && (DeleteCalled in w.h && DeleteOrdered in w'.h ==> DeleteOrdered in w.h)
  }

  /** The counters count the moving thread. */
  ghost predicate MoverCounted(w: World, pc: PC) {
    && (InSubmitWindow(pc) ==> w.m.submitters >= 1)
    && (CountsAsWorker(pc) ==> w.m.activeWorkers >= 1)
    && (IsConstructor(pc) ==> Published !in w.h)
  }

  ghost predicate MoveOk(w: World, pc: PC, w': World, pc': PC) {
    PlaceOk(w', pc') && HistoryOk(w') && Forward(w, w')
  }

  lemma CreatorMoveOk(w: World, pc: PC, step: CreatorStep)
    requires PlaceOk(w, pc) && HistoryOk(w) && MoverCounted(w, pc) && !CreatorMove(w, pc, step).Stuck?
    ensures var move := CreatorMove(w, pc, step); MoveOk(w, pc, move.w, move.pc)
  {
  }

  lemma SubmitterMovePlaces(w: World, t: Tid, pc: PC, step: SubmitterStep)
    requires PlaceOk(w, pc) && HistoryOk(w) && MoverCounted(w, pc) && !SubmitterMove(w, t, pc, step).Stuck?
    ensures var move := SubmitterMove(w, t, pc, step); PlaceOk(move.w, move.pc)
  {
  }

  lemma SubmitterMoveForward(w: World, t: Tid, pc: PC, step: SubmitterStep)
    requires PlaceOk(w, pc) && HistoryOk(w) && MoverCounted(w, pc) && !SubmitterMove(w, t, pc, step).Stuck?
    ensures HistoryOk(SubmitterMove(w, t, pc, step).w) && Forward(w, SubmitterMove(w, t, pc, step).w)
  {
  }

  lemma WorkerMovePlaces(w: World, t: Tid, pc: PC, step: WorkerStep)
    requires PlaceOk(w, pc) && HistoryOk(w) && MoverCounted(w, pc) && !WorkerMove(w, t, pc, step).Stuck?
    ensures var move := WorkerMove(w, t, pc, step); PlaceOk(move.w, move.pc) && HistoryOk(move.w)
  {
    match step
    case Pops(_) =>
    case PopWakes(_, _) =>
    case Begins =>
    case Ends(_) =>
    case Exits =>
  }

  lemma WorkerMoveForward(w: World, t: Tid, pc: PC, step: WorkerStep)
    requires PlaceOk(w, pc) && HistoryOk(w) && MoverCounted(w, pc) && !WorkerMove(w, t, pc, step).Stuck?
    ensures Forward(w, WorkerMove(w, t, pc, step).w)
  {
    match step
    case Pops(_) =>
    case PopWakes(_, _) =>
    case Begins =>
    case Ends(_) =>
    case Exits =>
  }

  /** The looks at a counter: of the first shutdown and of a waiter. */
  lemma LookPlaces(w: World, t: Tid, pc: PC, step: CloserStep)
    requires step.ShutdownWakes? || step.WaitLooks? || step.WaitWakes?
    requires PlaceOk(w, pc) && HistoryOk(w) && MoverCounted(w, pc) && !CloserMove(w, t, pc, step).Stuck?
    ensures var move := CloserMove(w, t, pc, step); PlaceOk(move.w, move.pc) && HistoryOk(move.w)
  {
    match step
    case ShutdownWakes =>
    case WaitLooks =>
    case WaitWakes =>
    case _ =>
  }

  lemma CloserMovePlaces(w: World, t: Tid, pc: PC, step: CloserStep)
    requires PlaceOk(w, pc) && HistoryOk(w) && MoverCounted(w, pc) && !CloserMove(w, t, pc, step).Stuck?
    ensures var move := CloserMove(w, t, pc, step); PlaceOk(move.w, move.pc) && HistoryOk(move.w)
  {
    match step
    case ShutdownWakes => LookPlaces(w, t, pc, step);
    case DiscardLooks =>
    case DiscardPops(_) =>
    case DiscardCancels =>
    case WaitLooks => LookPlaces(w, t, pc, step);
    case WaitWakes => LookPlaces(w, t, pc, step);
  }

  lemma CloserMoveForward(w: World, t: Tid, pc: PC, step: CloserStep)
    requires PlaceOk(w, pc) && HistoryOk(w) && MoverCounted(w, pc) && !CloserMove(w, t, pc, step).Stuck?
    ensures Forward(w, CloserMove(w, t, pc, step).w)
  {
    match step
    case ShutdownWakes =>
    case DiscardLooks =>
    case DiscardPops(_) =>
    case DiscardCancels =>
    case WaitLooks =>
    case WaitWakes =>
  }

  lemma CallMoveOk(w: World, t: Tid, call: Call)
    requires HistoryOk(w) && !CallMove(w, t, call).Stuck?
    ensures var move := CallMove(w, t, call); MoveOk(w, Outside, move.w, move.pc)
  {
  }

  lemma MoveIsOk(w: World, pc: PC, step: Step)
    requires PlaceOk(w, pc) && HistoryOk(w) && MoverCounted(w, pc) && !MoveOf(w, pc, step).Stuck?
    ensures var move := MoveOf(w, pc, step); MoveOk(w, pc, move.w, move.pc)
  {
    match step
    case Calls(t, call) => CallMoveOk(w, t, call);
    case Creates(_, creator) => CreatorMoveOk(w, pc, creator);
    case Submits(t, submitter) =>
      SubmitterMovePlaces(w, t, pc, submitter);
      SubmitterMoveForward(w, t, pc, submitter);
    case Works(t, worker) =>
      WorkerMovePlaces(w, t, pc, worker);
      WorkerMoveForward(w, t, pc, worker);
    case Closes(t, closer) =>
      CloserMovePlaces(w, t, pc, closer);
      CloserMoveForward(w, t, pc, closer);
  }

  // ---- the drain ----

  ghost predicate NoneCancelled(jobs: seq<Job.Job>) {
    forall j | 0 <= j < |jobs| :: jobs[j].state != Job.CANCELLED
  }

  /** The workers wait for jobs without a limit: those of every fixed executor, and of a cached one that is told so. */
  predicate Patient(w: World) {
    w.cfg.emptyTimeout == BLOCKING
  }

  /**
   Patient workers, of which there was one, no immediate shutdown, and a cached executor not
   deleted out of order.
   */
  predicate Graceful(w: World) {
    && Patient(w) && WorkerStarted in w.h && Immediate !in w.h
    && (Fixed(w) || DeleteCalled !in w.h || DeleteOrdered in w.h)
  }

  /** Nobody has had reason to discard jobs. */
  predicate NoDiscard(w: World) {
    Immediate !in w.h && DeleteCalled !in w.h
  }

  /** A patient worker quits only when the queue is closed and empty. */
  ghost predicate DrainOk(w: World) {
    && (Patient(w) && WorkerQuit in w.h ==> w.m.shutdownRequested && w.m.jobQ.Items() == [])
    && (Immediate in w.h && ShutdownReturned in w.h ==> w.m.jobQ.Items() == [])
    && (DeleteReturned in w.h ==> w.m.jobQ.Items() == [])
    && (Published !in w.h ==> w.jobs == [])
    && (Graceful(w) || NoDiscard(w) ==> NoneCancelled(w.jobs))
  }

  ghost predicate DrainPlaceOk(w: World, pc: PC) {
    pc.DiscardTook? ==> !Graceful(w)
  }

  /** Counting tells the mover that a started worker is still there or has quit. */
  ghost predicate WorkersAccounted(w: World) {
    w.m.activeWorkers == 0 && WorkerStarted in w.h ==> WorkerQuit in w.h
  }

  ghost predicate Ready(w: World, t: Tid, pc: PC) {
    && PlaceOk(w, pc) && HistoryOk(w) && DrainOk(w) && DrainPlaceOk(w, pc)
    && QueueOk(w.m) && QueueSees(w.m, t, pc) && MoverCounted(w, pc) && WorkersAccounted(w)
  }

  /** After a move that leaves history and job states alone and does not add to a closed queue. */
  lemma DrainGoesOn(w: World, w': World)
    requires DrainOk(w) && HistoryOk(w)
    requires w'.cfg == w.cfg && w'.h == w.h && w'.m.shutdownRequested == w.m.shutdownRequested
    requires NoneCancelled(w.jobs) ==> NoneCancelled(w'.jobs)
    requires Published !in w.h ==> w'.jobs == w.jobs
    requires w.m.shutdownRequested && w.m.jobQ.Items() == [] ==> w'.m.jobQ.Items() == []
    ensures DrainOk(w')
  {
  }

  lemma SubmitterDrains(w: World, t: Tid, pc: PC, step: SubmitterStep)
    requires Ready(w, t, pc) && !SubmitterMove(w, t, pc, step).Stuck?
    ensures var move := SubmitterMove(w, t, pc, step); DrainOk(move.w) && DrainPlaceOk(move.w, move.pc)
  {
    var w' := SubmitterMove(w, t, pc, step).w;
    match step
    case PushCalled(choice) =>
      PushHasEffect(w.m.jobQ, t, pc.j, false, choice);
      DrainGoesOn(w, w');
    case PushWakes(timedOut, choice) =>
      PushWakeHasEffect(w.m.jobQ, t, pc.j, timedOut, choice);
      DrainGoesOn(w, w');
    case _ => DrainGoesOn(w, w');
  }

  lemma WorkerDrains(w: World, t: Tid, pc: PC, step: WorkerStep)
    requires Ready(w, t, pc) && !WorkerMove(w, t, pc, step).Stuck?
    ensures var move := WorkerMove(w, t, pc, step); DrainOk(move.w) && DrainPlaceOk(move.w, move.pc)
  {
    var w' := WorkerMove(w, t, pc, step).w;
    match step
    case Pops(choice) => PopHasEffect(w.m.jobQ, t, false, choice);
    case PopWakes(timedOut, choice) => PopWakeHasEffect(w.m.jobQ, t, timedOut, choice);
    case _ => DrainGoesOn(w, w');
  }

  lemma CloserDrains(w: World, t: Tid, pc: PC, step: CloserStep)
    requires Ready(w, t, pc) && !CloserMove(w, t, pc, step).Stuck?
    ensures var move := CloserMove(w, t, pc, step); DrainOk(move.w) && DrainPlaceOk(move.w, move.pc)
  {
    match step
    case DiscardPops(choice) => PopHasEffect(w.m.jobQ, t, true, choice);
    case ShutdownWakes =>
    case DiscardLooks =>
    case DiscardCancels =>
    case WaitLooks =>
    case WaitWakes =>
  }

  lemma CallDrains(w: World, t: Tid, call: Call)
    requires Ready(w, t, Outside) && !CallMove(w, t, call).Stuck?
    ensures var move := CallMove(w, t, call); DrainOk(move.w) && DrainPlaceOk(move.w, move.pc)
  {
    CloseHasEffect(w.m.jobQ);
  }

  lemma CreatorDrains(w: World, t: Tid, pc: PC, step: CreatorStep)
    requires Ready(w, t, pc) && !CreatorMove(w, pc, step).Stuck?
    ensures var move := CreatorMove(w, pc, step); DrainOk(move.w) && DrainPlaceOk(move.w, move.pc)
  {
  }

  lemma MoveDrains(w: World, pc: PC, step: Step)
    requires Ready(w, step.t, pc) && !MoveOf(w, pc, step).Stuck?
    ensures var move := MoveOf(w, pc, step); DrainOk(move.w) && DrainPlaceOk(move.w, move.pc)
  {
    match step
    case Calls(t, call) => CallDrains(w, t, call);
    case Creates(t, creator) => CreatorDrains(w, t, pc, creator);
    case Submits(t, submitter) => SubmitterDrains(w, t, pc, submitter);
    case Works(t, worker) => WorkerDrains(w, t, pc, worker);
    case Closes(t, closer) => CloserDrains(w, t, pc, closer);
  }

  // ---- all threads together ----

  ghost predicate PlacesOk(w: World, pcs: map<Tid, PC>) {
    forall t | t in pcs :: PlaceOk(w, pcs[t]) && DrainPlaceOk(w, pcs[t])
  }

  /** Once a worker was started, there is a worker or one has quit. */
  ghost predicate WorkerPresent(s: State) {
    WorkerStarted in s.w.h ==> WorkerQuit in s.w.h || |Where(s.pcs, IsWorker)| >= 1
  }

  ghost predicate PhasesOk(s: State) {
    HistoryOk(s.w) && DrainOk(s.w) && PlacesOk(s.w, s.pcs) && WorkerPresent(s)
  }

  /** The places of the threads that do not move stay right. */
  lemma OtherStaysOk(w: World, w': World, pc: PC)
    requires PlaceOk(w, pc) && DrainPlaceOk(w, pc) && HistoryOk(w) && Forward(w, w')
    ensures PlaceOk(w', pc) && DrainPlaceOk(w', pc)
  {
  }

  lemma CountsReachMover(s: State, t: Tid)
    requires Counted(s) && QueueLinked(s) && WorkerPresent(s)
    ensures MoverCounted(s.w, PcOf(s.pcs, t)) && QueueSees(s.w.m, t, PcOf(s.pcs, t)) && WorkersAccounted(s.w)
  {
    var pc := PcOf(s.pcs, t);
    if InSubmitWindow(pc) { SomebodyThere(s.pcs, t, InSubmitWindow); }
    if CountsAsWorker(pc) { SomebodyThere(s.pcs, t, CountsAsWorker); }
    if IsConstructor(pc) { SomebodyThere(s.pcs, t, IsConstructor); }
    if s.w.m.activeWorkers == 0 {
      NobodyThere(s.pcs, CountsAsWorker);
      assert Where(s.pcs, IsWorker) == {};
    }
  }

  lemma MoverReady(s: State, t: Tid)
    requires Counted(s) && QueueLinked(s) && PhasesOk(s)
    ensures Ready(s.w, t, PcOf(s.pcs, t))
  {
    CountsReachMover(s, t);
  }

  lemma StepIsOk(s: State, step: Step)
    requires Counted(s) && QueueLinked(s) && PhasesOk(s) && Next(s, step) != s
    ensures var move := MoveOf(s.w, PcOf(s.pcs, step.t), step);
            && PlaceOk(move.w, move.pc) && DrainPlaceOk(move.w, move.pc)
            && HistoryOk(move.w) && DrainOk(move.w) && Forward(s.w, move.w)
  {
    MoverReady(s, step.t);
    MoveIsOk(s.w, PcOf(s.pcs, step.t), step);
    MoveDrains(s.w, PcOf(s.pcs, step.t), step);
  }

  /** After a step a thread is where the step took it, where it was, or a new worker. */
  lemma ThreadAfterStep(s: State, step: Step, t: Tid)
    requires Next(s, step) != s && t in Next(s, step).pcs
    ensures var move := MoveOf(s.w, PcOf(s.pcs, step.t), step);
            && !move.Stuck? && Next(s, step).w == move.w
            && Next(s, step).pcs[t] == (if t == step.t then move.pc else if t in s.pcs then s.pcs[t] else WorkerPop)
            && (t != step.t && t !in s.pcs ==> move.Spawns?)
  {
  }

  lemma NewWorkersAreKnown(w: World, pc: PC, step: Step)
    requires MoveOf(w, pc, step).Spawns?
    ensures WorkerStarted in MoveOf(w, pc, step).w.h
  {
  }

  lemma ThreadStaysOk(s: State, step: Step, t: Tid)
    requires Counted(s) && QueueLinked(s) && PhasesOk(s) && Next(s, step) != s && t in Next(s, step).pcs
    ensures PlaceOk(Next(s, step).w, Next(s, step).pcs[t]) && DrainPlaceOk(Next(s, step).w, Next(s, step).pcs[t])
  {
    StepIsOk(s, step);
    ThreadAfterStep(s, step, t);
    if t != step.t {
      if t in s.pcs {
        OtherStaysOk(s.w, Next(s, step).w, s.pcs[t]);
      } else {
        NewWorkersAreKnown(s.w, PcOf(s.pcs, step.t), step);
      }
    }
  }

  lemma StepKeepsPlaces(s: State, step: Step)
    requires Counted(s) && QueueLinked(s) && PhasesOk(s)
    ensures PlacesOk(Next(s, step).w, Next(s, step).pcs)
  {
    var s' := Next(s, step);
    if s' != s {
      forall t | t in s'.pcs ensures PlaceOk(s'.w, s'.pcs[t]) && DrainPlaceOk(s'.w, s'.pcs[t]) {
        ThreadStaysOk(s, step, t);
      }
    }
  }

  /** A worker stays one until it leaves, and then it has quit. */
  lemma WorkerKeepsWorker(w: World, t: Tid, pc: PC, step: WorkerStep)
    requires !WorkerMove(w, t, pc, step).Stuck? && PlaceOk(w, pc)
    ensures var move := WorkerMove(w, t, pc, step);
            && (IsWorker(pc) ==> IsWorker(move.pc) || WorkerQuit in w.h)
            && (WorkerStarted in move.w.h ==> WorkerStarted in w.h)
  {
  }

  lemma CreatorKeepsWorker(w: World, pc: PC, step: CreatorStep)
    requires !CreatorMove(w, pc, step).Stuck?
    ensures var move := CreatorMove(w, pc, step);
            !IsWorker(pc) && (WorkerStarted in move.w.h ==> WorkerStarted in w.h || move.Spawns?)
  {
  }

  lemma CloserKeepsWorker(w: World, t: Tid, pc: PC, step: CloserStep)
    requires !CloserMove(w, t, pc, step).Stuck?
    ensures !IsWorker(pc) && (WorkerStarted in CloserMove(w, t, pc, step).w.h ==> WorkerStarted in w.h)
  {
  }

  lemma MoveKeepsWorker(w: World, pc: PC, step: Step)
    requires !MoveOf(w, pc, step).Stuck? && PlaceOk(w, pc)
    ensures var move := MoveOf(w, pc, step);
            && (IsWorker(pc) ==> IsWorker(move.pc) || WorkerQuit in w.h)
            && (WorkerStarted in move.w.h ==> WorkerStarted in w.h || move.Spawns?)
  {
    match step
    case Calls(_, _) =>
    case Creates(_, creator) => CreatorKeepsWorker(w, pc, creator);
    case Submits(_, _) =>
    case Works(t, worker) => WorkerKeepsWorker(w, t, pc, worker);
    case Closes(t, closer) => CloserKeepsWorker(w, t, pc, closer);
  }

  lemma StepKeepsWorkerPresent(s: State, step: Step)
    requires Counted(s) && QueueLinked(s) && PhasesOk(s)
    ensures WorkerPresent(Next(s, step))
  {
    var pc := PcOf(s.pcs, step.t);
    StepCounts(s, step, IsWorker);
    if Next(s, step) != s {
      StepIsOk(s, step);
      MoveKeepsWorker(s.w, pc, step);
    }
  }

  lemma StepKeepsPhases(s: State, step: Step)
    requires Counted(s) && QueueLinked(s) && PhasesOk(s)
    ensures PhasesOk(Next(s, step)) && Forward(s.w, Next(s, step).w)
  {
    StepKeepsPlaces(s, step);
    StepKeepsWorkerPresent(s, step);
    if Next(s, step) != s { StepIsOk(s, step); }
  }

  lemma InitPhases(cfg: Config)
    requires ConfigOk(cfg)
    ensures PhasesOk(Init(cfg))
  {
  }
}
