/** The executor's counters are what they claim to be, in every reachable state. */
module ExecutorCounts {
  import opened Base
  import opened CondVars
  import opened Executor
  import opened Threads

  /** Inside submit_job_executor, between the increment and the decrement of submitters_count. */
  predicate InSubmitWindow(pc: PC) {
    || pc.SubmitNew? || pc.SubmitPush? || pc.SubmitBlocked? || pc.SubmitPushed? || pc.SubmitSawNoWaiters?
    || pc.SubmitExit?
    || ((pc.CreateEnter? || pc.CreateReserved? || pc.CreateStarted? || pc.CreateFailed?) && pc.owner == BySubmitter)
  }

  predicate IsWorker(pc: PC) {
    pc.WorkerPop? || pc.WorkerBlocked? || pc.WorkerTook? || pc.WorkerRunning? || pc.WorkerExit?
  }

  /** A worker not yet cleaned up, or a creator that has counted one and not handed it over. */
  predicate CountsAsWorker(pc: PC) {
    IsWorker(pc) || pc.CreateReserved? || pc.CreateFailed?
  }

  predicate IsConstructor(pc: PC) {
    || pc.ConstructorLoop?
    || ((pc.CreateEnter? || pc.CreateReserved? || pc.CreateStarted? || pc.CreateFailed?) && pc.owner.ByConstructor?)
  }

  predicate IsFirstShutdown(pc: PC) {
    pc.ShutdownBlocked? || ((pc.DiscardLook? || pc.DiscardPop? || pc.DiscardTook?) && pc.who == ByShutdown)
  }

  predicate IsDeleter(pc: PC) {
    || ((pc.WaitLook? || pc.WaitBlocked?) && pc.deletes)
    || ((pc.DiscardLook? || pc.DiscardPop? || pc.DiscardTook?) && pc.who == ByDelete)
  }

  lemma PlaceCounts(pcs: map<Tid, PC>, t: Tid, pc: PC, p: PC -> bool)
    requires !p(Outside)
    ensures |Where(Place(pcs, t, pc), p)| + Tally(p(PcOf(pcs, t))) == |Where(pcs, p)| + Tally(p(pc))
  {
    CountAfterMove(pcs, Place(pcs, t, pc), t, p);
  }

  /** A step changes a count by the thread that moves, and by the worker it starts. */
  lemma StepCounts(s: State, step: Step, p: PC -> bool)
    requires !p(Outside)
    ensures var move := MoveOf(s.w, PcOf(s.pcs, step.t), step);
            Next(s, step) == s || (
              && (move.Goes? || move.Spawns?)
              && Next(s, step).w == move.w
              && |Where(Next(s, step).pcs, p)| + Tally(p(PcOf(s.pcs, step.t))) ==
                 |Where(s.pcs, p)| + Tally(p(move.pc)) + Tally(move.Spawns? && p(WorkerPop)))
  {
    match MoveOf(s.w, PcOf(s.pcs, step.t), step)
    case Stuck =>
    case Goes(_, pc) => PlaceCounts(s.pcs, step.t, pc, p);
    case Spawns(_, pc, worker) =>
      PlaceCounts(s.pcs, step.t, pc, p);
      PlaceCounts(Place(s.pcs, step.t, pc), worker, WorkerPop, p);
  }

  ghost predicate SubmittersCounted(s: State) {
    s.w.m.submitters == |Where(s.pcs, InSubmitWindow)|
  }

  ghost predicate WorkersCounted(s: State) {
    s.w.m.activeWorkers == |Where(s.pcs, CountsAsWorker)| && s.w.m.activeWorkers <= s.w.cfg.workerLimit
  }

  ghost predicate OneConstructor(s: State) {
    |Where(s.pcs, IsConstructor)| + Tally(Published in s.w.h) == 1
  }

  /** The first shutdown is a thread on its way, or has returned. */
  ghost predicate OneFirstShutdown(s: State) {
    |Where(s.pcs, IsFirstShutdown)| + Tally(ShutdownReturned in s.w.h) == Tally(s.w.m.shutdownRequested)
  }

  ghost predicate OneDeleter(s: State) {
    |Where(s.pcs, IsDeleter)| + Tally(DeleteReturned in s.w.h) == Tally(DeleteCalled in s.w.h)
  }

  lemma SubmitterCountsSubmitters(w: World, t: Tid, pc: PC, submitter: SubmitterStep)
    requires !SubmitterMove(w, t, pc, submitter).Stuck? && (InSubmitWindow(pc) ==> w.m.submitters >= 1)
    ensures var move := SubmitterMove(w, t, pc, submitter);
            move.w.m.submitters + Tally(InSubmitWindow(pc)) == w.m.submitters + Tally(InSubmitWindow(move.pc))
  {
  }

  lemma CreatorCountsSubmitters(w: World, pc: PC, creator: CreatorStep)
    requires !CreatorMove(w, pc, creator).Stuck?
    ensures var move := CreatorMove(w, pc, creator);
            move.w.m.submitters == w.m.submitters && (InSubmitWindow(pc) <==> InSubmitWindow(move.pc))
  {
  }

  lemma CloserCountsSubmitters(w: World, t: Tid, pc: PC, closer: CloserStep)
    requires !CloserMove(w, t, pc, closer).Stuck?
    ensures var move := CloserMove(w, t, pc, closer);
            move.w.m.submitters == w.m.submitters && !InSubmitWindow(pc) && !InSubmitWindow(move.pc)
  {
  }

  lemma MoveCountsSubmitters(w: World, pc: PC, step: Step)
    requires !MoveOf(w, pc, step).Stuck? && (InSubmitWindow(pc) ==> w.m.submitters >= 1)
    ensures var move := MoveOf(w, pc, step);
            move.w.m.submitters + Tally(InSubmitWindow(pc)) == w.m.submitters + Tally(InSubmitWindow(move.pc))
  {
    match step
    case Calls(_, _) =>
    case Creates(_, creator) => CreatorCountsSubmitters(w, pc, creator);
    case Submits(t, submitter) => SubmitterCountsSubmitters(w, t, pc, submitter);
    case Works(_, _) =>
    case Closes(t, closer) => CloserCountsSubmitters(w, t, pc, closer);
  }

  lemma CreatorCountsWorkers(w: World, pc: PC, creator: CreatorStep)
    requires !CreatorMove(w, pc, creator).Stuck? && (CountsAsWorker(pc) ==> w.m.activeWorkers >= 1)
    ensures var move := CreatorMove(w, pc, creator);
            move.w.m.activeWorkers + Tally(CountsAsWorker(pc)) ==
            w.m.activeWorkers + Tally(CountsAsWorker(move.pc)) + Tally(move.Spawns?)
  {
  }

  lemma SubmitterCountsWorkers(w: World, t: Tid, pc: PC, submitter: SubmitterStep)
    requires !SubmitterMove(w, t, pc, submitter).Stuck?
    ensures var move := SubmitterMove(w, t, pc, submitter);
            && !move.Spawns? && move.w.m.activeWorkers == w.m.activeWorkers
            && !CountsAsWorker(pc) && !CountsAsWorker(move.pc)
  {
  }

  lemma WorkerCountsWorkers(w: World, t: Tid, pc: PC, worker: WorkerStep)
    requires !WorkerMove(w, t, pc, worker).Stuck? && (CountsAsWorker(pc) ==> w.m.activeWorkers >= 1)
    ensures var move := WorkerMove(w, t, pc, worker);
            && !move.Spawns?
            && move.w.m.activeWorkers + Tally(CountsAsWorker(pc)) == w.m.activeWorkers + Tally(CountsAsWorker(move.pc))
  {
  }

  lemma CloserCountsWorkers(w: World, t: Tid, pc: PC, closer: CloserStep)
    requires !CloserMove(w, t, pc, closer).Stuck?
    ensures var move := CloserMove(w, t, pc, closer);
            && !move.Spawns? && move.w.m.activeWorkers == w.m.activeWorkers
            && !CountsAsWorker(pc) && !CountsAsWorker(move.pc)
  {
  }

  lemma MoveCountsWorkers(w: World, pc: PC, step: Step)
    requires !MoveOf(w, pc, step).Stuck? && (CountsAsWorker(pc) ==> w.m.activeWorkers >= 1)
    ensures var move := MoveOf(w, pc, step);
            move.w.m.activeWorkers + Tally(CountsAsWorker(pc)) ==
            w.m.activeWorkers + Tally(CountsAsWorker(move.pc)) + Tally(move.Spawns?)
  {
    match step
    case Calls(_, _) =>
    case Creates(_, creator) => CreatorCountsWorkers(w, pc, creator);
    case Submits(t, submitter) => SubmitterCountsWorkers(w, t, pc, submitter);
    case Works(t, worker) => WorkerCountsWorkers(w, t, pc, worker);
    case Closes(t, closer) => CloserCountsWorkers(w, t, pc, closer);
  }

  lemma MoveRespectsLimit(w: World, pc: PC, step: Step)
    requires !MoveOf(w, pc, step).Stuck? && (CountsAsWorker(pc) ==> w.m.activeWorkers >= 1)
    requires w.m.activeWorkers <= w.cfg.workerLimit
    ensures var move := MoveOf(w, pc, step);
            move.w.cfg == w.cfg && move.w.m.activeWorkers <= w.cfg.workerLimit
  {
    match step
    case Calls(_, _) =>
    case Creates(_, _) =>
    case Submits(_, _) =>
    case Works(_, _) =>
    case Closes(_, _) =>
  }

  /** A submitter pushing its job has no part in construction, shutdown or deletion. */
  lemma SubmitterIsOnlyThat(w: World, t: Tid, pc: PC, step: SubmitterStep)
    requires !SubmitterMove(w, t, pc, step).Stuck?
    ensures var move := SubmitterMove(w, t, pc, step);
            && move.w.h == w.h && move.w.m.shutdownRequested == w.m.shutdownRequested
            && !IsConstructor(pc) && !IsFirstShutdown(pc) && !IsDeleter(pc)
            && !IsConstructor(move.pc) && !IsFirstShutdown(move.pc) && !IsDeleter(move.pc)
  {
  }

  lemma WorkerIsOnlyThat(w: World, t: Tid, pc: PC, step: WorkerStep)
    requires !WorkerMove(w, t, pc, step).Stuck?
    ensures var move := WorkerMove(w, t, pc, step);
            && w.h <= move.w.h <= w.h + {WorkerQuit} && move.w.m.shutdownRequested == w.m.shutdownRequested
            && !IsConstructor(pc) && !IsFirstShutdown(pc) && !IsDeleter(pc)
            && !IsConstructor(move.pc) && !IsFirstShutdown(move.pc) && !IsDeleter(move.pc)
  {
  }

  lemma CloserKeepsConstructor(w: World, t: Tid, pc: PC, step: CloserStep)
    requires !CloserMove(w, t, pc, step).Stuck?
    ensures var move := CloserMove(w, t, pc, step);
            !IsConstructor(pc) && !IsConstructor(move.pc) && (Published in move.w.h <==> Published in w.h)
  {
  }

  lemma CreatorKeepsConstructor(w: World, pc: PC, creator: CreatorStep)
    requires !CreatorMove(w, pc, creator).Stuck? && (IsConstructor(pc) ==> Published !in w.h)
    ensures var move := CreatorMove(w, pc, creator);
            Tally(IsConstructor(move.pc)) + Tally(Published in move.w.h) ==
            Tally(IsConstructor(pc)) + Tally(Published in w.h)
  {
  }

  lemma MoveKeepsConstructor(w: World, pc: PC, step: Step)
    requires !MoveOf(w, pc, step).Stuck? && (IsConstructor(pc) ==> Published !in w.h)
    ensures var move := MoveOf(w, pc, step);
            Tally(IsConstructor(move.pc)) + Tally(Published in move.w.h) ==
            Tally(IsConstructor(pc)) + Tally(Published in w.h)
  {
    match step
    case Calls(_, _) =>
    case Creates(_, creator) => CreatorKeepsConstructor(w, pc, creator);
    case Submits(t, submitter) => SubmitterIsOnlyThat(w, t, pc, submitter);
    case Works(t, worker) => WorkerIsOnlyThat(w, t, pc, worker);
    case Closes(t, closer) => CloserKeepsConstructor(w, t, pc, closer);
  }

  lemma CloserKeepsFirstShutdown(w: World, t: Tid, pc: PC, closer: CloserStep)
    requires !CloserMove(w, t, pc, closer).Stuck?
    requires IsFirstShutdown(pc) ==> w.m.shutdownRequested && ShutdownReturned !in w.h
    ensures var move := CloserMove(w, t, pc, closer);
            && move.w.m.shutdownRequested == w.m.shutdownRequested
            && Tally(IsFirstShutdown(move.pc)) + Tally(ShutdownReturned in move.w.h) ==
               Tally(IsFirstShutdown(pc)) + Tally(ShutdownReturned in w.h)
  {
  }

  lemma MoveKeepsFirstShutdown(w: World, pc: PC, step: Step)
    requires !MoveOf(w, pc, step).Stuck?
    requires IsFirstShutdown(pc) ==> w.m.shutdownRequested && ShutdownReturned !in w.h
    requires ShutdownReturned in w.h ==> w.m.shutdownRequested
    ensures var move := MoveOf(w, pc, step);
            Tally(IsFirstShutdown(move.pc)) + Tally(ShutdownReturned in move.w.h) + Tally(w.m.shutdownRequested) ==
            Tally(IsFirstShutdown(pc)) + Tally(ShutdownReturned in w.h) + Tally(move.w.m.shutdownRequested)
  {
    match step
    case Calls(_, _) =>
    case Creates(_, _) =>
    case Submits(t, submitter) => SubmitterIsOnlyThat(w, t, pc, submitter);
    case Works(t, worker) => WorkerIsOnlyThat(w, t, pc, worker);
    case Closes(t, closer) => CloserKeepsFirstShutdown(w, t, pc, closer);
  }

  lemma CloserKeepsDeleter(w: World, t: Tid, pc: PC, closer: CloserStep)
    requires !CloserMove(w, t, pc, closer).Stuck? && (IsDeleter(pc) ==> DeleteReturned !in w.h)
    ensures var move := CloserMove(w, t, pc, closer);
            && (DeleteCalled in move.w.h <==> DeleteCalled in w.h)
            && Tally(IsDeleter(move.pc)) + Tally(DeleteReturned in move.w.h) ==
               Tally(IsDeleter(pc)) + Tally(DeleteReturned in w.h)
  {
  }

  lemma CallKeepsDeleter(w: World, t: Tid, call: Call)
    requires !CallMove(w, t, call).Stuck?
    ensures var move := CallMove(w, t, call);
            && (DeleteReturned in move.w.h <==> DeleteReturned in w.h)
            && Tally(IsDeleter(move.pc)) + Tally(DeleteCalled in w.h) == Tally(DeleteCalled in move.w.h)
  {
  }

  lemma CreatorKeepsDeleter(w: World, pc: PC, creator: CreatorStep)
    requires !CreatorMove(w, pc, creator).Stuck?
    ensures var move := CreatorMove(w, pc, creator);
            && (DeleteReturned in move.w.h <==> DeleteReturned in w.h)
            && (DeleteCalled in move.w.h <==> DeleteCalled in w.h)
            && !IsDeleter(pc) && !IsDeleter(move.pc)
  {
  }

  lemma MoveKeepsDeleter(w: World, pc: PC, step: Step)
    requires !MoveOf(w, pc, step).Stuck? && (IsDeleter(pc) ==> DeleteCalled in w.h && DeleteReturned !in w.h)
    ensures var move := MoveOf(w, pc, step);
            Tally(IsDeleter(move.pc)) + Tally(DeleteReturned in move.w.h) + Tally(DeleteCalled in w.h) ==
            Tally(IsDeleter(pc)) + Tally(DeleteReturned in w.h) + Tally(DeleteCalled in move.w.h)
  {
    match step
    case Calls(t, call) => if pc.Outside? { CallKeepsDeleter(w, t, call); }
    case Creates(_, creator) => CreatorKeepsDeleter(w, pc, creator);
    case Submits(t, submitter) => SubmitterIsOnlyThat(w, t, pc, submitter);
    case Works(t, worker) => WorkerIsOnlyThat(w, t, pc, worker);
    case Closes(t, closer) => CloserKeepsDeleter(w, t, pc, closer);
  }

  /** A thread that is somewhere is counted there. */
  lemma SomebodyThere(pcs: map<Tid, PC>, t: Tid, p: PC -> bool)
    requires p(PcOf(pcs, t)) && !p(Outside)
    ensures |Where(pcs, p)| >= 1
  {
    assert t in Where(pcs, p);
  }

  ghost predicate Counted(s: State) {
    && SubmittersCounted(s)
    && WorkersCounted(s)
    && OneConstructor(s)
    && OneFirstShutdown(s)
    && OneDeleter(s)
  }

  lemma StepKeepsSubmitters(s: State, step: Step)
    requires SubmittersCounted(s)
    ensures SubmittersCounted(Next(s, step))
  {
    var pc := PcOf(s.pcs, step.t);
    if InSubmitWindow(pc) { SomebodyThere(s.pcs, step.t, InSubmitWindow); }
    if !MoveOf(s.w, pc, step).Stuck? { MoveCountsSubmitters(s.w, pc, step); }
    StepCounts(s, step, InSubmitWindow);
  }

  lemma StepKeepsWorkers(s: State, step: Step)
    requires WorkersCounted(s)
    ensures WorkersCounted(Next(s, step))
  {
    var pc := PcOf(s.pcs, step.t);
    if CountsAsWorker(pc) { SomebodyThere(s.pcs, step.t, CountsAsWorker); }
    if !MoveOf(s.w, pc, step).Stuck? {
      MoveCountsWorkers(s.w, pc, step);
      MoveRespectsLimit(s.w, pc, step);
    }
    StepCounts(s, step, CountsAsWorker);
  }

  lemma StepKeepsConstructor(s: State, step: Step)
    requires OneConstructor(s)
    ensures OneConstructor(Next(s, step))
  {
    var pc := PcOf(s.pcs, step.t);
    if IsConstructor(pc) { SomebodyThere(s.pcs, step.t, IsConstructor); }
    if !MoveOf(s.w, pc, step).Stuck? { MoveKeepsConstructor(s.w, pc, step); }
    StepCounts(s, step, IsConstructor);
  }

  lemma StepKeepsFirstShutdown(s: State, step: Step)
    requires OneFirstShutdown(s)
    ensures OneFirstShutdown(Next(s, step))
  {
    var pc := PcOf(s.pcs, step.t);
    if IsFirstShutdown(pc) { SomebodyThere(s.pcs, step.t, IsFirstShutdown); }
    if !MoveOf(s.w, pc, step).Stuck? { MoveKeepsFirstShutdown(s.w, pc, step); }
    StepCounts(s, step, IsFirstShutdown);
  }

  lemma StepKeepsDeleter(s: State, step: Step)
    requires OneDeleter(s)
    ensures OneDeleter(Next(s, step))
  {
    var pc := PcOf(s.pcs, step.t);
    if IsDeleter(pc) { SomebodyThere(s.pcs, step.t, IsDeleter); }
    if !MoveOf(s.w, pc, step).Stuck? { MoveKeepsDeleter(s.w, pc, step); }
    StepCounts(s, step, IsDeleter);
  }

  lemma StepKeepsCounted(s: State, step: Step)
    requires Counted(s)
    ensures Counted(Next(s, step))
  {
    StepKeepsSubmitters(s, step);
    StepKeepsWorkers(s, step);
    StepKeepsConstructor(s, step);
    StepKeepsFirstShutdown(s, step);
    StepKeepsDeleter(s, step);
  }

  lemma InitCounted(cfg: Config)
    ensures Counted(Init(cfg))
  {
    var pcs := Init(cfg).pcs;
    assert Where(pcs, IsConstructor) == {CONSTRUCTOR};
    assert Where(pcs, InSubmitWindow) == Where(pcs, CountsAsWorker) == {};
    assert Where(pcs, IsFirstShutdown) == Where(pcs, IsDeleter) == {};
  }
}
