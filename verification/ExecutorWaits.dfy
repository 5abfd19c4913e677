/**
 Who waits where in the executor, and why: every thread in a condition variable is at the
 matching program counter, and a sleeper always has something to wait for.
 */
module ExecutorWaits {
  import opened Base
  import opened CondVars
  import opened QueueTypes
  import opened JobQueue
  import opened Executor
  import opened Threads

  predicate BlockedOnFull(pc: PC) { pc.SubmitBlocked? }
  predicate BlockedOnEmpty(pc: PC) { pc.WorkerBlocked? }
  predicate BlockedInShutdown(pc: PC) { pc.ShutdownBlocked? }
  predicate BlockedInWait(pc: PC) { pc.WaitBlocked? }

  /** A set after thread t has come in, or has left or stayed away. */
  function With(waiting: set<Tid>, t: Tid, waits: bool): set<Tid> {
    if waits then waiting + {t} else waiting - {t}
  }

  /** The queue is sound, and closed exactly when shutdown was requested. */
  ghost predicate QueueOk(m: Memory) {
    m.jobQ.Sound() && m.jobQ.Closed() == m.shutdownRequested
  }

  /** t waits on the queue exactly when its program counter says so. */
  ghost predicate QueueSees(m: Memory, t: Tid, pc: PC) {
    && (t in m.jobQ.Full().waiting <==> BlockedOnFull(pc))
    && (t in m.jobQ.Empty().waiting <==> BlockedOnEmpty(pc))
  }

  ghost predicate QueueMoves(m: Memory, t: Tid, m': Memory, pc': PC) {
    && QueueOk(m')
    && m'.jobQ.Full().waiting == With(m.jobQ.Full().waiting, t, BlockedOnFull(pc'))
    && m'.jobQ.Empty().waiting == With(m.jobQ.Empty().waiting, t, BlockedOnEmpty(pc'))
  }

  lemma PushEndsMoves(w: World, t: Tid, j: JobId, full: CondVar, waitError: bool, r: (JobQueue<JobId>, PushOutcome))
    requires QueueOk(w.m) && t !in w.m.jobQ.Empty().waiting
    requires full.waiting == w.m.jobQ.Full().waiting - {t}
    requires PushEffect(w.m.jobQ, full, t, j, waitError, r.0, r.1)
    ensures QueueMoves(w.m, t, PushEnds(w, j, r).w.m, PushEnds(w, j, r).pc)
  {
  }

  lemma WorkerPopEndsMoves(w: World, t: Tid, empty: CondVar, waitError: bool, r: (JobQueue<JobId>, PopOutcome<JobId>))
    requires QueueOk(w.m) && t !in w.m.jobQ.Full().waiting
    requires empty.waiting == w.m.jobQ.Empty().waiting - {t}
    requires PopEffect(w.m.jobQ, empty, t, waitError, r.0, r.1)
    ensures QueueMoves(w.m, t, WorkerPopEnds(w, r).w.m, WorkerPopEnds(w, r).pc)
  {
  }

  /** Discarding never sleeps: the pop is NON_BLOCKING. */
  lemma DiscardPopEndsMoves(w: World, t: Tid, who: Discarder, r: (JobQueue<JobId>, PopOutcome<JobId>))
    requires QueueOk(w.m) && t !in w.m.jobQ.Full().waiting && t !in w.m.jobQ.Empty().waiting
    requires PopEffect(w.m.jobQ, w.m.jobQ.Empty(), t, true, r.0, r.1)
    ensures QueueMoves(w.m, t, DiscardPopEnds(w, who, r).w.m, DiscardPopEnds(w, who, r).pc)
  {
  }

  /** A move that leaves the queue alone, between places outside the queue. */
  lemma QueueRests(m: Memory, t: Tid, pc: PC, m': Memory, pc': PC)
    requires QueueOk(m) && QueueSees(m, t, pc) && m'.jobQ == m.jobQ && m'.shutdownRequested == m.shutdownRequested
    requires !BlockedOnFull(pc) && !BlockedOnEmpty(pc) && !BlockedOnFull(pc') && !BlockedOnEmpty(pc')
    ensures QueueMoves(m, t, m', pc')
  {
  }

  lemma SubmitterMovesQueue(w: World, t: Tid, pc: PC, step: SubmitterStep)
    requires QueueOk(w.m) && QueueSees(w.m, t, pc) && !SubmitterMove(w, t, pc, step).Stuck?
    ensures var move := SubmitterMove(w, t, pc, step); QueueMoves(w.m, t, move.w.m, move.pc)
  {
    var move := SubmitterMove(w, t, pc, step);
    match step
    case PushCalled(choice) =>
      PushHasEffect(w.m.jobQ, t, pc.j, false, choice);
      PushEndsMoves(w, t, pc.j, w.m.jobQ.Full(), false, Push(w.m.jobQ, t, pc.j, false, choice));
    case PushWakes(timedOut, choice) =>
      PushWakeHasEffect(w.m.jobQ, t, pc.j, timedOut, choice);
      PushEndsMoves(w, t, pc.j, w.m.jobQ.Full().Leave(t), timedOut, PushWake(w.m.jobQ, t, pc.j, timedOut, choice));
    case _ => QueueRests(w.m, t, pc, move.w.m, move.pc);
  }

  lemma WorkerMovesQueue(w: World, t: Tid, pc: PC, step: WorkerStep)
    requires QueueOk(w.m) && QueueSees(w.m, t, pc) && !WorkerMove(w, t, pc, step).Stuck?
    ensures var move := WorkerMove(w, t, pc, step); QueueMoves(w.m, t, move.w.m, move.pc)
  {
    var move := WorkerMove(w, t, pc, step);
    match step
    case Pops(choice) =>
      PopHasEffect(w.m.jobQ, t, false, choice);
      WorkerPopEndsMoves(w, t, w.m.jobQ.Empty(), false, Pop(w.m.jobQ, t, false, choice));
    case PopWakes(timedOut, choice) =>
      PopWakeHasEffect(w.m.jobQ, t, timedOut, choice);
      WorkerPopEndsMoves(w, t, w.m.jobQ.Empty().Leave(t), timedOut, PopWake(w.m.jobQ, t, timedOut, choice));
    case _ => QueueRests(w.m, t, pc, move.w.m, move.pc);
  }

  lemma CloserMovesQueue(w: World, t: Tid, pc: PC, step: CloserStep)
    requires QueueOk(w.m) && QueueSees(w.m, t, pc) && !CloserMove(w, t, pc, step).Stuck?
    ensures var move := CloserMove(w, t, pc, step); QueueMoves(w.m, t, move.w.m, move.pc)
  {
    var move := CloserMove(w, t, pc, step);
    match step
    case DiscardPops(choice) =>
      PopHasEffect(w.m.jobQ, t, true, choice);
      DiscardPopEndsMoves(w, t, pc.who, Pop(w.m.jobQ, t, true, choice));
    case _ => QueueRests(w.m, t, pc, move.w.m, move.pc);
  }

  lemma CallMovesQueue(w: World, t: Tid, call: Call)
    requires QueueOk(w.m) && QueueSees(w.m, t, Outside) && !CallMove(w, t, call).Stuck?
    ensures var move := CallMove(w, t, call); QueueMoves(w.m, t, move.w.m, move.pc)
  {
    var move := CallMove(w, t, call);
    if call.Shutdown? && !w.m.shutdownRequested {
      CloseHasEffect(w.m.jobQ);
      assert move.w.m.jobQ == CloseSection(w.m.jobQ) && move.w.m.shutdownRequested;
    } else {
      QueueRests(w.m, t, Outside, move.w.m, move.pc);
    }
  }

  lemma CreatorMovesQueue(w: World, t: Tid, pc: PC, step: CreatorStep)
    requires QueueOk(w.m) && QueueSees(w.m, t, pc) && !CreatorMove(w, pc, step).Stuck?
    ensures var move := CreatorMove(w, pc, step); QueueMoves(w.m, t, move.w.m, move.pc)
  {
    var move := CreatorMove(w, pc, step);
    QueueRests(w.m, t, pc, move.w.m, move.pc);
  }

  lemma MoveMovesQueue(w: World, pc: PC, step: Step)
    requires QueueOk(w.m) && QueueSees(w.m, step.t, pc) && !MoveOf(w, pc, step).Stuck?
    ensures var move := MoveOf(w, pc, step); QueueMoves(w.m, step.t, move.w.m, move.pc)
  {
    match step
    case Calls(t, call) => CallMovesQueue(w, t, call);
    case Creates(t, creator) => CreatorMovesQueue(w, t, pc, creator);
    case Submits(t, submitter) => SubmitterMovesQueue(w, t, pc, submitter);
    case Works(t, worker) => WorkerMovesQueue(w, t, pc, worker);
    case Closes(t, closer) => CloserMovesQueue(w, t, pc, closer);
  }

  // ---- the executor's own condition variables ----

  /** Those who sleep until a count is zero sleep because it is not. */
  ghost predicate CountersOk(m: Memory) {
    && m.submittersUntilZero.Valid()
    && m.workersUntilZero.Valid()
    && (m.submittersUntilZero.asleep != {} ==> m.submitters > 0)
    && (m.workersUntilZero.asleep != {} ==> m.activeWorkers > 0)
    && (m.submittersUntilZero.waiting != {} ==> m.shutdownRequested)
  }

  ghost predicate CountersSee(m: Memory, t: Tid, pc: PC) {
    && (t in m.submittersUntilZero.waiting <==> BlockedInShutdown(pc))
    && (t in m.workersUntilZero.waiting <==> BlockedInWait(pc))
  }

  ghost predicate CountersMove(m: Memory, t: Tid, m': Memory, pc': PC) {
    && CountersOk(m')
    && m'.submittersUntilZero.waiting == With(m.submittersUntilZero.waiting, t, BlockedInShutdown(pc'))
    && m'.workersUntilZero.waiting == With(m.workersUntilZero.waiting, t, BlockedInWait(pc'))
  }

  lemma CloserMovesCounters(w: World, t: Tid, pc: PC, step: CloserStep)
    requires CountersOk(w.m) && CountersSee(w.m, t, pc) && !CloserMove(w, t, pc, step).Stuck?
    ensures var move := CloserMove(w, t, pc, step); CountersMove(w.m, t, move.w.m, move.pc)
  {
    match step
    case ShutdownWakes =>
    case DiscardLooks =>
    case DiscardPops(_) =>
    case DiscardCancels =>
    case WaitLooks =>
    case WaitWakes =>
  }

  lemma CallMovesCounters(w: World, t: Tid, call: Call)
    requires CountersOk(w.m) && CountersSee(w.m, t, Outside) && !CallMove(w, t, call).Stuck?
    ensures var move := CallMove(w, t, call); CountersMove(w.m, t, move.w.m, move.pc)
  {
    match call
    case Submit =>
    case Shutdown(_) =>
    case Wait(_) =>
  }

  /** A counter that is not zero yet, or everybody woken, is all that a sleeper asks for. */
  lemma SubmitterMovesCounters(w: World, t: Tid, pc: PC, step: SubmitterStep)
    requires CountersOk(w.m) && CountersSee(w.m, t, pc) && !SubmitterMove(w, t, pc, step).Stuck?
    ensures var move := SubmitterMove(w, t, pc, step); CountersMove(w.m, t, move.w.m, move.pc)
  {
  }

  lemma WorkerMovesCounters(w: World, t: Tid, pc: PC, step: WorkerStep)
    requires CountersOk(w.m) && CountersSee(w.m, t, pc) && !WorkerMove(w, t, pc, step).Stuck?
    ensures var move := WorkerMove(w, t, pc, step); CountersMove(w.m, t, move.w.m, move.pc)
  {
  }

  lemma MoveMovesCounters(w: World, pc: PC, step: Step)
    requires CountersOk(w.m) && CountersSee(w.m, step.t, pc) && !MoveOf(w, pc, step).Stuck?
    ensures var move := MoveOf(w, pc, step); CountersMove(w.m, step.t, move.w.m, move.pc)
  {
    match step
    case Calls(t, call) => CallMovesCounters(w, t, call);
    case Creates(_, _) =>
    case Submits(t, submitter) => SubmitterMovesCounters(w, t, pc, submitter);
    case Works(t, worker) => WorkerMovesCounters(w, t, pc, worker);
    case Closes(t, closer) => CloserMovesCounters(w, t, pc, closer);
  }

  // ---- all threads together ----

  lemma WherePlaced(pcs: map<Tid, PC>, t: Tid, pc: PC, p: PC -> bool)
    requires !p(Outside)
    ensures Where(Place(pcs, t, pc), p) == With(Where(pcs, p), t, p(pc))
  {
  }

  /** Each condition variable holds exactly the threads that are blocked on it. */
  ghost predicate QueueLinked(s: State) {
    && QueueOk(s.w.m)
    && s.w.m.jobQ.Full().waiting == Where(s.pcs, BlockedOnFull)
    && s.w.m.jobQ.Empty().waiting == Where(s.pcs, BlockedOnEmpty)
  }

  ghost predicate CountersLinked(s: State) {
    && CountersOk(s.w.m)
    && s.w.m.submittersUntilZero.waiting == Where(s.pcs, BlockedInShutdown)
    && s.w.m.workersUntilZero.waiting == Where(s.pcs, BlockedInWait)
  }

  /** Where the threads are after a step, for a place that no new worker is at. */
  lemma WhereAfterStep(s: State, step: Step, p: PC -> bool)
    requires !p(Outside) && !p(WorkerPop)
    ensures var move := MoveOf(s.w, PcOf(s.pcs, step.t), step);
            Next(s, step) == s || (
              && !move.Stuck?
              && Next(s, step).w == move.w
              && Where(Next(s, step).pcs, p) == With(Where(s.pcs, p), step.t, p(move.pc)))
  {
    match MoveOf(s.w, PcOf(s.pcs, step.t), step)
    case Stuck =>
    case Goes(_, pc) => WherePlaced(s.pcs, step.t, pc, p);
    case Spawns(_, pc, worker) =>
      WherePlaced(s.pcs, step.t, pc, p);
      WherePlaced(Place(s.pcs, step.t, pc), worker, WorkerPop, p);
      assert worker !in s.pcs ==> worker !in Where(s.pcs, p);
      var moved := With(Where(s.pcs, p), step.t, p(pc));
      assert worker !in s.pcs ==> With(moved, worker, false) == moved;
  }

  lemma StepKeepsQueueLinked(s: State, step: Step)
    requires QueueLinked(s)
    ensures QueueLinked(Next(s, step))
  {
    var pc := PcOf(s.pcs, step.t);
    WhereAfterStep(s, step, BlockedOnFull);
    WhereAfterStep(s, step, BlockedOnEmpty);
    if !MoveOf(s.w, pc, step).Stuck? { MoveMovesQueue(s.w, pc, step); }
  }

  lemma StepKeepsCountersLinked(s: State, step: Step)
    requires CountersLinked(s)
    ensures CountersLinked(Next(s, step))
  {
    var pc := PcOf(s.pcs, step.t);
    WhereAfterStep(s, step, BlockedInShutdown);
    WhereAfterStep(s, step, BlockedInWait);
    if !MoveOf(s.w, pc, step).Stuck? { MoveMovesCounters(s.w, pc, step); }
  }

  lemma InitLinked(cfg: Config)
    requires ConfigOk(cfg)
    ensures QueueLinked(Init(cfg)) && CountersLinked(Init(cfg))
  {
    var pcs := Init(cfg).pcs;
    assert Where(pcs, BlockedOnFull) == Where(pcs, BlockedOnEmpty) == {};
    assert Where(pcs, BlockedInShutdown) == Where(pcs, BlockedInWait) == {};
  }
}
