/**
 The shutdown protocol cannot deadlock: whatever state it has got into, the threads that
 are inside can always go on until the shutdown, the wait and the deletion have returned.
 */
module ExecutorProgress {
  import opened Base
  import opened CondVars
  import opened QueueTypes
  import opened JobQueue
  import opened Executor
  import opened ExecutorCounts
  import opened ExecutorWaits
  import opened ExecutorPhases
  import opened ExecutorTheorems
  import opened Threads
  import Runs

  /**
   What the libraries, the clock and the users' functions decide: whether a job can be created
   and a worker started, whether a wait ends because its time is over, how many free slots a
   shrinking array list keeps, and what a job function returns.
   */
  datatype Luck = Luck(createsJobs: bool, startsWorkers: bool, timesOut: bool, slack: nat, output: Ptr)

  /** A strategy decides anew in every state. */
  type Strategy = State -> Luck

  /** The step is one of a thread that already is inside, and turns out as decided. */
  predicate Decided(w: World, step: Step, luck: Luck) {
    match step
    case Calls(_, _) => false
    case Creates(_, WorkerStarts(_)) => luck.startsWorkers
    case Creates(_, WorkerDoesNotStart) => !luck.startsWorkers || w.cfg.emptyTimeout == NON_BLOCKING
    case Submits(_, JobCreated(_, _)) => luck.createsJobs
    case Submits(_, JobNotCreated) => !luck.createsJobs
    case Submits(_, PushWakes(timedOut, _)) => timedOut == luck.timesOut
    case Works(_, Pops(choice)) => choice == ShrinkingChoice(w.m.jobQ, {}, luck.slack)
    case Works(_, PopWakes(timedOut, choice)) =>
      // a BLOCKING wait never times out
      && timedOut == (luck.timesOut && w.cfg.emptyTimeout != BLOCKING)
      && choice == ShrinkingChoice(w.m.jobQ, {}, luck.slack)
    case Works(_, Ends(output)) => output == luck.output
    case Closes(_, DiscardPops(choice)) => choice == ShrinkingChoice(w.m.jobQ, {}, luck.slack)
    case _ => true
  }

  /** Every step of the schedule really is made, by a thread that already is inside, and turns out as decided. */
  predicate Follows(s: State, schedule: seq<Step>, strategy: Strategy)
    decreases |schedule|
  {
    schedule == [] ||
    (&& Decided(s.w, schedule[0], strategy(s))
     && Next(s, schedule[0]) != s
     && Follows(Next(s, schedule[0]), schedule[1..], strategy))
  }

  lemma FollowsFirst(s: State, step: Step, rest: seq<Step>, strategy: Strategy)
    requires Decided(s.w, step, strategy(s)) && Next(s, step) != s && Follows(Next(s, step), rest, strategy)
    ensures Follows(s, [step] + rest, strategy)
  {
    assert ([step] + rest)[1..] == rest;
  }

  lemma {:induction false} FollowsConcat(s: State, first: seq<Step>, second: seq<Step>, strategy: Strategy)
    requires Follows(s, first, strategy) && Follows(Runs.After(Next, s, first), second, strategy)
    ensures Follows(s, first + second, strategy)
    decreases |first|
  {
    if first == [] {
      assert first + second == second;
    } else {
      assert (first + second)[1..] == first[1..] + second;
      FollowsConcat(Next(s, first[0]), first[1..], second, strategy);
    }
  }

  // ---- submitters ----

  /** How many more steps a submitter makes at most, once a shutdown was requested. */
  function SubmitRank(pc: PC): nat {
    match pc
    case SubmitNew => 8
    case SubmitPush(_) => 7
    case SubmitBlocked(_) => 7
    case SubmitPushed => 6
    case SubmitSawNoWaiters => 5
    case CreateEnter(BySubmitter) => 4
    case CreateReserved(BySubmitter) => 3
    case CreateStarted(BySubmitter) => 2
    case CreateFailed(BySubmitter) => 2
    case SubmitExit => 1
    case _ => 0
  }

  /** Whatever a submitter does after the close brings it nearer to its exit. */
  lemma SubmitterAdvances(w: World, pc: PC, step: Step)
    requires QueueOk(w.m) && QueueSees(w.m, step.t, pc) && w.m.shutdownRequested
    requires InSubmitWindow(pc) && !MoveOf(w, pc, step).Stuck?
    ensures SubmitRank(MoveOf(w, pc, step).pc) < SubmitRank(pc)
    ensures InSubmitWindow(MoveOf(w, pc, step).pc) || MoveOf(w, pc, step).pc.Outside?
  {
    match step
    case Calls(_, _) =>
    case Creates(_, _) =>
    case Submits(t, submitter) =>
      if submitter.PushCalled? && pc.SubmitPush? {
        PushHasEffect(w.m.jobQ, t, pc.j, false, submitter.choice);
      } else if submitter.PushWakes? && pc.SubmitBlocked? {
        PushWakeHasEffect(w.m.jobQ, t, pc.j, submitter.timedOut, submitter.choice);
      }
    case Works(_, _) =>
    case Closes(_, _) =>
  }

  /** The next step of a submitter; a worker that it starts is thread `worker`. */
  function SubmitterStepAt(w: World, t: Tid, pc: PC, luck: Luck, worker: Tid): Step {
    match pc
    case SubmitNew => Submits(t, if luck.createsJobs then JobCreated(None, false) else JobNotCreated)
    case SubmitPush(_) => Submits(t, PushCalled(QuietChoice(w.m.jobQ)))
    case SubmitBlocked(_) => Submits(t, PushWakes(luck.timesOut, QuietChoice(w.m.jobQ)))
    case SubmitPushed => Submits(t, CountsWaiters)
    case SubmitSawNoWaiters => Submits(t, LooksAtQueue)
    case CreateEnter(_) => Creates(t, CreateBegins)
    case CreateReserved(_) =>
      if luck.startsWorkers && w.cfg.emptyTimeout != NON_BLOCKING then Creates(t, WorkerStarts(worker))
      else Creates(t, WorkerDoesNotStart)
    case CreateStarted(_) => Creates(t, CreateEnds)
    case CreateFailed(_) => Creates(t, CreateEnds)
    case _ => Submits(t, SubmitEnds)
  }

  /** A submitter is never stuck after the close, whatever is decided. */
  lemma SubmitterCanMove(w: World, t: Tid, pc: PC, luck: Luck, worker: Tid)
    requires QueueOk(w.m) && QueueSees(w.m, t, pc) && w.m.shutdownRequested && InSubmitWindow(pc)
    ensures var move := MoveOf(w, pc, SubmitterStepAt(w, t, pc, luck, worker));
            && Decided(w, SubmitterStepAt(w, t, pc, luck, worker), luck)
            && !move.Stuck? && (move.Spawns? ==> move.worker == worker)
            && w.h <= move.w.h <= w.h + {WorkerStarted} && move.w.m.shutdownRequested
  {
    ClosedQueueMayBeQuiet(w.m.jobQ, luck.slack);
  }

  /** Nobody but thread t has moved, or been joined. */
  ghost predicate OnlyMoved(s: State, s': State, t: Tid) {
    forall u | u != t :: PcOf(s'.pcs, u) == PcOf(s.pcs, u)
  }

  /** Nobody but thread t has moved, except for workers that have been started. */
  ghost predicate OnlyMovedOrStarted(s: State, s': State, t: Tid) {
    forall u | u != t ::
      PcOf(s'.pcs, u) == PcOf(s.pcs, u) || (PcOf(s.pcs, u) == Outside && PcOf(s'.pcs, u) == WorkerPop)
  }

  lemma MovesCompose(s: State, s': State, s'': State, t: Tid)
    requires OnlyMovedOrStarted(s, s', t) && OnlyMovedOrStarted(s', s'', t)
    ensures OnlyMovedOrStarted(s, s'', t)
  {
    forall u | u != t
      ensures PcOf(s''.pcs, u) == PcOf(s.pcs, u) || (PcOf(s.pcs, u) == Outside && PcOf(s''.pcs, u) == WorkerPop)
    {
      assert PcOf(s'.pcs, u) == PcOf(s.pcs, u) || PcOf(s'.pcs, u) == WorkerPop;
    }
  }

  /** The threads that are inside, but not at one of these places, are where they were. */
  ghost predicate Undisturbed(s: State, s': State, p: PC -> bool) {
    forall u | PcOf(s.pcs, u) != Outside && !p(PcOf(s.pcs, u)) :: PcOf(s'.pcs, u) == PcOf(s.pcs, u)
  }

  /** First thread t has left, and then others from these places. */
  lemma OthersUndisturbed(s: State, s': State, s'': State, t: Tid, p: PC -> bool)
    requires OnlyMovedOrStarted(s, s', t) && p(PcOf(s.pcs, t)) && Undisturbed(s', s'', p)
    ensures Undisturbed(s, s'', p)
  {
    forall u | PcOf(s.pcs, u) != Outside && !p(PcOf(s.pcs, u)) ensures PcOf(s''.pcs, u) == PcOf(s.pcs, u) {
      assert u != t && PcOf(s'.pcs, u) == PcOf(s.pcs, u);
    }
  }

  /** One step of a thread that starts no worker. */
  lemma FirstStep(s: State, step: Step)
    requires MoveOf(s.w, PcOf(s.pcs, step.t), step).Goes?
    ensures var s', move := Next(s, step), MoveOf(s.w, PcOf(s.pcs, step.t), step);
            s'.w == move.w && PcOf(s'.pcs, step.t) == move.pc && OnlyMoved(s, s', step.t)
  {
  }

  /** The same for a step that may start a worker on a thread that is not in use. */
  lemma FirstStepOrStart(s: State, step: Step, worker: Tid)
    requires var move := MoveOf(s.w, PcOf(s.pcs, step.t), step);
             !move.Stuck? && (move.Spawns? ==> move.worker == worker)
    requires worker !in s.pcs && worker != step.t
    ensures var s', move := Next(s, step), MoveOf(s.w, PcOf(s.pcs, step.t), step);
            s'.w == move.w && PcOf(s'.pcs, step.t) == move.pc && OnlyMovedOrStarted(s, s', step.t)
  {
  }

  /** There always is a thread that is not in use. */
  lemma {:induction false} UnusedThread(used: set<Tid>) returns (t: Tid)
    ensures forall u | u in used :: u < t
    decreases |used|
  {
    t := 0;
    if used != {} {
      var u :| u in used;
      var rest := UnusedThread(used - {u});
      t := Max(rest, u + 1);
      forall v | v in used ensures v < t { assert v == u || v in used - {u}; }
    }
  }

  lemma InvReachesMover(s: State, t: Tid)
    requires Inv(s)
    ensures QueueOk(s.w.m) && QueueSees(s.w.m, t, PcOf(s.pcs, t))
  {
    CountsReachMover(s, t);
  }

  /** One step of a submitter on its way out. */
  lemma SubmitterGoesOn(s: State, t: Tid, luck: Luck) returns (step: Step)
    requires Inv(s) && s.w.m.shutdownRequested && InSubmitWindow(PcOf(s.pcs, t))
    ensures var s' := Next(s, step);
            && Inv(s') && OnlyMovedOrStarted(s, s', t) && s'.w.m.shutdownRequested
            && s.w.h <= s'.w.h <= s.w.h + {WorkerStarted}
            && SubmitRank(PcOf(s'.pcs, t)) < SubmitRank(PcOf(s.pcs, t))
            && (InSubmitWindow(PcOf(s'.pcs, t)) || PcOf(s'.pcs, t) == Outside)
            && Decided(s.w, step, luck)
  {
    var pc := PcOf(s.pcs, t);
    var worker := UnusedThread(s.pcs.Keys + {t});
    step := SubmitterStepAt(s.w, t, pc, luck, worker);
    InvReachesMover(s, t);
    SubmitterCanMove(s.w, t, pc, luck, worker);
    SubmitterAdvances(s.w, pc, step);
    StepKeepsInv(s, step);
    FirstStepOrStart(s, step, worker);
  }

  lemma {:induction false} SubmitterLeaves(s: State, t: Tid, strategy: Strategy) returns (schedule: seq<Step>)
    requires Inv(s) && s.w.m.shutdownRequested && InSubmitWindow(PcOf(s.pcs, t))
    ensures var s' := Runs.After(Next, s, schedule);
            && Inv(s') && OnlyMovedOrStarted(s, s', t) && PcOf(s'.pcs, t) == Outside
            && s.w.h <= s'.w.h <= s.w.h + {WorkerStarted} && s'.w.m.shutdownRequested
    ensures Follows(s, schedule, strategy)
    decreases SubmitRank(PcOf(s.pcs, t))
  {
    var step := SubmitterGoesOn(s, t, strategy(s));
    var s' := Next(s, step);
    var rest := [];
    if PcOf(s'.pcs, t) != Outside {
      rest := SubmitterLeaves(s', t, strategy);
      MovesCompose(s, s', Runs.After(Next, s', rest), t);
    }
    Runs.AfterFirst(Next, s, step, rest);
    FollowsFirst(s, step, rest, strategy);
    schedule := [step] + rest;
  }

  /** A set of places loses exactly the thread that has left them. */
  lemma OneFewer(s: State, s': State, t: Tid, p: PC -> bool)
    requires !p(Outside) && p(PcOf(s.pcs, t)) && !p(PcOf(s'.pcs, t))
    requires OnlyMoved(s, s', t) || (OnlyMovedOrStarted(s, s', t) && !p(WorkerPop))
    ensures |Where(s'.pcs, p)| == |Where(s.pcs, p)| - 1
  {
    forall u ensures u in Where(s'.pcs, p) <==> u in Where(s.pcs, p) - {t} {
      if u != t { assert p(PcOf(s'.pcs, u)) <==> p(PcOf(s.pcs, u)); }
    }
    assert Where(s'.pcs, p) == Where(s.pcs, p) - {t};
  }

  lemma SubmitterInside(s: State) returns (t: Tid)
    requires Inv(s) && s.w.m.submitters > 0
    ensures InSubmitWindow(PcOf(s.pcs, t))
  {
    t :| t in Where(s.pcs, InSubmitWindow);
  }

  lemma OneSubmitterFewer(s: State, s': State, t: Tid)
    requires Inv(s) && Inv(s') && OnlyMovedOrStarted(s, s', t)
    requires InSubmitWindow(PcOf(s.pcs, t)) && PcOf(s'.pcs, t) == Outside
    ensures s'.w.m.submitters < s.w.m.submitters
  {
    OneFewer(s, s', t, InSubmitWindow);
  }

  lemma {:induction false} AllSubmittersLeave(s: State, strategy: Strategy) returns (schedule: seq<Step>)
    requires Inv(s) && s.w.m.shutdownRequested
    ensures var s' := Runs.After(Next, s, schedule);
            && Inv(s') && s.w.h <= s'.w.h <= s.w.h + {WorkerStarted}
            && s'.w.m.shutdownRequested && s'.w.m.submitters == 0
            && Undisturbed(s, s', InSubmitWindow)
    ensures Follows(s, schedule, strategy)
    decreases s.w.m.submitters
  {
    if s.w.m.submitters == 0 {
      schedule := [];
    } else {
      var t := SubmitterInside(s);
      var first := SubmitterLeaves(s, t, strategy);
      var s' := Runs.After(Next, s, first);
      OneSubmitterFewer(s, s', t);
      var rest := AllSubmittersLeave(s', strategy);
      Runs.AfterConcat(Next, s, first, rest);
      FollowsConcat(s, first, rest, strategy);
      OthersUndisturbed(s, s', Runs.After(Next, s', rest), t, InSubmitWindow);
      schedule := first + rest;
    }
  }

  // ---- discarding ----

  predicate Discarding(pc: PC) {
    pc.DiscardLook? || pc.DiscardPop? || pc.DiscardTook?
  }

  function DiscardRank(pc: PC, queued: nat): nat {
    match pc
    case DiscardLook(_) => 3 * queued + 1
    case DiscardPop(_) => if queued == 0 then 2 else 3 * queued
    case DiscardTook(_, _) => 3 * queued + 2
    case _ => 0
  }

  function DiscarderStepAt(q: JobQueue<JobId>, t: Tid, pc: PC, luck: Luck): Step {
    match pc
    case DiscardLook(_) => Closes(t, DiscardLooks)
    case DiscardPop(_) => Closes(t, DiscardPops(ShrinkingChoice(q, {}, luck.slack)))
    case _ => Closes(t, DiscardCancels)
  }

  function Finished(who: Discarder): Fact {
    match who
    case ByShutdown => ShutdownReturned
    case ByDelete => DeleteReturned
  }

  /** A discarder can always go on, and so comes nearer to an empty queue and to its return. */
  lemma DiscarderAdvances(w: World, t: Tid, pc: PC, luck: Luck)
    requires QueueOk(w.m) && QueueSees(w.m, t, pc) && w.m.shutdownRequested && Discarding(pc)
    ensures var move := MoveOf(w, pc, DiscarderStepAt(w.m.jobQ, t, pc, luck));
            && Decided(w, DiscarderStepAt(w.m.jobQ, t, pc, luck), luck)
            && move.Goes? && w.h <= move.w.h && move.w.m.shutdownRequested
            && (if Discarding(move.pc) then
                  move.pc.who == pc.who &&
                  DiscardRank(move.pc, |move.w.m.jobQ.Items()|) < DiscardRank(pc, |w.m.jobQ.Items()|)
                else move.pc.Outside? && Finished(pc.who) in move.w.h)
  {
    ClosedQueueMayBeQuiet(w.m.jobQ, luck.slack);
    PopHasEffect(w.m.jobQ, t, true, ShrinkingChoice(w.m.jobQ, {}, luck.slack));
  }

  lemma {:induction false} DiscarderReturns(s: State, t: Tid, strategy: Strategy) returns (schedule: seq<Step>)
    requires Inv(s) && s.w.m.shutdownRequested && Discarding(PcOf(s.pcs, t))
    ensures var s' := Runs.After(Next, s, schedule);
            && Inv(s') && OnlyMoved(s, s', t) && PcOf(s'.pcs, t) == Outside
            && s.w.h + {Finished(PcOf(s.pcs, t).who)} <= s'.w.h
    ensures Follows(s, schedule, strategy)
    decreases DiscardRank(PcOf(s.pcs, t), |s.w.m.jobQ.Items()|)
  {
    var pc := PcOf(s.pcs, t);
    var step := DiscarderStepAt(s.w.m.jobQ, t, pc, strategy(s));
    InvReachesMover(s, t);
    DiscarderAdvances(s.w, t, pc, strategy(s));
    StepKeepsInv(s, step);
    var s' := Next(s, step);
    FirstStep(s, step);
    var rest := [];
    if Discarding(PcOf(s'.pcs, t)) { rest := DiscarderReturns(s', t, strategy); }
    Runs.AfterFirst(Next, s, step, rest);
    FollowsFirst(s, step, rest, strategy);
    schedule := [step] + rest;
  }

  // ---- the shutdown ----

  /** The first shutdown, woken when no submitter is left, returns or starts to discard. */
  lemma ShutdownAdvances(w: World, t: Tid)
    requires w.m.submitters == 0
    ensures var move := MoveOf(w, ShutdownBlocked, Closes(t, ShutdownWakes));
            && move.Goes? && w.h <= move.w.h && move.w.m.shutdownRequested == w.m.shutdownRequested
            && (move.pc == DiscardLook(ByShutdown) || (move.pc == Outside && ShutdownReturned in move.w.h))
  {
  }

  lemma WokenShutdownGoesOn(s: State, t: Tid) returns (step: Step)
    requires Inv(s) && s.w.m.submitters == 0 && s.w.m.shutdownRequested && PcOf(s.pcs, t) == ShutdownBlocked
    ensures var s' := Next(s, step);
            && Inv(s') && OnlyMoved(s, s', t) && s.w.h <= s'.w.h && s'.w.m.shutdownRequested
            && (PcOf(s'.pcs, t) == DiscardLook(ByShutdown) || ShutdownReturned in s'.w.h)
            && s' != s && (forall luck :: Decided(s.w, step, luck))
  {
    step := Closes(t, ShutdownWakes);
    ShutdownAdvances(s.w, t);
    StepKeepsInv(s, step);
    FirstStep(s, step);
  }

  lemma BlockedShutdownReturns(s: State, t: Tid, strategy: Strategy) returns (schedule: seq<Step>)
    requires Inv(s) && s.w.m.submitters == 0 && s.w.m.shutdownRequested && PcOf(s.pcs, t) == ShutdownBlocked
    ensures var s' := Runs.After(Next, s, schedule);
            Inv(s') && OnlyMoved(s, s', t) && s.w.h + {ShutdownReturned} <= s'.w.h
    ensures Follows(s, schedule, strategy)
  {
    var step := WokenShutdownGoesOn(s, t);
    var rest := [];
    if ShutdownReturned !in Next(s, step).w.h { rest := DiscarderReturns(Next(s, step), t, strategy); }
    Runs.AfterFirst(Next, s, step, rest);
    FollowsFirst(s, step, rest, strategy);
    schedule := [step] + rest;
  }

  lemma ShutdownGoesOn(s: State, t: Tid, strategy: Strategy) returns (schedule: seq<Step>)
    requires Inv(s) && s.w.m.submitters == 0 && s.w.m.shutdownRequested && IsFirstShutdown(PcOf(s.pcs, t))
    ensures var s' := Runs.After(Next, s, schedule);
            Inv(s') && OnlyMoved(s, s', t) && s.w.h + {ShutdownReturned} <= s'.w.h
    ensures Follows(s, schedule, strategy)
  {
    if Discarding(PcOf(s.pcs, t)) {
      schedule := DiscarderReturns(s, t, strategy);
    } else {
      schedule := BlockedShutdownReturns(s, t, strategy);
    }
  }

  /**
   From every reachable state in which a shutdown was requested, and for every strategy, there
   is a way on to where the first shutdown has returned, on which everything turns out as the
   strategy decides and nobody calls from outside: no interleaving can deadlock the shutdown.
   */
  lemma ShutdownCanAlwaysReturn(cfg: Config, before: seq<Step>, strategy: Strategy) returns (schedule: seq<Step>)
    requires ConfigOk(cfg) && Reach(cfg, before).w.m.shutdownRequested
    ensures ShutdownReturned in Reach(cfg, before + schedule).w.h
    ensures Follows(Reach(cfg, before), schedule, strategy)
  {
    InvHolds(cfg, before);
    schedule := ShutdownReturns(Reach(cfg, before), strategy);
    Runs.AfterConcat(Next, Init(cfg), before, schedule);
  }

  /** Those who have to go before the first shutdown can return, and that shutdown itself. */
  predicate Opening(pc: PC) {
    InSubmitWindow(pc) || IsFirstShutdown(pc)
  }

  lemma ShutdownDisturbsNobody(s: State, s': State, s'': State, t: Tid)
    requires Undisturbed(s, s', InSubmitWindow) && OnlyMoved(s', s'', t) && IsFirstShutdown(PcOf(s.pcs, t))
    ensures Undisturbed(s, s'', Opening)
  {
    forall u | PcOf(s.pcs, u) != Outside && !Opening(PcOf(s.pcs, u)) ensures PcOf(s''.pcs, u) == PcOf(s.pcs, u) {
      assert u != t && PcOf(s'.pcs, u) == PcOf(s.pcs, u);
    }
  }

  lemma FirstShutdownStays(s: State, s': State, t: Tid)
    requires Undisturbed(s, s', InSubmitWindow) && IsFirstShutdown(PcOf(s.pcs, t))
    ensures PcOf(s'.pcs, t) == PcOf(s.pcs, t)
  {
  }

  lemma FirstShutdownInside(s: State) returns (t: Tid)
    requires Inv(s) && s.w.m.shutdownRequested && ShutdownReturned !in s.w.h
    ensures IsFirstShutdown(PcOf(s.pcs, t))
  {
    t :| t in Where(s.pcs, IsFirstShutdown);
  }

  lemma ShutdownReturns(s: State, strategy: Strategy) returns (schedule: seq<Step>)
    requires Inv(s) && s.w.m.shutdownRequested
    ensures var s' := Runs.After(Next, s, schedule);
            && Inv(s') && s.w.h + {ShutdownReturned} <= s'.w.h
            && Undisturbed(s, s', Opening)
    ensures Follows(s, schedule, strategy)
  {
    if ShutdownReturned in s.w.h {
      schedule := [];
    } else {
      var t := FirstShutdownInside(s);
      var first := AllSubmittersLeave(s, strategy);
      var s' := Runs.After(Next, s, first);
      FirstShutdownStays(s, s', t);
      var rest := ShutdownGoesOn(s', t, strategy);
      Runs.AfterConcat(Next, s, first, rest);
      FollowsConcat(s, first, rest, strategy);
      ShutdownDisturbsNobody(s, s', Runs.After(Next, s', rest), t);
      schedule := first + rest;
    }
  }

  // ---- workers ----

  function WorkerRank(pc: PC, queued: nat): nat {
    match pc
    case WorkerPop => 4 * queued + 2
    case WorkerBlocked => 4 * queued + 2
    case WorkerTook(_) => 4 * queued + 4
    case WorkerRunning(_) => 4 * queued + 3
    case WorkerExit => 1
    case _ => 0
  }

  function WorkerStepAt(w: World, t: Tid, pc: PC, luck: Luck): Step {
    var choice := ShrinkingChoice(w.m.jobQ, {}, luck.slack);
    match pc
    case WorkerPop => Works(t, Pops(choice))
    case WorkerBlocked => Works(t, PopWakes(luck.timesOut && w.cfg.emptyTimeout != BLOCKING, choice))
    case WorkerTook(_) => Works(t, Begins)
    case WorkerRunning(_) => Works(t, Ends(luck.output))
    case _ => Works(t, Exits)
  }

  /** What a worker's step brings it: nearer to an empty queue and to its exit. */
  ghost predicate WorkerNearer(w: World, pc: PC, move: Move) {
    && move.Goes? && w.h <= move.w.h && move.w.m.shutdownRequested
    && (IsWorker(move.pc) || move.pc.Outside?)
    && WorkerRank(move.pc, |move.w.m.jobQ.Items()|) < WorkerRank(pc, |w.m.jobQ.Items()|)
  }

  lemma WorkerPopsNearer(w: World, pc: PC, empty: CondVar, t: Tid, waitError: bool,
                         r: (JobQueue<JobId>, PopOutcome<JobId>))
    requires w.m.jobQ.Closed() && w.m.shutdownRequested && (pc.WorkerPop? || pc.WorkerBlocked?)
    requires PopEffect(w.m.jobQ, empty, t, waitError, r.0, r.1)
    ensures WorkerNearer(w, pc, WorkerPopEnds(w, r))
  {
  }

  lemma WaitingWorkerAdvances(w: World, t: Tid, luck: Luck)
    requires QueueOk(w.m) && QueueSees(w.m, t, WorkerBlocked) && w.m.shutdownRequested
    ensures WorkerNearer(w, WorkerBlocked, MoveOf(w, WorkerBlocked, WorkerStepAt(w, t, WorkerBlocked, luck)))
  {
    var choice := ShrinkingChoice(w.m.jobQ, {}, luck.slack);
    var timedOut := luck.timesOut && w.cfg.emptyTimeout != BLOCKING;
    ClosedQueueMayBeQuiet(w.m.jobQ, luck.slack);
    PopWakeHasEffect(w.m.jobQ, t, timedOut, choice);
    WorkerPopsNearer(w, WorkerBlocked, w.m.jobQ.Empty().Leave(t), t, timedOut, PopWake(w.m.jobQ, t, timedOut, choice));
  }

  /** A worker can always go on after the close, whatever is decided. */
  lemma WorkerAdvances(w: World, t: Tid, pc: PC, luck: Luck)
    requires QueueOk(w.m) && QueueSees(w.m, t, pc) && w.m.shutdownRequested && IsWorker(pc)
    ensures WorkerNearer(w, pc, MoveOf(w, pc, WorkerStepAt(w, t, pc, luck)))
  {
    match pc
    case WorkerPop =>
      var choice := ShrinkingChoice(w.m.jobQ, {}, luck.slack);
      ClosedQueueMayBeQuiet(w.m.jobQ, luck.slack);
      PopHasEffect(w.m.jobQ, t, false, choice);
      WorkerPopsNearer(w, pc, w.m.jobQ.Empty(), t, false, Pop(w.m.jobQ, t, false, choice));
    case WorkerBlocked => WaitingWorkerAdvances(w, t, luck);
    case WorkerTook(_) =>
    case WorkerRunning(_) =>
    case WorkerExit =>
  }

  lemma {:induction false} WorkerLeaves(s: State, t: Tid, strategy: Strategy) returns (schedule: seq<Step>)
    requires Inv(s) && s.w.m.shutdownRequested && IsWorker(PcOf(s.pcs, t))
    ensures var s' := Runs.After(Next, s, schedule);
            Inv(s') && OnlyMoved(s, s', t) && PcOf(s'.pcs, t) == Outside && s.w.h <= s'.w.h
    ensures Follows(s, schedule, strategy)
    decreases WorkerRank(PcOf(s.pcs, t), |s.w.m.jobQ.Items()|)
  {
    var pc := PcOf(s.pcs, t);
    var step := WorkerStepAt(s.w, t, pc, strategy(s));
    InvReachesMover(s, t);
    WorkerAdvances(s.w, t, pc, strategy(s));
    StepKeepsInv(s, step);
    var s' := Next(s, step);
    FirstStep(s, step);
    var rest := [];
    if PcOf(s'.pcs, t) != Outside { rest := WorkerLeaves(s', t, strategy); }
    Runs.AfterFirst(Next, s, step, rest);
    FollowsFirst(s, step, rest, strategy);
    schedule := [step] + rest;
  }

  /** After the first shutdown whoever counts as a worker is one: nobody is creating workers any more. */
  lemma OnlyWorkersCount(s: State, t: Tid)
    requires Inv(s) && ShutdownReturned in s.w.h && CountsAsWorker(PcOf(s.pcs, t))
    ensures IsWorker(PcOf(s.pcs, t))
  {
    CountsReachMover(s, t);
  }

  lemma {:induction false} AllWorkersLeave(s: State, strategy: Strategy) returns (schedule: seq<Step>)
    requires Inv(s) && ShutdownReturned in s.w.h
    ensures var s' := Runs.After(Next, s, schedule);
            && Inv(s') && s.w.h <= s'.w.h && s'.w.m.activeWorkers == 0
            && Undisturbed(s, s', CountsAsWorker)
    ensures Follows(s, schedule, strategy)
    decreases s.w.m.activeWorkers
  {
    if s.w.m.activeWorkers == 0 {
      schedule := [];
    } else {
      var t :| t in Where(s.pcs, CountsAsWorker);
      OnlyWorkersCount(s, t);
      var first := WorkerLeaves(s, t, strategy);
      var s' := Runs.After(Next, s, first);
      OneFewer(s, s', t, CountsAsWorker);
      var rest := AllWorkersLeave(s', strategy);
      Runs.AfterConcat(Next, s, first, rest);
      FollowsConcat(s, first, rest, strategy);
      OthersUndisturbed(s, s', Runs.After(Next, s', rest), t, CountsAsWorker);
      schedule := first + rest;
    }
  }

  // ---- waiting and deleting ----

  predicate Waiting(pc: PC) {
    pc.WaitLook? || pc.WaitBlocked?
  }

  /** A waiter that sees no workers returns, or goes on to discard for delete_executor. */
  lemma WaiterAdvances(w: World, t: Tid, pc: PC)
    requires w.m.activeWorkers == 0 && Waiting(pc)
    ensures var move := MoveOf(w, pc, Closes(t, if pc.WaitLook? then WaitLooks else WaitWakes));
            && move.Goes? && move.w.m.shutdownRequested == w.m.shutdownRequested
            && move.pc == if pc.deletes then DiscardLook(ByDelete) else Outside
  {
  }

  lemma WaiterGoesOn(s: State, t: Tid, strategy: Strategy) returns (schedule: seq<Step>)
    requires Inv(s) && s.w.m.activeWorkers == 0 && s.w.m.shutdownRequested && Waiting(PcOf(s.pcs, t))
    ensures var s' := Runs.After(Next, s, schedule);
            && PcOf(s'.pcs, t) == Outside
            && (PcOf(s.pcs, t).deletes ==> DeleteReturned in s'.w.h)
    ensures Follows(s, schedule, strategy)
  {
    var pc := PcOf(s.pcs, t);
    var step := Closes(t, if pc.WaitLook? then WaitLooks else WaitWakes);
    WaiterAdvances(s.w, t, pc);
    StepKeepsInv(s, step);
    FirstStep(s, step);
    var rest := [];
    if pc.deletes { rest := DiscarderReturns(Next(s, step), t, strategy); }
    Runs.AfterFirst(Next, s, step, rest);
    FollowsFirst(s, step, rest, strategy);
    schedule := [step] + rest;
  }

  lemma WaitersAreNobodyElse(pc: PC)
    requires Waiting(pc)
    ensures !InSubmitWindow(pc) && !IsFirstShutdown(pc) && !CountsAsWorker(pc)
  {
  }

  /** A waiter waits behind a shutdown, so first the shutdown returns and then the workers leave. */
  lemma WayIsCleared(s: State, t: Tid, strategy: Strategy) returns (schedule: seq<Step>)
    requires Inv(s) && s.w.m.shutdownRequested && Waiting(PcOf(s.pcs, t))
    ensures var s' := Runs.After(Next, s, schedule);
            Inv(s') && s'.w.m.activeWorkers == 0 && PcOf(s'.pcs, t) == PcOf(s.pcs, t) && ShutdownReturned in s'.w.h
    ensures Follows(s, schedule, strategy)
  {
    var first := ShutdownReturns(s, strategy);
    var s' := Runs.After(Next, s, first);
    WaitersAreNobodyElse(PcOf(s.pcs, t));
    assert PcOf(s'.pcs, t) == PcOf(s.pcs, t);
    var second := AllWorkersLeave(s', strategy);
    Runs.AfterConcat(Next, s, first, second);
    FollowsConcat(s, first, second, strategy);
    schedule := first + second;
  }

  lemma WaiterReturns(s: State, t: Tid, strategy: Strategy) returns (schedule: seq<Step>)
    requires Inv(s) && s.w.m.shutdownRequested && Waiting(PcOf(s.pcs, t))
    ensures var s' := Runs.After(Next, s, schedule);
            && PcOf(s'.pcs, t) == Outside
            && (PcOf(s.pcs, t).deletes ==> DeleteReturned in s'.w.h)
    ensures Follows(s, schedule, strategy)
  {
    var first := WayIsCleared(s, t, strategy);
    var rest := WaiterGoesOn(Runs.After(Next, s, first), t, strategy);
    Runs.AfterConcat(Next, s, first, rest);
    FollowsConcat(s, first, rest, strategy);
    schedule := first + rest;
  }

  /**
   From every reachable state in which a thread waits for the workers, and for every strategy,
   there is such a way on to where it has returned, and delete_executor with it.
   */
  lemma WaitAndDeleteCanAlwaysReturn(cfg: Config, before: seq<Step>, t: Tid, strategy: Strategy)
    returns (schedule: seq<Step>)
    requires ConfigOk(cfg) && Waiting(PcOf(Reach(cfg, before).pcs, t))
    ensures var s, s' := Reach(cfg, before), Reach(cfg, before + schedule);
            && PcOf(s'.pcs, t) == Outside
            && (PcOf(s.pcs, t).deletes ==> DeleteReturned in s'.w.h)
    ensures Follows(Reach(cfg, before), schedule, strategy)
  {
    InvHolds(cfg, before);
    assert PlaceOk(Reach(cfg, before).w, Reach(cfg, before).pcs[t]);
    schedule := WaiterReturns(Reach(cfg, before), t, strategy);
    Runs.AfterConcat(Next, Init(cfg), before, schedule);
  }

  // ---- every schedule ----

  lemma ClosedStaysClosed(s: State, step: Step)
    requires Inv(s) && s.w.m.shutdownRequested
    ensures var s' := Next(s, step);
            && Inv(s') && s'.w.m.shutdownRequested
            && (ShutdownReturned in s.w.h ==> ShutdownReturned in s'.w.h)
  {
    StepKeepsInv(s, step);
    StepKeepsPhases(s, step);
  }

  /** The steps of t in a schedule that it makes inside the submit window. */
  function StepsInWindow(s: State, schedule: seq<Step>, t: Tid): nat
    decreases |schedule|
  {
    if schedule == [] then 0 else
    var s' := Next(s, schedule[0]);
    StepsInWindow(s', schedule[1..], t) +
    if schedule[0].t == t && InSubmitWindow(PcOf(s.pcs, t)) && s' != s then 1 else 0
  }

  /** Nobody gets into the submit window any more. */
  lemma MoveStaysOutOfWindow(w: World, pc: PC, step: Step)
    requires w.m.shutdownRequested && !InSubmitWindow(pc) && !MoveOf(w, pc, step).Stuck?
    ensures !InSubmitWindow(MoveOf(w, pc, step).pc)
  {
  }

  lemma RankZeroOutsideWindow(pc: PC)
    ensures InSubmitWindow(pc) <==> SubmitRank(pc) > 0
  {
  }

  lemma OwnStepKeepsRank(s: State, step: Step)
    requires Inv(s) && s.w.m.shutdownRequested && Next(s, step) != s
    ensures SubmitRank(PcOf(Next(s, step).pcs, step.t)) + Tally(InSubmitWindow(PcOf(s.pcs, step.t)))
            <= SubmitRank(PcOf(s.pcs, step.t))
  {
    var pc := PcOf(s.pcs, step.t);
    if InSubmitWindow(pc) {
      InvReachesMover(s, step.t);
      SubmitterAdvances(s.w, pc, step);
    } else {
      MoveStaysOutOfWindow(s.w, pc, step);
      RankZeroOutsideWindow(MoveOf(s.w, pc, step).pc);
    }
  }

  /** The step of another thread does not move t, unless it starts t as a worker. */
  lemma OtherStepKeepsRank(s: State, step: Step, t: Tid)
    requires step.t != t
    ensures SubmitRank(PcOf(Next(s, step).pcs, t)) == SubmitRank(PcOf(s.pcs, t))
  {
  }

  lemma StepKeepsRank(s: State, step: Step, t: Tid)
    requires Inv(s) && s.w.m.shutdownRequested
    ensures var own := step.t == t && InSubmitWindow(PcOf(s.pcs, t)) && Next(s, step) != s;
            SubmitRank(PcOf(Next(s, step).pcs, t)) + Tally(own) <= SubmitRank(PcOf(s.pcs, t))
  {
    if step.t != t {
      OtherStepKeepsRank(s, step, t);
    } else if Next(s, step) != s {
      OwnStepKeepsRank(s, step);
    }
  }

  /**
   In every schedule after a shutdown was requested, a submitter makes at most 8 more steps
   before it has left; so the shutdown waits for a bounded number of steps.
   */
  lemma {:induction false} SubmittersTakeFewSteps(s: State, schedule: seq<Step>, t: Tid)
    requires Inv(s) && s.w.m.shutdownRequested
    ensures StepsInWindow(s, schedule, t) + SubmitRank(PcOf(Runs.After(Next, s, schedule).pcs, t))
            <= SubmitRank(PcOf(s.pcs, t)) <= 8
    decreases |schedule|
  {
    if schedule != [] {
      ClosedStaysClosed(s, schedule[0]);
      StepKeepsRank(s, schedule[0], t);
      SubmittersTakeFewSteps(Next(s, schedule[0]), schedule[1..], t);
    }
  }

  /** After the close no step adds to the queue. */
  lemma ClosedQueueShrinks(w: World, pc: PC, step: Step)
    requires QueueOk(w.m) && QueueSees(w.m, step.t, pc) && w.m.shutdownRequested && !MoveOf(w, pc, step).Stuck?
    ensures |MoveOf(w, pc, step).w.m.jobQ.Items()| <= |w.m.jobQ.Items()|
  {
    var t, q := step.t, w.m.jobQ;
    match step
    case Calls(_, _) => CloseHasEffect(q);
    case Creates(_, _) =>
    case Submits(_, PushCalled(choice)) => PushHasEffect(q, t, pc.j, false, choice);
    case Submits(_, PushWakes(timedOut, choice)) => PushWakeHasEffect(q, t, pc.j, timedOut, choice);
    case Submits(_, _) =>
    case Works(_, Pops(choice)) => PopHasEffect(q, t, false, choice);
    case Works(_, PopWakes(timedOut, choice)) => PopWakeHasEffect(q, t, timedOut, choice);
    case Works(_, _) =>
    case Closes(_, DiscardPops(choice)) => PopHasEffect(q, t, true, choice);
    case Closes(_, _) =>
  }

  lemma StepShrinksQueue(s: State, step: Step)
    requires Inv(s) && s.w.m.shutdownRequested
    ensures |Next(s, step).w.m.jobQ.Items()| <= |s.w.m.jobQ.Items()|
  {
    InvReachesMover(s, step.t);
    if !MoveOf(s.w, PcOf(s.pcs, step.t), step).Stuck? { ClosedQueueShrinks(s.w, PcOf(s.pcs, step.t), step); }
  }

  /** Whatever a worker does after the close brings it nearer to its exit: it cannot go back to sleep. */
  lemma AnyWorkerStepIsNearer(w: World, pc: PC, step: Step)
    requires QueueOk(w.m) && QueueSees(w.m, step.t, pc) && w.m.shutdownRequested
    requires IsWorker(pc) && !MoveOf(w, pc, step).Stuck?
    ensures WorkerNearer(w, pc, MoveOf(w, pc, step))
  {
    var t, q := step.t, w.m.jobQ;
    match step
    case Works(_, Pops(choice)) =>
      PopHasEffect(q, t, false, choice);
      WorkerPopsNearer(w, pc, q.Empty(), t, false, Pop(q, t, false, choice));
    case Works(_, PopWakes(timedOut, choice)) =>
      PopWakeHasEffect(q, t, timedOut, choice);
      WorkerPopsNearer(w, pc, q.Empty().Leave(t), t, timedOut, PopWake(q, t, timedOut, choice));
    case _ =>
  }

  /** A thread does not turn into a worker; workers are started. */
  lemma MoveStaysNoWorker(w: World, pc: PC, step: Step)
    requires !IsWorker(pc) && !MoveOf(w, pc, step).Stuck?
    ensures !IsWorker(MoveOf(w, pc, step).pc)
  {
    match step
    case Calls(_, _) =>
    case Creates(_, _) =>
    case Submits(_, _) =>
    case Works(_, _) =>
    case Closes(_, _) =>
  }

  function RankAsWorker(s: State, t: Tid): nat {
    WorkerRank(PcOf(s.pcs, t), |s.w.m.jobQ.Items()|)
  }

  lemma OwnStepKeepsWorkerRank(s: State, step: Step)
    requires Inv(s) && s.w.m.shutdownRequested && Next(s, step) != s
    ensures RankAsWorker(Next(s, step), step.t) + Tally(IsWorker(PcOf(s.pcs, step.t))) <= RankAsWorker(s, step.t)
  {
    var pc := PcOf(s.pcs, step.t);
    InvReachesMover(s, step.t);
    if IsWorker(pc) { AnyWorkerStepIsNearer(s.w, pc, step); } else { MoveStaysNoWorker(s.w, pc, step); }
  }

  /** The step of another thread leaves t where it is, unless it starts t as a worker. */
  lemma OtherThreadStays(s: State, step: Step, t: Tid)
    requires step.t != t
    requires PcOf(s.pcs, t) != Outside || !MoveOf(s.w, PcOf(s.pcs, step.t), step).Spawns?
    ensures PcOf(Next(s, step).pcs, t) == PcOf(s.pcs, t)
  {
  }

  lemma OnlyCreatorsSpawn(w: World, pc: PC, step: Step)
    requires MoveOf(w, pc, step).Spawns?
    ensures CountsAsWorker(pc) && !IsWorker(pc)
  {
  }

  /** After the first shutdown no worker is started any more. */
  lemma NobodySpawns(s: State, step: Step)
    requires Inv(s) && ShutdownReturned in s.w.h
    ensures !MoveOf(s.w, PcOf(s.pcs, step.t), step).Spawns?
  {
    var pc := PcOf(s.pcs, step.t);
    if CountsAsWorker(pc) { OnlyWorkersCount(s, step.t); }
    if MoveOf(s.w, pc, step).Spawns? { OnlyCreatorsSpawn(s.w, pc, step); }
  }

  lemma StepKeepsWorkerRank(s: State, step: Step, t: Tid)
    requires Inv(s) && ShutdownReturned in s.w.h
    ensures var own := step.t == t && IsWorker(PcOf(s.pcs, t)) && Next(s, step) != s;
            RankAsWorker(Next(s, step), t) + Tally(own) <= RankAsWorker(s, t)
  {
    if step.t != t {
      NobodySpawns(s, step);
      OtherThreadStays(s, step, t);
      StepShrinksQueue(s, step);
    } else if Next(s, step) != s {
      OwnStepKeepsWorkerRank(s, step);
    }
  }

  /** The steps of t in a schedule that it makes as a worker. */
  function StepsAsWorker(s: State, schedule: seq<Step>, t: Tid): nat
    decreases |schedule|
  {
    if schedule == [] then 0 else
    var s' := Next(s, schedule[0]);
    StepsAsWorker(s', schedule[1..], t) +
    if schedule[0].t == t && IsWorker(PcOf(s.pcs, t)) && s' != s then 1 else 0
  }

  /**
   In every schedule after the first shutdown has returned, a worker makes at most four steps
   for each job that is queued and four more before it has left.
   */
  lemma {:induction false} WorkersTakeFewSteps(s: State, schedule: seq<Step>, t: Tid)
    requires Inv(s) && ShutdownReturned in s.w.h
    ensures StepsAsWorker(s, schedule, t) + RankAsWorker(Runs.After(Next, s, schedule), t)
            <= RankAsWorker(s, t) <= 4 * |s.w.m.jobQ.Items()| + 4
    decreases |schedule|
  {
    if schedule != [] {
      ClosedStaysClosed(s, schedule[0]);
      StepKeepsWorkerRank(s, schedule[0], t);
      WorkersTakeFewSteps(Next(s, schedule[0]), schedule[1..], t);
    }
  }

  function RankAsDiscarder(s: State, t: Tid): nat {
    DiscardRank(PcOf(s.pcs, t), |s.w.m.jobQ.Items()|)
  }

  /** Whatever a discarder does brings it nearer to its return. */
  lemma AnyDiscardStepIsNearer(w: World, pc: PC, step: Step)
    requires QueueOk(w.m) && QueueSees(w.m, step.t, pc) && w.m.shutdownRequested
    requires Discarding(pc) && !MoveOf(w, pc, step).Stuck?
    ensures DiscardRank(MoveOf(w, pc, step).pc, |MoveOf(w, pc, step).w.m.jobQ.Items()|)
            < DiscardRank(pc, |w.m.jobQ.Items()|)
  {
    match step
    case Closes(t, DiscardPops(choice)) => PopHasEffect(w.m.jobQ, t, true, choice);
    case _ =>
  }

  lemma StepKeepsDiscardRank(s: State, step: Step, t: Tid)
    requires Inv(s) && s.w.m.shutdownRequested && Discarding(PcOf(s.pcs, t))
    ensures RankAsDiscarder(Next(s, step), t) + Tally(step.t == t && Next(s, step) != s) <= RankAsDiscarder(s, t)
  {
    if step.t != t {
      OtherThreadStays(s, step, t);
      StepShrinksQueue(s, step);
    } else if Next(s, step) != s {
      InvReachesMover(s, t);
      AnyDiscardStepIsNearer(s.w, PcOf(s.pcs, t), step);
    }
  }

  /** The steps that t makes in a schedule until it has done discarding. */
  function StepsDiscarding(s: State, schedule: seq<Step>, t: Tid): nat
    decreases |schedule|
  {
    if schedule == [] || !Discarding(PcOf(s.pcs, t)) then 0 else
    var s' := Next(s, schedule[0]);
    StepsDiscarding(s', schedule[1..], t) + if schedule[0].t == t && s' != s then 1 else 0
  }

  /** In every schedule a discarder makes at most three steps for each job that is queued, and two more. */
  lemma {:induction false} DiscardersTakeFewSteps(s: State, schedule: seq<Step>, t: Tid)
    requires Inv(s) && s.w.m.shutdownRequested
    ensures StepsDiscarding(s, schedule, t) <= RankAsDiscarder(s, t) <= 3 * |s.w.m.jobQ.Items()| + 2
    decreases |schedule|
  {
    if schedule != [] && Discarding(PcOf(s.pcs, t)) {
      ClosedStaysClosed(s, schedule[0]);
      StepKeepsDiscardRank(s, schedule[0], t);
      DiscardersTakeFewSteps(Next(s, schedule[0]), schedule[1..], t);
    }
  }
}
