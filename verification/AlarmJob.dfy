/** The alarm job of src/alarm_job.c: after each run the job itself says how long to wait for the next one. */
module AlarmJob {
  import opened Base
  import opened CondVars
  import opened Runners
  import Runs

  datatype JobState = PAUSED | RUNNING | WAITING | SHUTDOWN

  datatype Event = ShutdownEvent | PauseEvent | WakeUpEvent

  /** What job_lock protects. */
  datatype Job = Job(state: JobState, events: set<Event>, period: nat, stopWait: CondVar)

  predicate Accepts(state: JobState, event: Event) {
    match event
    case ShutdownEvent => state != SHUTDOWN
    case PauseEvent => state == RUNNING || state == WAITING
    case WakeUpEvent => state == PAUSED || state == WAITING
  }

  function EventSection(j: Job, event: Event): Job {
    if Accepts(j.state, event) then j.(events := j.events + {event}) else j
  }

  /** The new state in consume_events_and_update_state. */
  function NextState(j: Job, totalWaited: nat): JobState {
    match j.state
    case PAUSED =>
      if ShutdownEvent in j.events then SHUTDOWN
      else if WakeUpEvent in j.events then RUNNING
      else PAUSED
    case RUNNING =>
      if ShutdownEvent in j.events then SHUTDOWN
      else if PauseEvent in j.events then PAUSED
      else WAITING
    case WAITING =>
      if ShutdownEvent in j.events then SHUTDOWN
      else if PauseEvent in j.events then PAUSED
      else if WakeUpEvent in j.events then RUNNING
      else if totalWaited >= j.period then RUNNING
      else WAITING
    case SHUTDOWN => SHUTDOWN
  }

  function Consume(j: Job, totalWaited: nat): Job {
    j.(state := NextState(j, totalWaited), events := {})
  }

  /** One turn of the runner's inner loop, from consuming the events to the next wait or to the unlock. */
  function RunnerTurn(j: Job, totalWaited: nat): Job {
    var j' := Consume(j, totalWaited);
    if j'.state == SHUTDOWN || j'.state == PAUSED then j'.(stopWait := j'.stopWait.Broadcast()) else j'
  }

  function RunnerGoes(j': Job, totalWaited: nat): Runner {
    match j'.state
    case SHUTDOWN => Gone
    case PAUSED => WaitsForever(false, totalWaited)
    case WAITING => WaitsTimed(false, totalWaited, SubU64(j'.period, totalWaited))
    case RUNNING => AboutToCall
  }

  // ---- runs ----

  /** The calls of the two user functions. */
  datatype UserCall = JobFunction | SetFunction

  datatype System = System(j: Job, runner: Runner, waiters: map<Tid, bool>, calls: seq<UserCall>, waited: nat)

  /** RunnerEnters carries what alarm_set_function returns, if it is called. */
  datatype Step =
    | RunnerEnters(suggestion: nat)
    | RunnerWakes(remaining: nat)
    | FunctionStarts
    | FunctionReturns
    | EventCalled(event: Event)
    | WaitCalled(t: Tid, onlyShutdown: bool)
    | WaiterWakes(t: Tid)

  predicate Enabled(s: System, step: Step) {
    match step
    case RunnerEnters(suggestion) => s.runner.Enters? && suggestion <= MAX_U64
    case RunnerWakes(remaining) =>
      s.runner.WaitsForever? || (s.runner.WaitsTimed? && remaining <= s.runner.timeToWait)
    case FunctionStarts => s.runner.AboutToCall?
    case FunctionReturns => s.runner.InFunction?
    case EventCalled(event) => Accepts(s.j.state, event)
    case WaitCalled(t, _) => t !in s.waiters
    case WaiterWakes(t) => t in s.waiters
  }

  function RunnerStep(s: System, totalWaited: nat, elapsed: nat): System {
    var j' := RunnerTurn(s.j, totalWaited);
    s.(j := j', runner := RunnerGoes(j', totalWaited),
       waited := if s.j.state == WAITING then s.waited + elapsed else 0)
  }

  /** The runner asks for the next period, under the lock, only after a run. */
  function Asked(j: Job, suggestion: nat): Job {
    if j.state == RUNNING then j.(period := suggestion) else j
  }

  function AskPeriod(s: System, suggestion: nat): System {
    s.(j := Asked(s.j, suggestion), calls := if s.j.state == RUNNING then s.calls + [SetFunction] else s.calls)
  }

  predicate StillWaits(state: JobState, onlyShutdown: bool) {
    state != SHUTDOWN && (onlyShutdown || state != PAUSED)
  }

  function WaitStep(s: System, j: Job, t: Tid, onlyShutdown: bool): System {
    if StillWaits(j.state, onlyShutdown) then
      s.(j := j.(stopWait := j.stopWait.Sleep(t)), waiters := s.waiters[t := onlyShutdown])
    else s.(j := j, waiters := s.waiters - {t})
  }

  function Next(s: System, step: Step): System {
    if !Enabled(s, step) then s else
    match step
    case RunnerEnters(suggestion) => RunnerStep(AskPeriod(s, suggestion), 0, 0)
    case RunnerWakes(remaining) =>
      if s.runner.WaitsForever? then RunnerStep(s, s.runner.totalWaited, 0)
      else RunnerStep(s, TotalAfterWait(s.runner.totalWaited, s.runner.timeToWait, remaining),
                      s.runner.timeToWait - remaining)
    case FunctionStarts => s.(runner := InFunction, calls := s.calls + [JobFunction])
    case FunctionReturns => s.(runner := Enters)
    case EventCalled(event) => s.(j := EventSection(s.j, event), runner := Wakened(s.runner))
    case WaitCalled(t, onlyShutdown) => WaitStep(s, s.j, t, onlyShutdown)
    case WaiterWakes(t) => WaitStep(s, s.j.(stopWait := s.j.stopWait.Leave(t)), t, s.waiters[t])
  }

  const INIT: System := System(Job(PAUSED, {}, BLOCKING, NOBODY), Enters, map[], [], 0)

  function Reach(schedule: seq<Step>): System {
    Runs.After(Next, INIT, schedule)
  }

  // ---- what every step keeps ----

  ghost predicate EventsOk(s: System) {
    forall e | e in s.j.events :: Accepts(s.j.state, e)
  }

  /** The runner is where the state says, and its local total is the time really waited. */
  ghost predicate RunnerOk(s: System) {
    && s.j.period <= MAX_U64
    && match s.runner
       case Enters => s.j.state == RUNNING || s.j.state == PAUSED
       case WaitsForever(awake, _) => s.j.state == PAUSED && (!awake ==> s.j.events == {})
       case WaitsTimed(awake, total, timeToWait) =>
         && s.j.state == WAITING
         && total == s.waited
         && total + timeToWait == s.j.period
         && (!awake ==> s.j.events == {})
       case AboutToCall => s.j.state == RUNNING
       case InFunction => s.j.state == RUNNING
       case Gone => s.j.state == SHUTDOWN
  }

  ghost predicate WaitersOk(s: System) {
    && s.j.stopWait.waiting == s.waiters.Keys
    && (forall t | t in s.j.stopWait.asleep :: t in s.waiters && StillWaits(s.j.state, s.waiters[t]))
  }

  /** Job, set, job, set, ... */
  ghost predicate Alternates(calls: seq<UserCall>) {
    forall i | 0 <= i < |calls| :: calls[i] == if i % 2 == 0 then JobFunction else SetFunction
  }

  /** The job function was called last exactly while it runs, or while the set function is due. */
  ghost predicate CallsOk(s: System) {
    && Alternates(s.calls)
    && (|s.calls| % 2 == 1 <==> s.runner.InFunction? || (s.runner.Enters? && s.j.state == RUNNING))
  }

  ghost predicate Inv(s: System) {
    EventsOk(s) && RunnerOk(s) && WaitersOk(s) && CallsOk(s)
  }

  /** The subtraction in the runner is exact for every period, including 0 and BLOCKING. */
  lemma SubtractionNeverWraps(j: Job, totalWaited: nat)
    requires j.period <= MAX_U64 && (j.state == WAITING || totalWaited == 0)
    requires RunnerTurn(j, totalWaited).state == WAITING
    ensures totalWaited <= j.period
    ensures RunnerGoes(RunnerTurn(j, totalWaited), totalWaited) ==
            WaitsTimed(false, totalWaited, j.period - totalWaited)
  {
  }

  lemma RunnerKeepsInv(s: System, totalWaited: nat, elapsed: nat)
    requires EventsOk(s) && WaitersOk(s) && Alternates(s.calls) && |s.calls| % 2 == 0
    requires s.j.period <= MAX_U64 && s.j.state != SHUTDOWN
    requires s.j.state == WAITING ==> totalWaited == s.waited + elapsed
    requires s.j.state == RUNNING ==> totalWaited == 0
    ensures Inv(RunnerStep(s, totalWaited, elapsed))
  {
    if RunnerTurn(s.j, totalWaited).state == WAITING { SubtractionNeverWraps(s.j, totalWaited); }
  }

  lemma WaitKeepsInv(s: System, t: Tid, onlyShutdown: bool)
    requires Inv(s) && (t in s.waiters ==> s.waiters[t] == onlyShutdown)
    ensures Inv(WaitStep(s, s.j.(stopWait := s.j.stopWait.Leave(t)), t, onlyShutdown))
  {
  }

  lemma EventKeepsInv(s: System, event: Event)
    requires Inv(s) && Accepts(s.j.state, event)
    ensures Inv(Next(s, EventCalled(event)))
  {
  }

  lemma RunnerWakesKeepsInv(s: System, remaining: nat)
    requires Inv(s) && Enabled(s, RunnerWakes(remaining))
    ensures Inv(Next(s, RunnerWakes(remaining)))
  {
    if s.runner.WaitsForever? {
      RunnerKeepsInv(s, s.runner.totalWaited, 0);
    } else {
      WaitAddsUp(s.runner.totalWaited, s.runner.timeToWait, remaining);
      RunnerKeepsInv(s, s.runner.totalWaited + (s.runner.timeToWait - remaining), s.runner.timeToWait - remaining);
    }
  }

  lemma CallKeepsInv(s: System, step: Step)
    requires Inv(s) && (step.FunctionStarts? || step.FunctionReturns?)
    ensures Inv(Next(s, step))
  {
  }

  lemma StepKeepsInv(s: System, step: Step)
    requires Inv(s)
    ensures Inv(Next(s, step))
  {
    if Enabled(s, step) {
      match step
      case RunnerEnters(suggestion) => RunnerKeepsInv(AskPeriod(s, suggestion), 0, 0);
      case RunnerWakes(remaining) => RunnerWakesKeepsInv(s, remaining);
      case FunctionStarts => CallKeepsInv(s, step);
      case FunctionReturns => CallKeepsInv(s, step);
      case EventCalled(event) => EventKeepsInv(s, event);
      case WaitCalled(t, onlyShutdown) =>
        LeaveCounts(s.j.stopWait, t);
        WaitKeepsInv(s, t, onlyShutdown);
      case WaiterWakes(t) => WaitKeepsInv(s, t, s.waiters[t]);
    }
  }

  lemma InvHolds(schedule: seq<Step>)
    ensures Inv(Reach(schedule))
  {
    forall s, step | Inv(s) ensures Inv(Next(s, step)) { StepKeepsInv(s, step); }
    Runs.InvariantRule(Next, Inv, INIT, schedule);
  }

  /** In every run the calls of the job function and of the set function strictly alternate, the job first. */
  lemma CallsAlternate(schedule: seq<Step>, i: nat)
    requires i < |Reach(schedule).calls|
    ensures Reach(schedule).calls[i] == if i % 2 == 0 then JobFunction else SetFunction
  {
    InvHolds(schedule);
  }

  /** In every run a timed wait is exactly what is left of the period, for any period the set function returns. */
  lemma TimingIsExact(schedule: seq<Step>)
    requires Reach(schedule).runner.WaitsTimed?
    ensures var s := Reach(schedule);
            s.runner.totalWaited == s.waited && s.waited + s.runner.timeToWait == s.j.period <= MAX_U64
  {
    InvHolds(schedule);
  }

  /** Without an event, a waiting job runs exactly when it has waited for its period. */
  lemma RunsWhenThePeriodIsOver(s: System, remaining: nat)
    requires Inv(s) && s.j.state == WAITING && s.j.events == {} && Enabled(s, RunnerWakes(remaining))
    ensures var s' := Next(s, RunnerWakes(remaining));
            && s'.waited == s.waited + (s.runner.timeToWait - remaining)
            && s'.j.state == (if s'.waited >= s.j.period then RUNNING else WAITING)
            && (s'.j.state == RUNNING <==> remaining == 0)
  {
    WaitAddsUp(s.runner.totalWaited, s.runner.timeToWait, remaining);
  }

  /**
   What a runner does that comes back from a run, for every period that the set function
   returns: it pauses exactly when a pause is pending and no shutdown is. A returned BLOCKING
   does not pause it, whatever the header promises: without an event it waits for any period.
   */
  lemma PausesAfterARunExactlyWhenAsked(s: System, suggestion: nat)
    requires s.runner.Enters? && s.j.state == RUNNING && suggestion <= MAX_U64
    ensures var s' := Next(s, RunnerEnters(suggestion));
            && (s'.j.state == PAUSED <==> PauseEvent in s.j.events && ShutdownEvent !in s.j.events)
            && (s'.j.state == SHUTDOWN <==> ShutdownEvent in s.j.events)
            && (s'.j.state == WAITING <==> PauseEvent !in s.j.events && ShutdownEvent !in s.j.events)
            && (s'.j.state == WAITING ==> s'.runner == WaitsTimed(false, 0, suggestion))
  {
  }

  // ---- events ----

  /** The state an event leads to when the runner takes it up. */
  function Target(event: Event): JobState {
    match event
    case ShutdownEvent => SHUTDOWN
    case PauseEvent => PAUSED
    case WakeUpEvent => RUNNING
  }

  function Priority(event: Event): nat {
    match event
    case ShutdownEvent => 2
    case PauseEvent => 1
    case WakeUpEvent => 0
  }

  /** The most urgent of the pending events decides, whatever time has passed. */
  lemma MostUrgentEventWins(j: Job, e: Event, totalWaited: nat)
    requires (forall f | f in j.events :: Accepts(j.state, f)) && e in j.events
    requires forall f | f in j.events :: Priority(f) <= Priority(e)
    ensures NextState(j, totalWaited) == Target(e)
  {
    assert Accepts(j.state, e);
    assert ShutdownEvent in j.events ==> Priority(e) == 2;
    assert PauseEvent in j.events ==> Priority(e) >= 1;
  }

  /**
   In every run an accepted event wakes the runner and decides its next turn, unless a more
   urgent event is pending.
   */
  lemma AcceptedEventDecides(schedule: seq<Step>, event: Event, totalWaited: nat)
    requires Accepts(Reach(schedule).j.state, event)
    ensures var s := Reach(schedule);
            var s' := Next(s, EventCalled(event));
            && (s'.runner.WaitsForever? || s'.runner.WaitsTimed? ==> s'.runner.awake)
            && ((forall f | f in s.j.events :: Priority(f) <= Priority(event)) ==>
                  NextState(s'.j, totalWaited) == Target(event))
  {
    InvHolds(schedule);
    var s := Reach(schedule);
    EventKeepsInv(s, event);
    if forall f | f in s.j.events :: Priority(f) <= Priority(event) {
      MostUrgentEventWins(Next(s, EventCalled(event)).j, event, totalWaited);
    }
  }

  /** Nobody sleeps in vain in any run. */
  lemma NobodySleepsInVain(schedule: seq<Step>)
    ensures var s := Reach(schedule);
            && ((s.runner.WaitsForever? || s.runner.WaitsTimed?) && !s.runner.awake ==> s.j.events == {})
            && (s.j.state == SHUTDOWN ==> s.j.events == {})
            && (forall t | t in s.j.stopWait.asleep ::
                  t in s.waiters && s.j.state != SHUTDOWN && (!s.waiters[t] ==> s.j.state != PAUSED))
  {
    InvHolds(schedule);
  }

  // ---- every transition ----

  /** Where the job goes when no event is pending. */
  lemma UndisturbedTurn(j: Job, totalWaited: nat)
    requires j.events == {}
    ensures var next := NextState(j, totalWaited);
            && (j.state == PAUSED ==> next == PAUSED)
            && (j.state == RUNNING ==> next == WAITING)
            && (j.state == WAITING ==> next == if totalWaited >= j.period then RUNNING else WAITING)
            && (j.state == SHUTDOWN ==> next == SHUTDOWN)
  {
  }

  /** An event is accepted exactly in the states in which it could make a difference to the next turn. */
  lemma EventsAreAcceptedExactlyWhenTheyMatter(state: JobState, event: Event, period: nat, totalWaited: nat)
    requires totalWaited < period
    ensures Accepts(state, event) <==>
            NextState(Job(state, {event}, period, NOBODY), totalWaited) !=
            NextState(Job(state, {}, period, NOBODY), totalWaited)
  {
  }

  /** An event that is refused leaves no trace, and one that is accepted nothing but itself. */
  lemma RefusedEventsLeaveNoTrace(j: Job, event: Event)
    ensures var j' := EventSection(j, event);
            && (Accepts(j.state, event) ==> event in j'.events)
            && j'.events - {event} == j.events - {event}
            && (!Accepts(j.state, event) ==> j' == j)
            && j'.state == j.state && j'.period == j.period && j'.stopWait == j.stopWait
  {
  }

  /** The period is asked for exactly after a run, and then is the one in force; otherwise it stays. */
  lemma PeriodIsAskedForExactlyAfterARun(s: System, suggestion: nat)
    requires s.runner.Enters? && suggestion <= MAX_U64
    ensures var s' := Next(s, RunnerEnters(suggestion));
            && s'.j.period == Asked(s.j, suggestion).period
            && s'.j.period == (if s.j.state == RUNNING then suggestion else s.j.period)
            && s'.calls == (if s.j.state == RUNNING then s.calls + [SetFunction] else s.calls)
  {
  }

  /** What else a turn of the runner does: it takes all events, wakes the waiters exactly when it stops, and goes on. */
  lemma TurnExactly(j: Job, totalWaited: nat)
    requires j.period <= MAX_U64 && (j.state == WAITING || totalWaited == 0)
    ensures var j' := RunnerTurn(j, totalWaited);
            var stops := j'.state == SHUTDOWN || j'.state == PAUSED;
            var r := RunnerGoes(j', totalWaited);
            && j'.events == {} && j'.period == j.period && j'.stopWait.waiting == j.stopWait.waiting
            && j'.stopWait.asleep == (if stops then {} else j.stopWait.asleep)
            && (r.Gone? <==> j'.state == SHUTDOWN)
            && (r == WaitsForever(false, totalWaited) <==> j'.state == PAUSED)
            && (j'.state == WAITING ==> r.WaitsTimed? && !r.awake && r.totalWaited == totalWaited)
            && (r.AboutToCall? <==> !stops && j'.state != WAITING)
  {
  }

  /** A wait for the stop goes on exactly while the job has not stopped. */
  lemma WaitersWaitExactlyWhile(s: System, step: Step)
    requires Enabled(s, step) && (step.WaitCalled? || step.WaiterWakes?)
    ensures var onlyShutdown := if step.WaitCalled? then step.onlyShutdown else s.waiters[step.t];
            step.t in Next(s, step).waiters <==> s.j.state != SHUTDOWN && (onlyShutdown || s.j.state != PAUSED)
  {
  }

  // ---- pause and shutdown over whole runs ----

  /** How often the job function has started. */
  ghost function Starts(calls: seq<UserCall>): nat {
    if calls == [] then 0 else Starts(calls[..|calls| - 1]) + if calls[|calls| - 1] == JobFunction then 1 else 0
  }

  lemma StartsAppend(calls: seq<UserCall>, o: UserCall)
    ensures Starts(calls + [o]) == Starts(calls) + if o == JobFunction then 1 else 0
  {
    assert (calls + [o])[..|calls|] == calls;
  }

  ghost predicate ShuttingDown(s: System) {
    s.j.state == SHUTDOWN || ShutdownEvent in s.j.events
  }

  ghost predicate Pausing(s: System) {
    ShuttingDown(s) || PauseEvent in s.j.events || (s.j.state == PAUSED && s.j.events == {})
  }

  /** A runner that takes up a pause or a shutdown, or stays paused, does not go on to run the function. */
  lemma StoppingTurn(s: System, totalWaited: nat, elapsed: nat)
    requires EventsOk(s) && Pausing(s)
    ensures var s' := RunnerStep(s, totalWaited, elapsed);
            && Pausing(s') && Committed(s'.runner) == 0
            && (ShuttingDown(s) ==> ShuttingDown(s') && s'.j.state == SHUTDOWN)
  {
  }

  lemma ShutdownStepStays(s: System, step: Step)
    requires EventsOk(s) && RunnerOk(s) && ShuttingDown(s)
    ensures var s' := Next(s, step);
            && ShuttingDown(s')
            && Starts(s'.calls) + Committed(s'.runner) <= Starts(s.calls) + Committed(s.runner)
            && (s.j.state == SHUTDOWN ==> s'.j.state == SHUTDOWN)
  {
    if Enabled(s, step) {
      match step
      case RunnerEnters(suggestion) =>
        StoppingTurn(AskPeriod(s, suggestion), 0, 0);
        StartsAppend(s.calls, SetFunction);
      case RunnerWakes(remaining) =>
        if s.runner.WaitsForever? {
          StoppingTurn(s, s.runner.totalWaited, 0);
        } else {
          StoppingTurn(s, TotalAfterWait(s.runner.totalWaited, s.runner.timeToWait, remaining),
                       s.runner.timeToWait - remaining);
        }
      case FunctionStarts => StartsAppend(s.calls, JobFunction);
      case FunctionReturns =>
      case EventCalled(_) =>
      case WaitCalled(_, _) =>
      case WaiterWakes(_) =>
    }
  }

  /** After an accepted shutdown the job function starts at most once more, ever, and SHUTDOWN is final. */
  lemma {:induction false} ShutdownIsHonoured(s: System, schedule: seq<Step>)
    requires Inv(s) && ShuttingDown(s)
    ensures var s' := Runs.After(Next, s, schedule);
            && Starts(s'.calls) <= Starts(s.calls) + Committed(s.runner)
            && (s.j.state == SHUTDOWN ==> s'.j.state == SHUTDOWN)
    decreases |schedule|
  {
    if schedule != [] {
      ShutdownStepStays(s, schedule[0]);
      StepKeepsInv(s, schedule[0]);
      ShutdownIsHonoured(Next(s, schedule[0]), schedule[1..]);
    }
  }

  predicate Restarts(s: System, step: Step) {
    step.EventCalled? && Enabled(s, step) && step.event == WakeUpEvent
  }

  predicate NeverRestarted(s: System, schedule: seq<Step>)
    decreases |schedule|
  {
    schedule == [] || (!Restarts(s, schedule[0]) && NeverRestarted(Next(s, schedule[0]), schedule[1..]))
  }

  lemma PauseStepStays(s: System, step: Step)
    requires EventsOk(s) && RunnerOk(s) && Pausing(s) && !Restarts(s, step)
    ensures var s' := Next(s, step);
            && Pausing(s')
            && Starts(s'.calls) + Committed(s'.runner) <= Starts(s.calls) + Committed(s.runner)
  {
    if Enabled(s, step) {
      match step
      case RunnerEnters(suggestion) =>
        StoppingTurn(AskPeriod(s, suggestion), 0, 0);
        StartsAppend(s.calls, SetFunction);
      case RunnerWakes(remaining) =>
        if s.runner.WaitsForever? {
          StoppingTurn(s, s.runner.totalWaited, 0);
        } else {
          StoppingTurn(s, TotalAfterWait(s.runner.totalWaited, s.runner.timeToWait, remaining),
                       s.runner.timeToWait - remaining);
        }
      case FunctionStarts => StartsAppend(s.calls, JobFunction);
      case FunctionReturns =>
      case EventCalled(_) =>
      case WaitCalled(_, _) =>
      case WaiterWakes(_) =>
    }
  }

  /** After an accepted pause the job function starts at most once more until a wake-up is accepted. */
  lemma {:induction false} PauseIsHonoured(s: System, schedule: seq<Step>)
    requires Inv(s) && Pausing(s) && NeverRestarted(s, schedule)
    ensures Starts(Runs.After(Next, s, schedule).calls) <= Starts(s.calls) + Committed(s.runner)
    decreases |schedule|
  {
    if schedule != [] {
      PauseStepStays(s, schedule[0]);
      StepKeepsInv(s, schedule[0]);
      PauseIsHonoured(Next(s, schedule[0]), schedule[1..]);
    }
  }

  /** In every run: after an accepted shutdown at most one more start, ever. */
  lemma AtMostOneStartAfterShutdown(before: seq<Step>, after: seq<Step>)
    requires Accepts(Reach(before).j.state, ShutdownEvent)
    ensures Starts(Reach(before + [EventCalled(ShutdownEvent)] + after).calls) <= Starts(Reach(before).calls) + 1
  {
    var s := Reach(before);
    InvHolds(before);
    EventKeepsInv(s, ShutdownEvent);
    ShutdownIsHonoured(Next(s, EventCalled(ShutdownEvent)), after);
    Runs.AfterAppend(Next, INIT, before, EventCalled(ShutdownEvent));
    Runs.AfterConcat(Next, INIT, before + [EventCalled(ShutdownEvent)], after);
  }

  /** In every run: after an accepted pause at most one more start until a wake-up is accepted. */
  lemma AtMostOneStartAfterPause(before: seq<Step>, after: seq<Step>)
    requires Accepts(Reach(before).j.state, PauseEvent)
    requires NeverRestarted(Reach(before + [EventCalled(PauseEvent)]), after)
    ensures Starts(Reach(before + [EventCalled(PauseEvent)] + after).calls) <= Starts(Reach(before).calls) + 1
  {
    var s := Reach(before);
    InvHolds(before);
    EventKeepsInv(s, PauseEvent);
    Runs.AfterAppend(Next, INIT, before, EventCalled(PauseEvent));
    PauseIsHonoured(Next(s, EventCalled(PauseEvent)), after);
    Runs.AfterConcat(Next, INIT, before + [EventCalled(PauseEvent)], after);
  }

  // ---- the end of the runner ----

  /** In every run the runner has gone exactly when the job is shut down, so who waits for that may free the job. */
  lemma RunnerIsGoneExactlyWhenShutDown(schedule: seq<Step>)
    ensures var s := Reach(schedule); s.j.state == SHUTDOWN <==> s.runner.Gone?
  {
    InvHolds(schedule);
  }

  /** The steps of the runner's own thread. */
  predicate OfRunner(step: Step) {
    step.RunnerEnters? || step.RunnerWakes? || step.FunctionStarts? || step.FunctionReturns?
  }

  /** A step that the runner can make wherever it is, and when it is gone none. */
  function RunnerStepAt(r: Runner): Option<Step> {
    match r
    case Enters => Some(RunnerEnters(0))
    case WaitsForever(_, _) => Some(RunnerWakes(0))
    case WaitsTimed(_, _, _) => Some(RunnerWakes(0))
    case AboutToCall => Some(FunctionStarts)
    case InFunction => Some(FunctionReturns)
    case Gone => None
  }

  /** The runner is never stuck before it is gone. */
  lemma RunnerCanMove(s: System)
    ensures RunnerStepAt(s.runner).None? <==> s.runner.Gone?
    ensures RunnerStepAt(s.runner).Some? ==>
              OfRunner(RunnerStepAt(s.runner).value) && Enabled(s, RunnerStepAt(s.runner).value)
    ensures s.runner.Gone? ==> forall step | OfRunner(step) :: !Enabled(s, step)
  {
  }

  function RunnerSteps(s: System, schedule: seq<Step>): nat
    decreases |schedule|
  {
    if schedule == [] then 0 else
    RunnerSteps(Next(s, schedule[0]), schedule[1..]) + if OfRunner(schedule[0]) && Enabled(s, schedule[0]) then 1 else 0
  }

  lemma ShutdownStepBringsTheEnd(s: System, step: Step)
    requires EventsOk(s) && RunnerOk(s) && ShuttingDown(s)
    ensures StepsToTurn(Next(s, step).runner) + (if OfRunner(step) && Enabled(s, step) then 1 else 0)
            <= StepsToTurn(s.runner)
  {
    if Enabled(s, step) {
      match step
      case RunnerEnters(suggestion) => StoppingTurn(AskPeriod(s, suggestion), 0, 0);
      case RunnerWakes(remaining) =>
        if s.runner.WaitsForever? {
          StoppingTurn(s, s.runner.totalWaited, 0);
        } else {
          StoppingTurn(s, TotalAfterWait(s.runner.totalWaited, s.runner.timeToWait, remaining),
                       s.runner.timeToWait - remaining);
        }
      case _ =>
    }
  }

  lemma {:induction false} ShutdownBringsTheEnd(s: System, schedule: seq<Step>)
    requires Inv(s) && ShuttingDown(s)
    ensures RunnerSteps(s, schedule) + StepsToTurn(Runs.After(Next, s, schedule).runner) <= StepsToTurn(s.runner)
    decreases |schedule|
  {
    if schedule != [] {
      ShutdownStepBringsTheEnd(s, schedule[0]);
      ShutdownStepStays(s, schedule[0]);
      StepKeepsInv(s, schedule[0]);
      ShutdownBringsTheEnd(Next(s, schedule[0]), schedule[1..]);
    }
  }

  /**
   In every run, after an accepted shutdown the runner makes at most three more steps of its
   own, whatever else happens, and is gone after three.
   */
  lemma RunnerIsGoneAfterThreeSteps(before: seq<Step>, after: seq<Step>)
    requires Accepts(Reach(before).j.state, ShutdownEvent)
    ensures var s := Reach(before + [EventCalled(ShutdownEvent)]);
            var s' := Reach(before + [EventCalled(ShutdownEvent)] + after);
            RunnerSteps(s, after) + StepsToTurn(s'.runner) <= 3
  {
    var s := Reach(before);
    InvHolds(before);
    EventKeepsInv(s, ShutdownEvent);
    Runs.AfterAppend(Next, INIT, before, EventCalled(ShutdownEvent));
    ShutdownBringsTheEnd(Next(s, EventCalled(ShutdownEvent)), after);
    Runs.AfterConcat(Next, INIT, before + [EventCalled(ShutdownEvent)], after);
  }

  // ---- the end of a pause ----

  /** What wait_for_pause_or_shutdown waits for. */
  predicate Stopped(state: JobState) {
    state == PAUSED || state == SHUTDOWN
  }

  function StepsToStop(s: System): nat {
    if Stopped(s.j.state) then 0 else StepsToTurn(s.runner)
  }

  /** The runner's own steps in a schedule until the job has stopped. */
  function RunnerStepsBeforeStop(s: System, schedule: seq<Step>): nat
    decreases |schedule|
  {
    if schedule == [] || Stopped(s.j.state) then 0 else
    RunnerStepsBeforeStop(Next(s, schedule[0]), schedule[1..]) +
    if OfRunner(schedule[0]) && Enabled(s, schedule[0]) then 1 else 0
  }

  lemma PauseStepBringsTheStop(s: System, step: Step)
    requires EventsOk(s) && RunnerOk(s) && Pausing(s) && !Restarts(s, step)
    ensures var own := !Stopped(s.j.state) && OfRunner(step) && Enabled(s, step);
            StepsToStop(Next(s, step)) + (if own then 1 else 0) <= StepsToStop(s)
  {
    if Enabled(s, step) {
      match step
      case RunnerEnters(suggestion) => StoppingTurn(AskPeriod(s, suggestion), 0, 0);
      case RunnerWakes(remaining) =>
        if s.runner.WaitsForever? {
          StoppingTurn(s, s.runner.totalWaited, 0);
        } else {
          StoppingTurn(s, TotalAfterWait(s.runner.totalWaited, s.runner.timeToWait, remaining),
                       s.runner.timeToWait - remaining);
        }
      case _ =>
    }
  }

  lemma {:induction false} PauseBringsTheStop(s: System, schedule: seq<Step>)
    requires Inv(s) && Pausing(s) && NeverRestarted(s, schedule)
    ensures RunnerStepsBeforeStop(s, schedule) + StepsToStop(Runs.After(Next, s, schedule)) <= StepsToStop(s)
    decreases |schedule|
  {
    if schedule != [] {
      PauseStepBringsTheStop(s, schedule[0]);
      PauseStepStays(s, schedule[0]);
      StepKeepsInv(s, schedule[0]);
      PauseBringsTheStop(Next(s, schedule[0]), schedule[1..]);
    }
  }

  /**
   In every run, after an accepted pause and until a wake-up is accepted, the runner makes at most
   three steps of its own before the job is paused or shut down, and after three it is: so a
   thread may wait for that.
   */
  lemma JobStopsAfterThreeSteps(before: seq<Step>, after: seq<Step>)
    requires Accepts(Reach(before).j.state, PauseEvent)
    requires NeverRestarted(Reach(before + [EventCalled(PauseEvent)]), after)
    ensures var s := Reach(before + [EventCalled(PauseEvent)]);
            var s' := Reach(before + [EventCalled(PauseEvent)] + after);
            && RunnerStepsBeforeStop(s, after) <= 3
            && (RunnerStepsBeforeStop(s, after) == 3 ==> Stopped(s'.j.state))
  {
    var s := Reach(before);
    InvHolds(before);
    EventKeepsInv(s, PauseEvent);
    Runs.AfterAppend(Next, INIT, before, EventCalled(PauseEvent));
    PauseBringsTheStop(Next(s, EventCalled(PauseEvent)), after);
    Runs.AfterConcat(Next, INIT, before + [EventCalled(PauseEvent)], after);
    RunnerIsGoneExactlyWhenShutDown(before + [EventCalled(PauseEvent)] + after);
  }

  // ---- whole calls ----

  /** How a wait of the runner ends: the job it finds under the lock, and what was left of the time. */
  datatype RunnerWake = RunnerWake(found: Job, remaining: nat)

  /** The runner's inner loop over all its waits, to the unlock or to a wait with no further wake-up. */
  function RunnerCall(j: Job, totalWaited: nat, wakes: seq<RunnerWake>): (Job, Runner)
    decreases |wakes|
  {
    var j' := RunnerTurn(j, totalWaited);
    match RunnerGoes(j', totalWaited)
    case WaitsForever(awake, total) =>
      if wakes == [] then (j', WaitsForever(awake, total)) else RunnerCall(wakes[0].found, total, wakes[1..])
    case WaitsTimed(awake, total, timeToWait) =>
      if wakes == [] then (j', WaitsTimed(awake, total, timeToWait))
      else RunnerCall(wakes[0].found, TotalAfterWait(total, timeToWait, wakes[0].remaining), wakes[1..])
    case runner => (j', runner)
  }

  /** A wait for the job to stop, over all its wake-ups: what it leaves, and whether it is over. */
  function WaitCall(j: Job, t: Tid, onlyShutdown: bool, wakes: seq<Job>): (Job, bool)
    decreases |wakes|
  {
    if !StillWaits(j.state, onlyShutdown) then (j, true)
    else if wakes == [] then (j.(stopWait := j.stopWait.Sleep(t)), false)
    else WaitCall(wakes[0].(stopWait := wakes[0].stopWait.Leave(t)), t, onlyShutdown, wakes[1..])
  }

  /** The total after the runner's wait has ended with the first of the wake-ups. */
  function WaitedOn(r: Runner, remaining: nat): nat
    requires r.WaitsForever? || r.WaitsTimed?
  {
    match r
    case WaitsForever(_, total) => total
    case WaitsTimed(_, total, timeToWait) => (total + (timeToWait - remaining) % TWO_TO_THE_64) % TWO_TO_THE_64
  }

  /** A turn that ends in a wait, and what the runner finds after the wait. */
  predicate GoesOn(j: Job, totalWaited: nat, wake: RunnerWake, j': Job, totalWaited': nat) {
    var r := RunnerGoes(RunnerTurn(j, totalWaited), totalWaited);
    (r.WaitsForever? || r.WaitsTimed?) && j' == wake.found && totalWaited' == WaitedOn(r, wake.remaining)
  }

  /** The runner's inner loop goes on from wake-up to wake-up until a turn ends it, with the time it has added up. */
  lemma {:induction false} RunnerCallIsDecided(j: Job, totalWaited: nat, wakes: seq<RunnerWake>)
    returns (i: nat, looks: seq<Job>, totals: seq<nat>)
    ensures i <= |wakes| && |looks| == |totals| == i + 1
    ensures looks[0] == j && totals[0] == totalWaited
    ensures forall k | 0 <= k < i :: GoesOn(looks[k], totals[k], wakes[k], looks[k + 1], totals[k + 1])
    ensures var (j', r) := RunnerCall(j, totalWaited, wakes);
            && j' == RunnerTurn(looks[i], totals[i]) && r == RunnerGoes(j', totals[i])
            && (r.WaitsForever? || r.WaitsTimed? ==> i == |wakes|)
    decreases |wakes|
  {
    i, looks, totals := 0, [j], [totalWaited];
    var r := RunnerGoes(RunnerTurn(j, totalWaited), totalWaited);
    if (r.WaitsForever? || r.WaitsTimed?) && wakes != [] {
      var n, restLooks, restTotals := RunnerCallIsDecided(wakes[0].found, WaitedOn(r, wakes[0].remaining), wakes[1..]);
      i, looks, totals := n + 1, [j] + restLooks, [totalWaited] + restTotals;
      forall k | 0 <= k < i ensures GoesOn(looks[k], totals[k], wakes[k], looks[k + 1], totals[k + 1]) {
        if k > 0 { assert GoesOn(restLooks[k - 1], restTotals[k - 1], wakes[1..][k - 1], restLooks[k], restTotals[k]); }
      }
    }
  }

  /** A wait for the stop ends with the first state in which the job has stopped. */
  lemma {:induction false} WaitCallIsDecided(j: Job, t: Tid, onlyShutdown: bool, wakes: seq<Job>) returns (i: nat)
    ensures i <= |wakes| && forall k | 0 <= k < i ::
              Found(j, wakes, k).state != SHUTDOWN && (onlyShutdown || Found(j, wakes, k).state != PAUSED)
    ensures var l, (j', over) := Found(j, wakes, i), WaitCall(j, t, onlyShutdown, wakes);
            && (over <==> l.state == SHUTDOWN || (!onlyShutdown && l.state == PAUSED))
            && (!over ==> i == |wakes| && t in j'.stopWait.asleep)
            && (t in j'.stopWait.waiting <==> !over || (i == 0 && t in j.stopWait.waiting))
            && j'.state == l.state && j'.period == l.period && j'.events == l.events
    decreases |wakes|
  {
    i := 0;
    if j.state != SHUTDOWN && (onlyShutdown || j.state != PAUSED) && wakes != [] {
      var woken := wakes[0].(stopWait := wakes[0].stopWait.Leave(t));
      var n := WaitCallIsDecided(woken, t, onlyShutdown, wakes[1..]);
      i := n + 1;
      forall k | 0 <= k < i
        ensures Found(j, wakes, k).state != SHUTDOWN && (onlyShutdown || Found(j, wakes, k).state != PAUSED)
      {
        if k > 0 { assert Found(woken, wakes[1..], k - 1).state == Found(j, wakes, k).state; }
      }
    }
  }

  const SHUTDOWN_CALLED: bv8 := 1 << 0
  const PAUSE_CALLED: bv8 := 1 << 1
  const WAKE_UP_CALLED: bv8 := 1 << 2

  function Bit(event: Event): bv8 {
    match event
    case ShutdownEvent => SHUTDOWN_CALLED
    case PauseEvent => PAUSE_CALLED
    case WakeUpEvent => WAKE_UP_CALLED
  }

  /** The events in an event vector. */
  ghost function EventsOf(vector: bv8): set<Event> {
    set e: Event | vector & Bit(e) != 0
  }

  function VectorOf(events: set<Event>): bv8 {
    (if ShutdownEvent in events then SHUTDOWN_CALLED else 0) |
    (if PauseEvent in events then PAUSE_CALLED else 0) |
    (if WakeUpEvent in events then WAKE_UP_CALLED else 0)
  }

  lemma VectorAdds(vector: bv8, event: Event)
    ensures EventsOf(vector | Bit(event)) == EventsOf(vector) + {event}
  {
  }

  lemma VectorRepresents(events: set<Event>)
    ensures EventsOf(VectorOf(events)) == events && EventsOf(0) == {}
  {
  }

  /** The structure alarm_job; its methods are the functions of src/alarm_job.c. */
  class Monitor {
    var state: JobState
    var eventVector: bv8
    var period: nat
    var stopWait: CondVar
    // job_wait has one waiter, the runner
    var runnerSignalled: bool

    ghost function View(): Job
      reads this
    {
      Job(state, EventsOf(eventVector), period, stopWait)
    }

    constructor ()
      ensures View() == INIT.j
    {
      VectorRepresents({});
      state, eventVector, runnerSignalled := PAUSED, 0, false;
      period, stopWait := BLOCKING, NOBODY;
    }

    method Pause() returns (res: bool)
      modifies this
      ensures View() == EventSection(old(View()), PauseEvent)
      ensures res == Accepts(old(state), PauseEvent) && runnerSignalled == (old(runnerSignalled) || res)
    {
      res := state == RUNNING || state == WAITING;
      if res {
        VectorAdds(eventVector, PauseEvent);
        eventVector := eventVector | PAUSE_CALLED;
        runnerSignalled := true;
      }
    }

    method WakeUp() returns (res: bool)
      modifies this
      ensures View() == EventSection(old(View()), WakeUpEvent)
      ensures res == Accepts(old(state), WakeUpEvent) && runnerSignalled == (old(runnerSignalled) || res)
    {
      res := state == PAUSED || state == WAITING;
      if res {
        VectorAdds(eventVector, WakeUpEvent);
        eventVector := eventVector | WAKE_UP_CALLED;
        runnerSignalled := true;
      }
    }

    method Shutdown() returns (res: bool)
      modifies this
      ensures View() == EventSection(old(View()), ShutdownEvent)
      ensures res == Accepts(old(state), ShutdownEvent) && runnerSignalled == (old(runnerSignalled) || res)
    {
      res := state != SHUTDOWN;
      if res {
        VectorAdds(eventVector, ShutdownEvent);
        eventVector := eventVector | SHUTDOWN_CALLED;
        runnerSignalled := true;
      }
    }

    method ConsumeEventsAndUpdateState(totalWaited: nat)
      modifies this`state, this`eventVector
      ensures View() == Consume(old(View()), totalWaited)
    {
      VectorRepresents({});
      match state {
      case PAUSED =>
        if eventVector & SHUTDOWN_CALLED != 0 {
          state := SHUTDOWN;
        } else if eventVector & WAKE_UP_CALLED != 0 {
          state := RUNNING;
        } else {
          state := PAUSED;
        }
      case RUNNING =>
        if eventVector & SHUTDOWN_CALLED != 0 {
          state := SHUTDOWN;
        } else if eventVector & PAUSE_CALLED != 0 {
          state := PAUSED;
        } else {
          state := WAITING;
        }
      case WAITING =>
        if eventVector & SHUTDOWN_CALLED != 0 {
          state := SHUTDOWN;
        } else if eventVector & PAUSE_CALLED != 0 {
          state := PAUSED;
        } else if eventVector & WAKE_UP_CALLED != 0 {
          state := RUNNING;
        } else if totalWaited >= period {
          state := RUNNING;
        } else {
          state := WAITING;
        }
      case SHUTDOWN =>
      }
      eventVector := 0;
    }

    /** The runner from taking the lock: where it is when it gives the lock up for good, or still waits. */
    method Run(suggestion: nat, wakes: seq<RunnerWake>) returns (r: Runner)
      modifies this
      ensures (View(), r) == RunnerCall(Asked(old(View()), suggestion), 0, wakes)
    {
      if state == RUNNING { period := suggestion; }
      var totalWaited, k := 0, 0;
      while true
        invariant k <= |wakes|
        invariant RunnerCall(View(), totalWaited, wakes[k..]) == RunnerCall(Asked(old(View()), suggestion), 0, wakes)
        decreases |wakes| - k
      {
        ConsumeEventsAndUpdateState(totalWaited);
        runnerSignalled := false;
        if state == SHUTDOWN {
          stopWait := stopWait.Broadcast();
          return Gone;
        } else if state == PAUSED {
          stopWait := stopWait.Broadcast();
          if k == |wakes| { return WaitsForever(false, totalWaited); }
        } else if state == WAITING {
          var timeToWait := SubU64(period, totalWaited);
          if k == |wakes| { return WaitsTimed(false, totalWaited, timeToWait); }
          totalWaited := AddU64(totalWaited, SubU64(timeToWait, wakes[k].remaining));
        } else {
          break;
        }
        // the lock is held again: the fields are what the other threads have left
        VectorRepresents(wakes[k].found.events);
        state, eventVector := wakes[k].found.state, VectorOf(wakes[k].found.events);
        period, stopWait := wakes[k].found.period, wakes[k].found.stopWait;
        k := k + 1;
      }
      r := AboutToCall;
    }

    /** The two functions that wait for the job to stop. */
    method WaitForStop(t: Tid, onlyShutdown: bool, wakes: seq<Job>) returns (over: bool)
      modifies this
      ensures (View(), over) == WaitCall(old(View()), t, onlyShutdown, wakes)
    {
      var k := 0;
      while state != SHUTDOWN && (onlyShutdown || state != PAUSED)
        invariant k <= |wakes|
        invariant WaitCall(View(), t, onlyShutdown, wakes[k..]) == WaitCall(old(View()), t, onlyShutdown, wakes)
        decreases |wakes| - k
      {
        stopWait := stopWait.Sleep(t);
        if k == |wakes| { return false; }
        VectorRepresents(wakes[k].events);
        state, eventVector := wakes[k].state, VectorOf(wakes[k].events);
        period, stopWait := wakes[k].period, wakes[k].stopWait.Leave(t);
        k := k + 1;
      }
      return true;
    }
  }

  /** new_alarm_job, which refuses a NULL job function. */
  method NewAlarmJob(alarmJobFunction: Ptr) returns (m: Monitor?)
    ensures m != null <==> alarmJobFunction != NULL
    ensures m != null ==> fresh(m) && m.View() == INIT.j
  {
    if alarmJobFunction == NULL { return null; }
    m := new Monitor();
  }
}
