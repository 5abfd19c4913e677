/** The periodic job of src/periodic_job.c: a state machine driven by prioritised events and a timer. */
module PeriodicJob {
  import opened Base
  import opened CondVars
  import opened Runners
  import Runs

  datatype JobState =
    | PAUSED
    | SINGLE_SHOT_ON_PAUSED
    | RUNNING
    | WAITING
    | SINGLE_SHOT_ON_WAITING
    | SHUTDOWN

  /** The bits of the event vector. */
  datatype Event = ShutdownEvent | PauseEvent | ResumeEvent | SingleShotEvent

  /** What job_lock protects. */
  datatype Job = Job(state: JobState, events: set<Event>, period: nat, stopWait: CondVar)

  predicate ValidPeriod(period: nat) {
    NON_BLOCKING < period < BLOCKING
  }

  /** The states in which an event is accepted. */
  predicate Accepts(state: JobState, event: Event) {
    match event
    case ShutdownEvent => state != SHUTDOWN
    case PauseEvent => state == RUNNING || state == WAITING || state == SINGLE_SHOT_ON_WAITING
    case ResumeEvent => state == PAUSED || state == SINGLE_SHOT_ON_PAUSED
    case SingleShotEvent => state == PAUSED || state == WAITING
  }

  function EventSection(j: Job, event: Event): Job {
    if Accepts(j.state, event) then j.(events := j.events + {event}) else j
  }

  /** The new state in consume_events_and_update_state. */
  function NextState(j: Job, totalWaited: nat): JobState {
    match j.state
    case PAUSED =>
      if ShutdownEvent in j.events then SHUTDOWN
      else if ResumeEvent in j.events then RUNNING
      else if SingleShotEvent in j.events then SINGLE_SHOT_ON_PAUSED
      else PAUSED
    case SINGLE_SHOT_ON_PAUSED =>
      if ShutdownEvent in j.events then SHUTDOWN
      else if ResumeEvent in j.events then WAITING
      else PAUSED
    case RUNNING =>
      if ShutdownEvent in j.events then SHUTDOWN
      else if PauseEvent in j.events then PAUSED
      else WAITING
    case WAITING =>
      if ShutdownEvent in j.events then SHUTDOWN
      else if PauseEvent in j.events then PAUSED
      else if SingleShotEvent in j.events then SINGLE_SHOT_ON_WAITING
      else if totalWaited >= j.period then RUNNING
      else WAITING
    case SINGLE_SHOT_ON_WAITING =>
      if ShutdownEvent in j.events then SHUTDOWN
      else if PauseEvent in j.events then PAUSED
      else WAITING
    case SHUTDOWN => SHUTDOWN
  }

  function Consume(j: Job, totalWaited: nat): Job {
    j.(state := NextState(j, totalWaited), events := {})
  }

  /** One turn of the runner's inner loop, from consuming the events to the next wait or to the unlock. */
  function RunnerTurn(j: Job, totalWaited: nat): Job {
    var j' := Consume(j, totalWaited);
    if j'.state == SHUTDOWN || j'.state == PAUSED then j'.(stopWait := j'.stopWait.Broadcast()) else j'
  }

  function RunnerGoes(j': Job, totalWaited: nat): Runner {
    match j'.state
    case SHUTDOWN => Gone
    case PAUSED => WaitsForever(false, totalWaited)
    case WAITING => WaitsTimed(false, totalWaited, SubU64(j'.period, totalWaited))
    case _ => AboutToCall
  }

  // ---- runs ----

  /**
   The job, its runner, the threads in wait_for_pause_or_shutdown (false) and
   wait_for_shutdown (true), how often the function has started, and the time the runner has
   spent waiting since the job last entered the WAITING state.
   */
  datatype System = System(j: Job, runner: Runner, waiters: map<Tid, bool>, starts: nat, waited: nat)

  datatype Step =
    | RunnerEnters
    | RunnerWakes(remaining: nat)
    | FunctionStarts
    | FunctionReturns
    | EventCalled(event: Event)
    | PeriodUpdated(period: nat)
    | WaitCalled(t: Tid, onlyShutdown: bool)
    | WaiterWakes(t: Tid)

  /** A spurious wake-up or the end of the time may come at any point of a wait. */
  predicate Enabled(s: System, step: Step) {
    match step
    case RunnerEnters => s.runner.Enters?
    case RunnerWakes(remaining) =>
      s.runner.WaitsForever? || (s.runner.WaitsTimed? && remaining <= s.runner.timeToWait)
    case FunctionStarts => s.runner.AboutToCall?
    case FunctionReturns => s.runner.InFunction?
    case EventCalled(event) => Accepts(s.j.state, event)
    case PeriodUpdated(period) => ValidPeriod(period)
    case WaitCalled(t, _) => t !in s.waiters
    case WaiterWakes(t) => t in s.waiters
  }

  function RunnerStep(s: System, totalWaited: nat, elapsed: nat): System {
    var j' := RunnerTurn(s.j, totalWaited);
    s.(j := j', runner := RunnerGoes(j', totalWaited),
       waited := if s.j.state == WAITING then s.waited + elapsed else 0)
  }

  predicate StillWaits(state: JobState, onlyShutdown: bool) {
    state != SHUTDOWN && (onlyShutdown || state != PAUSED)
  }

  function WaitStep(s: System, j: Job, t: Tid, onlyShutdown: bool): System {
    if StillWaits(j.state, onlyShutdown) then
      s.(j := j.(stopWait := j.stopWait.Sleep(t)), waiters := s.waiters[t := onlyShutdown])
    else s.(j := j, waiters := s.waiters - {t})
  }

  function Next(s: System, step: Step): System {
    if !Enabled(s, step) then s else
    match step
    case RunnerEnters => RunnerStep(s, 0, 0)
    case RunnerWakes(remaining) =>
      if s.runner.WaitsForever? then RunnerStep(s, s.runner.totalWaited, 0)
      else RunnerStep(s, TotalAfterWait(s.runner.totalWaited, s.runner.timeToWait, remaining),
                      s.runner.timeToWait - remaining)
    case FunctionStarts => s.(runner := InFunction, starts := s.starts + 1)
    case FunctionReturns => s.(runner := Enters)
    case EventCalled(event) =>
      s.(j := EventSection(s.j, event), runner := Wakened(s.runner))
    case PeriodUpdated(period) => s.(j := s.j.(period := period), runner := Wakened(s.runner))
    case WaitCalled(t, onlyShutdown) => WaitStep(s, s.j, t, onlyShutdown)
    case WaiterWakes(t) => WaitStep(s, s.j.(stopWait := s.j.stopWait.Leave(t)), t, s.waiters[t])
  }

  function Init(period: nat): System {
    System(Job(PAUSED, {}, period, NOBODY), Enters, map[], 0, 0)
  }

  function Reach(period: nat, schedule: seq<Step>): System {
    Runs.After(Next, Init(period), schedule)
  }

  // ---- what every step keeps ----

  /** The pending events are events that the current state accepts: none in SHUTDOWN. */
  ghost predicate EventsOk(s: System) {
    forall e | e in s.j.events :: Accepts(s.j.state, e)
  }

  predicate RunsFunction(state: JobState) {
    state == RUNNING || state == SINGLE_SHOT_ON_PAUSED || state == SINGLE_SHOT_ON_WAITING
  }

  /** The runner is where the state says, and its local total is the time really waited. */
  ghost predicate RunnerOk(s: System) {
    && ValidPeriod(s.j.period)
    && match s.runner
       case Enters => RunsFunction(s.j.state) || s.j.state == PAUSED
       case WaitsForever(awake, _) => s.j.state == PAUSED && (!awake ==> s.j.events == {})
       case WaitsTimed(awake, total, timeToWait) =>
         && s.j.state == WAITING
         && total == s.waited
         && 0 < timeToWait && total + timeToWait < BLOCKING
         && (!awake ==> s.j.events == {} && total + timeToWait == s.j.period)
       case AboutToCall => RunsFunction(s.j.state)
       case InFunction => RunsFunction(s.j.state)
       case Gone => s.j.state == SHUTDOWN
  }

  ghost predicate WaitersOk(s: System) {
    && s.j.stopWait.waiting == s.waiters.Keys
    && (forall t | t in s.j.stopWait.asleep :: t in s.waiters && StillWaits(s.j.state, s.waiters[t]))
  }

  ghost predicate Inv(s: System) {
    EventsOk(s) && RunnerOk(s) && WaitersOk(s)
  }

  /**
   The subtraction in the runner is exact: it is made only in the WAITING state with less
   time waited than the period, so the time to wait is positive and nothing wraps.
   */
  lemma SubtractionNeverWraps(j: Job, totalWaited: nat)
    requires ValidPeriod(j.period) && (j.state == WAITING || totalWaited == 0)
    requires RunnerTurn(j, totalWaited).state == WAITING && j.state != SHUTDOWN
    ensures totalWaited < j.period
    ensures RunnerGoes(RunnerTurn(j, totalWaited), totalWaited) ==
            WaitsTimed(false, totalWaited, j.period - totalWaited)
  {
  }

  lemma RunnerKeepsInv(s: System, totalWaited: nat, elapsed: nat)
    requires Inv(s) && s.j.state != SHUTDOWN
    requires s.j.state == WAITING ==> totalWaited == s.waited + elapsed
    requires RunsFunction(s.j.state) ==> totalWaited == 0
    ensures Inv(RunnerStep(s, totalWaited, elapsed))
  {
    if RunnerTurn(s.j, totalWaited).state == WAITING { SubtractionNeverWraps(s.j, totalWaited); }
  }

  lemma EventKeepsInv(s: System, event: Event)
    requires Inv(s) && Accepts(s.j.state, event)
    ensures Inv(Next(s, EventCalled(event)))
  {
  }

  lemma WaitKeepsInv(s: System, t: Tid, onlyShutdown: bool)
    requires Inv(s) && (t in s.waiters ==> s.waiters[t] == onlyShutdown)
    ensures Inv(WaitStep(s, s.j.(stopWait := s.j.stopWait.Leave(t)), t, onlyShutdown))
  {
  }

  lemma PeriodKeepsInv(s: System, period: nat)
    requires Inv(s) && ValidPeriod(period)
    ensures Inv(Next(s, PeriodUpdated(period)))
  {
  }

  lemma RunnerWakesKeepsInv(s: System, remaining: nat)
    requires Inv(s) && Enabled(s, RunnerWakes(remaining))
    ensures Inv(Next(s, RunnerWakes(remaining)))
  {
    if s.runner.WaitsForever? {
      RunnerKeepsInv(s, s.runner.totalWaited, 0);
    } else {
      WaitAddsUp(s.runner.totalWaited, s.runner.timeToWait, remaining);
      RunnerKeepsInv(s, s.runner.totalWaited + (s.runner.timeToWait - remaining), s.runner.timeToWait - remaining);
    }
  }

  lemma CallKeepsInv(s: System, step: Step)
    requires Inv(s) && (step.FunctionStarts? || step.FunctionReturns?)
    ensures Inv(Next(s, step))
  {
  }

  lemma StepKeepsInv(s: System, step: Step)
    requires Inv(s)
    ensures Inv(Next(s, step))
  {
    if Enabled(s, step) {
      match step
      case RunnerEnters => RunnerKeepsInv(s, 0, 0);
      case RunnerWakes(remaining) => RunnerWakesKeepsInv(s, remaining);
      case FunctionStarts => CallKeepsInv(s, step);
      case FunctionReturns => CallKeepsInv(s, step);
      case EventCalled(event) => EventKeepsInv(s, event);
      case PeriodUpdated(period) => PeriodKeepsInv(s, period);
      case WaitCalled(t, onlyShutdown) =>
        LeaveCounts(s.j.stopWait, t);
        WaitKeepsInv(s, t, onlyShutdown);
      case WaiterWakes(t) => WaitKeepsInv(s, t, s.waiters[t]);
    }
  }

  lemma InvHolds(period: nat, schedule: seq<Step>)
    requires ValidPeriod(period)
    ensures Inv(Reach(period, schedule))
  {
    forall s, step | Inv(s) ensures Inv(Next(s, step)) { StepKeepsInv(s, step); }
    Runs.InvariantRule(Next, Inv, Init(period), schedule);
  }

  // ---- timing ----

  /**
   In every run, under any updates of the period and any spurious wake-ups: the runner's
   total is the time really waited since the job entered WAITING, a timed wait is positive
   and ends within a period, and a runner that sleeps undisturbed waits out the current one.
   */
  lemma TimingIsExact(period: nat, schedule: seq<Step>)
    requires ValidPeriod(period) && Reach(period, schedule).runner.WaitsTimed?
    ensures var s := Reach(period, schedule);
            && s.runner.totalWaited == s.waited
            && 0 < s.runner.timeToWait && s.waited + s.runner.timeToWait < BLOCKING
            && (!s.runner.awake ==> s.waited + s.runner.timeToWait == s.j.period)
  {
    InvHolds(period, schedule);
  }

  /** Without an event, a waiting job starts to run exactly when it has waited for the period then in force. */
  lemma RunsWhenThePeriodIsOver(s: System, remaining: nat)
    requires Inv(s) && s.j.state == WAITING && s.j.events == {} && Enabled(s, RunnerWakes(remaining))
    ensures var s' := Next(s, RunnerWakes(remaining));
            && s'.waited == s.waited + (s.runner.timeToWait - remaining)
            && s'.j.state == (if s'.waited >= s.j.period then RUNNING else WAITING)
  {
    WaitAddsUp(s.runner.totalWaited, s.runner.timeToWait, remaining);
  }

  // ---- events ----

  /** The state an event leads to when the runner takes it up. */
  function Target(state: JobState, event: Event): JobState {
    match event
    case ShutdownEvent => SHUTDOWN
    case PauseEvent => PAUSED
    case ResumeEvent => if state == PAUSED then RUNNING else WAITING
    case SingleShotEvent => if state == PAUSED then SINGLE_SHOT_ON_PAUSED else SINGLE_SHOT_ON_WAITING
  }

  function Priority(event: Event): nat {
    match event
    case ShutdownEvent => 3
    case PauseEvent => 2
    case ResumeEvent => 1
    case SingleShotEvent => 0
  }

  ghost predicate MostUrgent(events: set<Event>, e: Event) {
    e in events && forall f | f in events :: Priority(f) <= Priority(e)
  }

  /** The most urgent of the pending events decides, whatever time has passed. */
  lemma MostUrgentEventWins(j: Job, e: Event, totalWaited: nat)
    requires (forall f | f in j.events :: Accepts(j.state, f)) && MostUrgent(j.events, e)
    ensures NextState(j, totalWaited) == Target(j.state, e)
  {
    assert Accepts(j.state, e);
    assert forall f | f in j.events :: Priority(f) <= Priority(e);
    assert ShutdownEvent in j.events ==> Priority(e) == 3;
    assert PauseEvent in j.events ==> Priority(e) >= 2;
    assert ResumeEvent in j.events ==> Priority(e) >= 1;
  }

  /**
   No accepted event is lost: in every run the pending events fit the state, so the next
   turn of the runner takes up the most urgent one, whatever time has passed, and it is
   beaten only by a more urgent event accepted in the same window.
   */
  lemma NoEventIsLost(period: nat, schedule: seq<Step>, totalWaited: nat)
    requires ValidPeriod(period)
    ensures var j := Reach(period, schedule).j;
            && (forall e | MostUrgent(j.events, e) :: NextState(j, totalWaited) == Target(j.state, e))
            && (j.state == SHUTDOWN ==> j.events == {})
  {
    InvHolds(period, schedule);
    var j := Reach(period, schedule).j;
    forall e | MostUrgent(j.events, e) ensures NextState(j, totalWaited) == Target(j.state, e) {
      MostUrgentEventWins(j, e, totalWaited);
    }
  }

  /**
   An accepted event wakes the runner and decides its next turn, unless a more urgent event
   is pending.
   */
  lemma AcceptedEventDecides(period: nat, schedule: seq<Step>, event: Event, totalWaited: nat)
    requires ValidPeriod(period) && Accepts(Reach(period, schedule).j.state, event)
    ensures var s := Reach(period, schedule);
            var s' := Next(s, EventCalled(event));
            && (s'.runner.WaitsForever? || s'.runner.WaitsTimed? ==> s'.runner.awake)
            && ((forall f | f in s.j.events :: Priority(f) <= Priority(event)) ==>
                  NextState(s'.j, totalWaited) == Target(s.j.state, event))
  {
    InvHolds(period, schedule);
    var s := Reach(period, schedule);
    EventKeepsInv(s, event);
    if forall f | f in s.j.events :: Priority(f) <= Priority(event) {
      MostUrgentEventWins(Next(s, EventCalled(event)).j, event, totalWaited);
    }
  }

  /**
   Nobody sleeps in vain in any run: a runner that sleeps unsignalled has no event to take
   up, and a thread that sleeps until the job stops finds it not stopped.
   */
  lemma NobodySleepsInVain(period: nat, schedule: seq<Step>)
    requires ValidPeriod(period)
    ensures var s := Reach(period, schedule);
            && ((s.runner.WaitsForever? || s.runner.WaitsTimed?) && !s.runner.awake ==> s.j.events == {})
            && (forall t | t in s.j.stopWait.asleep ::
                  t in s.waiters && s.j.state != SHUTDOWN && (!s.waiters[t] ==> s.j.state != PAUSED))
  {
    InvHolds(period, schedule);
  }

  // ---- every transition ----

  /** Where the job goes when no event is pending. */
  lemma UndisturbedTurn(j: Job, totalWaited: nat)
    requires j.events == {}
    ensures var next := NextState(j, totalWaited);
            && (j.state == PAUSED || j.state == SINGLE_SHOT_ON_PAUSED ==> next == PAUSED)
            && (j.state == RUNNING || j.state == SINGLE_SHOT_ON_WAITING ==> next == WAITING)
            && (j.state == WAITING ==> next == if totalWaited >= j.period then RUNNING else WAITING)
            && (j.state == SHUTDOWN ==> next == SHUTDOWN)
  {
  }

  /** An event is accepted exactly in the states in which it could make a difference to the next turn. */
  lemma EventsAreAcceptedExactlyWhenTheyMatter(state: JobState, event: Event, period: nat, totalWaited: nat)
    requires totalWaited < period
    ensures Accepts(state, event) <==>
            NextState(Job(state, {event}, period, NOBODY), totalWaited) !=
            NextState(Job(state, {}, period, NOBODY), totalWaited)
  {
  }

  /** An event that is refused leaves no trace, and one that is accepted nothing but itself. */
  lemma RefusedEventsLeaveNoTrace(j: Job, event: Event)
    ensures var j' := EventSection(j, event);
            && (Accepts(j.state, event) ==> event in j'.events)
            && j'.events - {event} == j.events - {event}
            && (!Accepts(j.state, event) ==> j' == j)
            && j'.state == j.state && j'.period == j.period && j'.stopWait == j.stopWait
  {
  }

  /** What else a turn of the runner does: it takes all events, wakes the waiters exactly when it stops, and goes on. */
  lemma TurnExactly(j: Job, totalWaited: nat)
    requires j.period <= MAX_U64 && (j.state == WAITING || totalWaited == 0)
    ensures var j' := RunnerTurn(j, totalWaited);
            var stops := j'.state == SHUTDOWN || j'.state == PAUSED;
            var r := RunnerGoes(j', totalWaited);
            && j'.events == {} && j'.period == j.period && j'.stopWait.waiting == j.stopWait.waiting
            && j'.stopWait.asleep == (if stops then {} else j.stopWait.asleep)
            && (r.Gone? <==> j'.state == SHUTDOWN)
            && (r == WaitsForever(false, totalWaited) <==> j'.state == PAUSED)
            && (j'.state == WAITING ==> r.WaitsTimed? && !r.awake && r.totalWaited == totalWaited)
            && (r.AboutToCall? <==> !stops && j'.state != WAITING)
  {
  }

  /** A wait for the stop goes on exactly while the job has not stopped. */
  lemma WaitersWaitExactlyWhile(s: System, step: Step)
    requires Enabled(s, step) && (step.WaitCalled? || step.WaiterWakes?)
    ensures var onlyShutdown := if step.WaitCalled? then step.onlyShutdown else s.waiters[step.t];
            step.t in Next(s, step).waiters <==> s.j.state != SHUTDOWN && (onlyShutdown || s.j.state != PAUSED)
  {
  }

  /**
   Where a runner goes that comes back from a run: it stops exactly when asked to, and otherwise
   waits for the whole period.
   */
  lemma AfterARunExactly(s: System)
    requires s.runner.Enters? && s.j.state == RUNNING && s.j.period <= MAX_U64
    ensures var s' := Next(s, RunnerEnters);
            && (s'.j.state == PAUSED <==> PauseEvent in s.j.events && ShutdownEvent !in s.j.events)
            && (s'.j.state == SHUTDOWN <==> ShutdownEvent in s.j.events)
            && (s'.j.state == WAITING <==> PauseEvent !in s.j.events && ShutdownEvent !in s.j.events)
            && (s'.j.state == WAITING ==> s'.runner == WaitsTimed(false, 0, s.j.period))
  {
  }

  /** The same for a single shot: one on a paused job ends paused, unless it was resumed meanwhile. */
  lemma AfterASingleShotExactly(s: System)
    requires s.runner.Enters? && s.j.period <= MAX_U64
    requires s.j.state == SINGLE_SHOT_ON_PAUSED || s.j.state == SINGLE_SHOT_ON_WAITING
    ensures var s' := Next(s, RunnerEnters);
            var pauses := if s.j.state == SINGLE_SHOT_ON_PAUSED then ResumeEvent !in s.j.events
                          else PauseEvent in s.j.events;
            && (s'.j.state == SHUTDOWN <==> ShutdownEvent in s.j.events)
            && (s'.j.state == PAUSED <==> ShutdownEvent !in s.j.events && pauses)
            && (s'.j.state == WAITING <==> ShutdownEvent !in s.j.events && !pauses)
            && (s'.j.state == WAITING ==> s'.runner == WaitsTimed(false, 0, s.j.period))
  {
  }

  /** The period that a schedule asks for: the last valid one, or the initial one. */
  function PeriodAskedFor(period: nat, schedule: seq<Step>): nat {
    if schedule == [] then period else
    var before, last := schedule[..|schedule| - 1], schedule[|schedule| - 1];
    match last
    case PeriodUpdated(n) => if NON_BLOCKING < n < BLOCKING then n else PeriodAskedFor(period, before)
    case _ => PeriodAskedFor(period, before)
  }

  /** In every run the period in force is the valid one that was last asked for. */
  lemma {:induction false} LastPeriodTakesHold(period: nat, schedule: seq<Step>)
    ensures Reach(period, schedule).j.period == PeriodAskedFor(period, schedule)
    decreases |schedule|
  {
    if schedule != [] {
      var before, last := schedule[..|schedule| - 1], schedule[|schedule| - 1];
      assert schedule == before + [last];
      LastPeriodTakesHold(period, before);
      Runs.AfterAppend(Next, Init(period), before, last);
    }
  }

  lemma NewPeriodsWakeTheRunner(s: System, period: nat)
    requires ValidPeriod(period)
    ensures var r := Next(s, PeriodUpdated(period)).runner;
            r.WaitsForever? || r.WaitsTimed? ==> r.awake
  {
  }

  // ---- pause, shutdown and single shot over whole runs ----

  ghost predicate ShuttingDown(s: System) {
    s.j.state == SHUTDOWN || ShutdownEvent in s.j.events
  }

  /** Stopped, or about to stop, with nothing pending that would set it going again. */
  ghost predicate Pausing(s: System) {
    || ShuttingDown(s)
    || PauseEvent in s.j.events
    || (s.j.state == PAUSED && s.j.events == {})
  }

  /** A runner that takes up a pause or a shutdown, or stays paused, does not go on to run the function. */
  lemma StoppingTurn(s: System, totalWaited: nat, elapsed: nat)
    requires EventsOk(s) && Pausing(s)
    ensures var s' := RunnerStep(s, totalWaited, elapsed);
            && Pausing(s') && Committed(s'.runner) == 0
            && (ShuttingDown(s) ==> ShuttingDown(s') && s'.j.state == SHUTDOWN)
  {
  }

  lemma ShutdownStepStays(s: System, step: Step)
    requires EventsOk(s) && RunnerOk(s) && ShuttingDown(s)
    ensures var s' := Next(s, step);
            && ShuttingDown(s')
            && s'.starts + Committed(s'.runner) <= s.starts + Committed(s.runner)
            && (s.j.state == SHUTDOWN ==> s'.j.state == SHUTDOWN)
  {
    if Enabled(s, step) {
      match step
      case RunnerEnters => StoppingTurn(s, 0, 0);
      case RunnerWakes(remaining) =>
        if s.runner.WaitsForever? {
          StoppingTurn(s, s.runner.totalWaited, 0);
        } else {
          StoppingTurn(s, TotalAfterWait(s.runner.totalWaited, s.runner.timeToWait, remaining),
                       s.runner.timeToWait - remaining);
        }
      case FunctionStarts =>
      case FunctionReturns =>
      case EventCalled(event) =>
      case PeriodUpdated(_) =>
      case WaitCalled(_, _) =>
      case WaiterWakes(_) =>
    }
  }

  /** After an accepted shutdown the function starts at most once more, ever, and SHUTDOWN is final. */
  lemma {:induction false} ShutdownIsHonoured(s: System, schedule: seq<Step>)
    requires Inv(s) && ShuttingDown(s)
    ensures var s' := Runs.After(Next, s, schedule);
            && s'.starts <= s.starts + Committed(s.runner)
            && (s.j.state == SHUTDOWN ==> s'.j.state == SHUTDOWN)
    decreases |schedule|
  {
    if schedule != [] {
      ShutdownStepStays(s, schedule[0]);
      StepKeepsInv(s, schedule[0]);
      ShutdownIsHonoured(Next(s, schedule[0]), schedule[1..]);
    }
  }

  /** A resume or a single shot that is accepted. */
  predicate Restarts(s: System, step: Step) {
    step.EventCalled? && Enabled(s, step) && (step.event == ResumeEvent || step.event == SingleShotEvent)
  }

  predicate NeverRestarted(s: System, schedule: seq<Step>)
    decreases |schedule|
  {
    schedule == [] || (!Restarts(s, schedule[0]) && NeverRestarted(Next(s, schedule[0]), schedule[1..]))
  }

  lemma PauseStepStays(s: System, step: Step)
    requires EventsOk(s) && RunnerOk(s) && Pausing(s) && !Restarts(s, step)
    ensures var s' := Next(s, step);
            && Pausing(s')
            && s'.starts + Committed(s'.runner) <= s.starts + Committed(s.runner)
  {
    if Enabled(s, step) {
      match step
      case RunnerEnters => StoppingTurn(s, 0, 0);
      case RunnerWakes(remaining) =>
        if s.runner.WaitsForever? {
          StoppingTurn(s, s.runner.totalWaited, 0);
        } else {
          StoppingTurn(s, TotalAfterWait(s.runner.totalWaited, s.runner.timeToWait, remaining),
                       s.runner.timeToWait - remaining);
        }
      case FunctionStarts =>
      case FunctionReturns =>
      case EventCalled(event) =>
      case PeriodUpdated(_) =>
      case WaitCalled(_, _) =>
      case WaiterWakes(_) =>
    }
  }

  /** After an accepted pause the function starts at most once more until a resume or a single shot is accepted. */
  lemma {:induction false} PauseIsHonoured(s: System, schedule: seq<Step>)
    requires Inv(s) && Pausing(s) && NeverRestarted(s, schedule)
    ensures Runs.After(Next, s, schedule).starts <= s.starts + Committed(s.runner)
    decreases |schedule|
  {
    if schedule != [] {
      PauseStepStays(s, schedule[0]);
      StepKeepsInv(s, schedule[0]);
      PauseIsHonoured(Next(s, schedule[0]), schedule[1..]);
    }
  }

  /** In every run: after an accepted shutdown at most one more start, ever. */
  lemma AtMostOneStartAfterShutdown(period: nat, before: seq<Step>, after: seq<Step>)
    requires ValidPeriod(period) && Accepts(Reach(period, before).j.state, ShutdownEvent)
    ensures Reach(period, before + [EventCalled(ShutdownEvent)] + after).starts
            <= Reach(period, before).starts + 1
  {
    var s := Reach(period, before);
    InvHolds(period, before);
    EventKeepsInv(s, ShutdownEvent);
    ShutdownIsHonoured(Next(s, EventCalled(ShutdownEvent)), after);
    Runs.AfterAppend(Next, Init(period), before, EventCalled(ShutdownEvent));
    Runs.AfterConcat(Next, Init(period), before + [EventCalled(ShutdownEvent)], after);
  }

  /** In every run: after an accepted pause at most one more start until a resume or a single shot is accepted. */
  lemma AtMostOneStartAfterPause(period: nat, before: seq<Step>, after: seq<Step>)
    requires ValidPeriod(period) && Accepts(Reach(period, before).j.state, PauseEvent)
    requires NeverRestarted(Reach(period, before + [EventCalled(PauseEvent)]), after)
    ensures Reach(period, before + [EventCalled(PauseEvent)] + after).starts
            <= Reach(period, before).starts + 1
  {
    var s := Reach(period, before);
    InvHolds(period, before);
    EventKeepsInv(s, PauseEvent);
    Runs.AfterAppend(Next, Init(period), before, EventCalled(PauseEvent));
    PauseIsHonoured(Next(s, EventCalled(PauseEvent)), after);
    Runs.AfterConcat(Next, Init(period), before + [EventCalled(PauseEvent)], after);
  }

  predicate IsEvent(step: Step) {
    step.EventCalled?
  }

  function Shot(from: JobState): JobState {
    if from == PAUSED then SINGLE_SHOT_ON_PAUSED else SINGLE_SHOT_ON_WAITING
  }

  /** How far a single shot has come: requested, taken up, running, returned; n starts so far. */
  ghost predicate Shooting(s: System, from: JobState, n: nat) {
    || (n == 0 && s.j.state == from && s.j.events == {SingleShotEvent})
    || (n == 0 && s.j.state == Shot(from) && s.j.events == {} && s.runner == AboutToCall)
    || (n == 1 && s.j.state == Shot(from) && s.j.events == {} && (s.runner == InFunction || s.runner == Enters))
  }

  /** The single shot is over and the job is back where it was, waiting anew if it was waiting. */
  predicate BackIn(s: System, from: JobState) {
    s.j.state == from && s.j.events == {} &&
    (from == WAITING ==> s.waited == 0) && (from == PAUSED ==> s.runner.WaitsForever?)
  }

  /** What has become of the shot between two states: over with one start in all, or under way. */
  ghost predicate ShotFrom(s: System, s': System, from: JobState, n: nat, over: bool) {
    var m := n + s'.starts - s.starts;
    && s.starts <= s'.starts
    && (if over then m == 1 && BackIn(s', from) else Shooting(s', from, m))
  }

  lemma SingleShotStep(s: System, step: Step, from: JobState, n: nat) returns (over: bool)
    requires Inv(s) && (from == PAUSED || from == WAITING) && Shooting(s, from, n) && !IsEvent(step)
    ensures ShotFrom(s, Next(s, step), from, n, over)
  {
    over := false;
    if Enabled(s, step) {
      match step
      case RunnerEnters => over := n == 1;
      case RunnerWakes(_) =>
      case FunctionStarts =>
      case FunctionReturns =>
      case EventCalled(_) =>
      case PeriodUpdated(_) =>
      case WaitCalled(_, _) =>
      case WaiterWakes(_) =>
    }
  }

  /**
   A single shot that no other event disturbs: either it is still under way, or at some point
   the function has started exactly once and the job is back in the state it was in.
   */
  lemma {:induction false} SingleShotRunsOnce(s: System, schedule: seq<Step>, from: JobState, n: nat)
    returns (k: nat, over: bool)
    requires Inv(s) && (from == PAUSED || from == WAITING) && Shooting(s, from, n)
    requires forall i | 0 <= i < |schedule| :: !IsEvent(schedule[i])
    ensures k <= |schedule| && (over || k == |schedule|)
    ensures ShotFrom(s, Runs.After(Next, s, schedule[..k]), from, n, over)
    decreases |schedule|
  {
    k, over := 0, false;
    if schedule != [] {
      var next := Next(s, schedule[0]);
      over := SingleShotStep(s, schedule[0], from, n);
      k := 1;
      if over {
        assert schedule[..1][1..] == [];
      } else {
        StepKeepsInv(s, schedule[0]);
        var rest;
        rest, over := SingleShotRunsOnce(next, schedule[1..], from, n + next.starts - s.starts);
        k := rest + 1;
        assert schedule[..k][1..] == schedule[1..][..rest];
      }
    }
  }

  // ---- the end of the runner ----

  /** In every run the runner has gone exactly when the job is shut down, so who waits for that may free the job. */
  lemma RunnerIsGoneExactlyWhenShutDown(period: nat, schedule: seq<Step>)
    requires ValidPeriod(period)
    ensures var s := Reach(period, schedule); s.j.state == SHUTDOWN <==> s.runner.Gone?
  {
    InvHolds(period, schedule);
  }

  /** The steps of the runner's own thread. */
  predicate OfRunner(step: Step) {
    step.RunnerEnters? || step.RunnerWakes? || step.FunctionStarts? || step.FunctionReturns?
  }

  /** A step that the runner can make wherever it is, and when it is gone none. */
  function RunnerStepAt(r: Runner): Option<Step> {
    match r
    case Enters => Some(RunnerEnters)
    case WaitsForever(_, _) => Some(RunnerWakes(0))
    case WaitsTimed(_, _, _) => Some(RunnerWakes(0))
    case AboutToCall => Some(FunctionStarts)
    case InFunction => Some(FunctionReturns)
    case Gone => None
  }

  /** The runner is never stuck before it is gone. */
  lemma RunnerCanMove(s: System)
    ensures RunnerStepAt(s.runner).None? <==> s.runner.Gone?
    ensures RunnerStepAt(s.runner).Some? ==>
              OfRunner(RunnerStepAt(s.runner).value) && Enabled(s, RunnerStepAt(s.runner).value)
    ensures s.runner.Gone? ==> forall step | OfRunner(step) :: !Enabled(s, step)
  {
  }

  function RunnerSteps(s: System, schedule: seq<Step>): nat
    decreases |schedule|
  {
    if schedule == [] then 0 else
    RunnerSteps(Next(s, schedule[0]), schedule[1..]) + if OfRunner(schedule[0]) && Enabled(s, schedule[0]) then 1 else 0
  }

  lemma ShutdownStepBringsTheEnd(s: System, step: Step)
    requires EventsOk(s) && RunnerOk(s) && ShuttingDown(s)
    ensures StepsToTurn(Next(s, step).runner) + (if OfRunner(step) && Enabled(s, step) then 1 else 0)
            <= StepsToTurn(s.runner)
  {
    if Enabled(s, step) {
      match step
      case RunnerEnters => StoppingTurn(s, 0, 0);
      case RunnerWakes(remaining) =>
        if s.runner.WaitsForever? {
          StoppingTurn(s, s.runner.totalWaited, 0);
        } else {
          StoppingTurn(s, TotalAfterWait(s.runner.totalWaited, s.runner.timeToWait, remaining),
                       s.runner.timeToWait - remaining);
        }
      case _ =>
    }
  }

  lemma {:induction false} ShutdownBringsTheEnd(s: System, schedule: seq<Step>)
    requires Inv(s) && ShuttingDown(s)
    ensures RunnerSteps(s, schedule) + StepsToTurn(Runs.After(Next, s, schedule).runner) <= StepsToTurn(s.runner)
    decreases |schedule|
  {
    if schedule != [] {
      ShutdownStepBringsTheEnd(s, schedule[0]);
      ShutdownStepStays(s, schedule[0]);
      StepKeepsInv(s, schedule[0]);
      ShutdownBringsTheEnd(Next(s, schedule[0]), schedule[1..]);
    }
  }

  /**
   In every run, after an accepted shutdown the runner makes at most three more steps of its
   own, whatever else happens, and is gone after three.
   */
  lemma RunnerIsGoneAfterThreeSteps(period: nat, before: seq<Step>, after: seq<Step>)
    requires ValidPeriod(period) && Accepts(Reach(period, before).j.state, ShutdownEvent)
    ensures var s := Reach(period, before + [EventCalled(ShutdownEvent)]);
            var s' := Reach(period, before + [EventCalled(ShutdownEvent)] + after);
            RunnerSteps(s, after) + StepsToTurn(s'.runner) <= 3
  {
    var s := Reach(period, before);
    InvHolds(period, before);
    EventKeepsInv(s, ShutdownEvent);
    Runs.AfterAppend(Next, Init(period), before, EventCalled(ShutdownEvent));
    ShutdownBringsTheEnd(Next(s, EventCalled(ShutdownEvent)), after);
    Runs.AfterConcat(Next, Init(period), before + [EventCalled(ShutdownEvent)], after);
  }

  // ---- the end of a pause ----

  /** What wait_for_pause_or_shutdown waits for. */
  predicate Stopped(state: JobState) {
    state == PAUSED || state == SHUTDOWN
  }

  function StepsToStop(s: System): nat {
    if Stopped(s.j.state) then 0 else StepsToTurn(s.runner)
  }

  /** The runner's own steps in a schedule until the job has stopped. */
  function RunnerStepsBeforeStop(s: System, schedule: seq<Step>): nat
    decreases |schedule|
  {
    if schedule == [] || Stopped(s.j.state) then 0 else
    RunnerStepsBeforeStop(Next(s, schedule[0]), schedule[1..]) +
    if OfRunner(schedule[0]) && Enabled(s, schedule[0]) then 1 else 0
  }

  lemma PauseStepBringsTheStop(s: System, step: Step)
    requires EventsOk(s) && RunnerOk(s) && Pausing(s) && !Restarts(s, step)
    ensures var own := !Stopped(s.j.state) && OfRunner(step) && Enabled(s, step);
            StepsToStop(Next(s, step)) + (if own then 1 else 0) <= StepsToStop(s)
  {
    if Enabled(s, step) {
      match step
      case RunnerEnters => StoppingTurn(s, 0, 0);
      case RunnerWakes(remaining) =>
        if s.runner.WaitsForever? {
          StoppingTurn(s, s.runner.totalWaited, 0);
        } else {
          StoppingTurn(s, TotalAfterWait(s.runner.totalWaited, s.runner.timeToWait, remaining),
                       s.runner.timeToWait - remaining);
        }
      case _ =>
    }
  }

  lemma {:induction false} PauseBringsTheStop(s: System, schedule: seq<Step>)
    requires Inv(s) && Pausing(s) && NeverRestarted(s, schedule)
    ensures RunnerStepsBeforeStop(s, schedule) + StepsToStop(Runs.After(Next, s, schedule)) <= StepsToStop(s)
    decreases |schedule|
  {
    if schedule != [] {
      PauseStepBringsTheStop(s, schedule[0]);
      PauseStepStays(s, schedule[0]);
      StepKeepsInv(s, schedule[0]);
      PauseBringsTheStop(Next(s, schedule[0]), schedule[1..]);
    }
  }

  /**
   In every run, after an accepted pause and until a resume or a single shot is accepted, the runner makes at most
   three steps of its own before the job is paused or shut down, and after three it is: so a
   thread may wait for that.
   */
  lemma JobStopsAfterThreeSteps(period: nat, before: seq<Step>, after: seq<Step>)
    requires ValidPeriod(period) && Accepts(Reach(period, before).j.state, PauseEvent)
    requires NeverRestarted(Reach(period, before + [EventCalled(PauseEvent)]), after)
    ensures var s := Reach(period, before + [EventCalled(PauseEvent)]);
            var s' := Reach(period, before + [EventCalled(PauseEvent)] + after);
            && RunnerStepsBeforeStop(s, after) <= 3
            && (RunnerStepsBeforeStop(s, after) == 3 ==> Stopped(s'.j.state))
  {
    var s := Reach(period, before);
    InvHolds(period, before);
    EventKeepsInv(s, PauseEvent);
    Runs.AfterAppend(Next, Init(period), before, EventCalled(PauseEvent));
    PauseBringsTheStop(Next(s, EventCalled(PauseEvent)), after);
    Runs.AfterConcat(Next, Init(period), before + [EventCalled(PauseEvent)], after);
    RunnerIsGoneExactlyWhenShutDown(period, before + [EventCalled(PauseEvent)] + after);
  }

  // ---- whole calls ----

  /** How a wait of the runner ends: the job it finds under the lock, and what was left of the time. */
  datatype RunnerWake = RunnerWake(found: Job, remaining: nat)

  /** The runner's inner loop over all its waits, to the unlock or to a wait with no further wake-up. */
  function RunnerCall(j: Job, totalWaited: nat, wakes: seq<RunnerWake>): (Job, Runner)
    decreases |wakes|
  {
    var j' := RunnerTurn(j, totalWaited);
    match RunnerGoes(j', totalWaited)
    case WaitsForever(awake, total) =>
      if wakes == [] then (j', WaitsForever(awake, total)) else RunnerCall(wakes[0].found, total, wakes[1..])
    case WaitsTimed(awake, total, timeToWait) =>
      if wakes == [] then (j', WaitsTimed(awake, total, timeToWait))
      else RunnerCall(wakes[0].found, TotalAfterWait(total, timeToWait, wakes[0].remaining), wakes[1..])
    case runner => (j', runner)
  }

  /** A wait for the job to stop, over all its wake-ups: what it leaves, and whether it is over. */
  function WaitCall(j: Job, t: Tid, onlyShutdown: bool, wakes: seq<Job>): (Job, bool)
    decreases |wakes|
  {
    if !StillWaits(j.state, onlyShutdown) then (j, true)
    else if wakes == [] then (j.(stopWait := j.stopWait.Sleep(t)), false)
    else WaitCall(wakes[0].(stopWait := wakes[0].stopWait.Leave(t)), t, onlyShutdown, wakes[1..])
  }

  /** The total after the runner's wait has ended with the first of the wake-ups. */
  function WaitedOn(r: Runner, remaining: nat): nat
    requires r.WaitsForever? || r.WaitsTimed?
  {
    match r
    case WaitsForever(_, total) => total
    case WaitsTimed(_, total, timeToWait) => (total + (timeToWait - remaining) % TWO_TO_THE_64) % TWO_TO_THE_64
  }

  /** A turn that ends in a wait, and what the runner finds after the wait. */
  predicate GoesOn(j: Job, totalWaited: nat, wake: RunnerWake, j': Job, totalWaited': nat) {
    var r := RunnerGoes(RunnerTurn(j, totalWaited), totalWaited);
    (r.WaitsForever? || r.WaitsTimed?) && j' == wake.found && totalWaited' == WaitedOn(r, wake.remaining)
  }

  /** The runner's inner loop goes on from wake-up to wake-up until a turn ends it, with the time it has added up. */
  lemma {:induction false} RunnerCallIsDecided(j: Job, totalWaited: nat, wakes: seq<RunnerWake>)
    returns (i: nat, looks: seq<Job>, totals: seq<nat>)
    ensures i <= |wakes| && |looks| == |totals| == i + 1
    ensures looks[0] == j && totals[0] == totalWaited
    ensures forall k | 0 <= k < i :: GoesOn(looks[k], totals[k], wakes[k], looks[k + 1], totals[k + 1])
    ensures var (j', r) := RunnerCall(j, totalWaited, wakes);
            && j' == RunnerTurn(looks[i], totals[i]) && r == RunnerGoes(j', totals[i])
            && (r.WaitsForever? || r.WaitsTimed? ==> i == |wakes|)
    decreases |wakes|
  {
    i, looks, totals := 0, [j], [totalWaited];
    var r := RunnerGoes(RunnerTurn(j, totalWaited), totalWaited);
    if (r.WaitsForever? || r.WaitsTimed?) && wakes != [] {
      var n, restLooks, restTotals := RunnerCallIsDecided(wakes[0].found, WaitedOn(r, wakes[0].remaining), wakes[1..]);
      i, looks, totals := n + 1, [j] + restLooks, [totalWaited] + restTotals;
      forall k | 0 <= k < i ensures GoesOn(looks[k], totals[k], wakes[k], looks[k + 1], totals[k + 1]) {
        if k > 0 { assert GoesOn(restLooks[k - 1], restTotals[k - 1], wakes[1..][k - 1], restLooks[k], restTotals[k]); }
      }
    }
  }

  /** A wait for the stop ends with the first state in which the job has stopped. */
  lemma {:induction false} WaitCallIsDecided(j: Job, t: Tid, onlyShutdown: bool, wakes: seq<Job>) returns (i: nat)
    ensures i <= |wakes| && forall k | 0 <= k < i ::
              Found(j, wakes, k).state != SHUTDOWN && (onlyShutdown || Found(j, wakes, k).state != PAUSED)
    ensures var l, (j', over) := Found(j, wakes, i), WaitCall(j, t, onlyShutdown, wakes);
            && (over <==> l.state == SHUTDOWN || (!onlyShutdown && l.state == PAUSED))
            && (!over ==> i == |wakes| && t in j'.stopWait.asleep)
            && (t in j'.stopWait.waiting <==> !over || (i == 0 && t in j.stopWait.waiting))
            && j'.state == l.state && j'.period == l.period && j'.events == l.events
    decreases |wakes|
  {
    i := 0;
    if j.state != SHUTDOWN && (onlyShutdown || j.state != PAUSED) && wakes != [] {
      var woken := wakes[0].(stopWait := wakes[0].stopWait.Leave(t));
      var n := WaitCallIsDecided(woken, t, onlyShutdown, wakes[1..]);
      i := n + 1;
      forall k | 0 <= k < i
        ensures Found(j, wakes, k).state != SHUTDOWN && (onlyShutdown || Found(j, wakes, k).state != PAUSED)
      {
        if k > 0 { assert Found(woken, wakes[1..], k - 1).state == Found(j, wakes, k).state; }
      }
    }
  }

  const SHUTDOWN_CALLED: bv8 := 1 << 0
  const PAUSE_CALLED: bv8 := 1 << 1
  const RESUME_CALLED: bv8 := 1 << 2
  const SINGLE_SHOT_CALLED: bv8 := 1 << 3

  function Bit(event: Event): bv8 {
    match event
    case ShutdownEvent => SHUTDOWN_CALLED
    case PauseEvent => PAUSE_CALLED
    case ResumeEvent => RESUME_CALLED
    case SingleShotEvent => SINGLE_SHOT_CALLED
  }

  /** The events in an event vector. */
  ghost function EventsOf(vector: bv8): set<Event> {
    set e: Event | vector & Bit(e) != 0
  }

  function VectorOf(events: set<Event>): bv8 {
    (if ShutdownEvent in events then SHUTDOWN_CALLED else 0) |
    (if PauseEvent in events then PAUSE_CALLED else 0) |
    (if ResumeEvent in events then RESUME_CALLED else 0) |
    (if SingleShotEvent in events then SINGLE_SHOT_CALLED else 0)
  }

  lemma VectorAdds(vector: bv8, event: Event)
    ensures EventsOf(vector | Bit(event)) == EventsOf(vector) + {event}
  {
  }

  lemma VectorRepresents(events: set<Event>)
    ensures EventsOf(VectorOf(events)) == events && EventsOf(0) == {}
  {
  }

  /** The structure periodic_job; its methods are the functions of src/periodic_job.c. */
  class Monitor {
    var state: JobState
    var eventVector: bv8
    var period: nat
    var stopWait: CondVar
    // job_wait has one waiter, the runner
    var runnerSignalled: bool

    ghost function View(): Job
      reads this
    {
      Job(state, EventsOf(eventVector), period, stopWait)
    }

    constructor (period: nat)
      requires ValidPeriod(period)
      ensures View() == Init(period).j
    {
      VectorRepresents({});
      state, eventVector, runnerSignalled := PAUSED, 0, false;
      this.period, stopWait := period, NOBODY;
    }

    method Resume() returns (res: bool)
      modifies this
      ensures View() == EventSection(old(View()), ResumeEvent)
      ensures res == Accepts(old(state), ResumeEvent) && runnerSignalled == (old(runnerSignalled) || res)
    {
      res := state == PAUSED || state == SINGLE_SHOT_ON_PAUSED;
      if res {
        VectorAdds(eventVector, ResumeEvent);
        eventVector := eventVector | RESUME_CALLED;
        runnerSignalled := true;
      }
    }

    method Pause() returns (res: bool)
      modifies this
      ensures View() == EventSection(old(View()), PauseEvent)
      ensures res == Accepts(old(state), PauseEvent) && runnerSignalled == (old(runnerSignalled) || res)
    {
      res := state == RUNNING || state == WAITING || state == SINGLE_SHOT_ON_WAITING;
      if res {
        VectorAdds(eventVector, PauseEvent);
        eventVector := eventVector | PAUSE_CALLED;
        runnerSignalled := true;
      }
    }

    method SingleShot() returns (res: bool)
      modifies this
      ensures View() == EventSection(old(View()), SingleShotEvent)
      ensures res == Accepts(old(state), SingleShotEvent) && runnerSignalled == (old(runnerSignalled) || res)
    {
      res := state == WAITING || state == PAUSED;
      if res {
        VectorAdds(eventVector, SingleShotEvent);
        eventVector := eventVector | SINGLE_SHOT_CALLED;
        runnerSignalled := true;
      }
    }

    method Shutdown() returns (res: bool)
      modifies this
      ensures View() == EventSection(old(View()), ShutdownEvent)
      ensures res == Accepts(old(state), ShutdownEvent) && runnerSignalled == (old(runnerSignalled) || res)
    {
      res := state != SHUTDOWN;
      if res {
        VectorAdds(eventVector, ShutdownEvent);
        eventVector := eventVector | SHUTDOWN_CALLED;
        runnerSignalled := true;
      }
    }

    method UpdatePeriod(newPeriod: nat) returns (res: bool)
      requires newPeriod <= MAX_U64
      modifies this
      ensures res == ValidPeriod(newPeriod)
      ensures View() == if res then old(View()).(period := newPeriod) else old(View())
      ensures runnerSignalled == (old(runnerSignalled) || res)
    {
      if newPeriod == BLOCKING || newPeriod == NON_BLOCKING { return false; }
      period := newPeriod;
      runnerSignalled := true;
      return true;
    }

    method ConsumeEventsAndUpdateState(totalWaited: nat)
      modifies this`state, this`eventVector
      ensures View() == Consume(old(View()), totalWaited)
    {
      VectorRepresents({});
      match state {
      case PAUSED =>
        if eventVector & SHUTDOWN_CALLED != 0 {
          state := SHUTDOWN;
        } else if eventVector & RESUME_CALLED != 0 {
          state := RUNNING;
        } else if eventVector & SINGLE_SHOT_CALLED != 0 {
          state := SINGLE_SHOT_ON_PAUSED;
        } else {
          state := PAUSED;
        }
      case SINGLE_SHOT_ON_PAUSED =>
        if eventVector & SHUTDOWN_CALLED != 0 {
          state := SHUTDOWN;
        } else if eventVector & RESUME_CALLED != 0 {
          state := WAITING;
        } else {
          state := PAUSED;
        }
      case RUNNING =>
        if eventVector & SHUTDOWN_CALLED != 0 {
          state := SHUTDOWN;
        } else if eventVector & PAUSE_CALLED != 0 {
          state := PAUSED;
        } else {
          state := WAITING;
        }
      case WAITING =>
        if eventVector & SHUTDOWN_CALLED != 0 {
          state := SHUTDOWN;
        } else if eventVector & PAUSE_CALLED != 0 {
          state := PAUSED;
        } else if eventVector & SINGLE_SHOT_CALLED != 0 {
          state := SINGLE_SHOT_ON_WAITING;
        } else if totalWaited >= period {
          state := RUNNING;
        } else {
          state := WAITING;
        }
      case SINGLE_SHOT_ON_WAITING =>
        if eventVector & SHUTDOWN_CALLED != 0 {
          state := SHUTDOWN;
        } else if eventVector & PAUSE_CALLED != 0 {
          state := PAUSED;
        } else {
          state := WAITING;
        }
      case SHUTDOWN =>
      }
      eventVector := 0;
    }

    /** The runner from taking the lock: where it is when it gives the lock up for good, or still waits. */
    method Run(wakes: seq<RunnerWake>) returns (r: Runner)
      modifies this
      ensures (View(), r) == RunnerCall(old(View()), 0, wakes)
    {
      var totalWaited, k := 0, 0;
      while true
        invariant k <= |wakes|
        invariant RunnerCall(View(), totalWaited, wakes[k..]) == RunnerCall(old(View()), 0, wakes)
        decreases |wakes| - k
      {
        ConsumeEventsAndUpdateState(totalWaited);
        runnerSignalled := false;
        if state == SHUTDOWN {
          stopWait := stopWait.Broadcast();
          return Gone;
        } else if state == PAUSED {
          stopWait := stopWait.Broadcast();
          if k == |wakes| { return WaitsForever(false, totalWaited); }
        } else if state == WAITING {
          var timeToWait := SubU64(period, totalWaited);
          if k == |wakes| { return WaitsTimed(false, totalWaited, timeToWait); }
          totalWaited := AddU64(totalWaited, SubU64(timeToWait, wakes[k].remaining));
        } else {
          break;
        }
        // the lock is held again: the fields are what the other threads have left
        VectorRepresents(wakes[k].found.events);
        state, eventVector := wakes[k].found.state, VectorOf(wakes[k].found.events);
        period, stopWait := wakes[k].found.period, wakes[k].found.stopWait;
        k := k + 1;
      }
      r := AboutToCall;
    }

    /** The two functions that wait for the job to stop. */
    method WaitForStop(t: Tid, onlyShutdown: bool, wakes: seq<Job>) returns (over: bool)
      modifies this
      ensures (View(), over) == WaitCall(old(View()), t, onlyShutdown, wakes)
    {
      var k := 0;
      while state != SHUTDOWN && (onlyShutdown || state != PAUSED)
        invariant k <= |wakes|
        invariant WaitCall(View(), t, onlyShutdown, wakes[k..]) == WaitCall(old(View()), t, onlyShutdown, wakes)
        decreases |wakes| - k
      {
        stopWait := stopWait.Sleep(t);
        if k == |wakes| { return false; }
        VectorRepresents(wakes[k].events);
        state, eventVector := wakes[k].state, VectorOf(wakes[k].events);
        period, stopWait := wakes[k].period, wakes[k].stopWait.Leave(t);
        k := k + 1;
      }
      return true;
    }
  }

  /** new_periodic_job, which refuses the two special periods and a NULL function. */
  method NewPeriodicJob(jobFunction: Ptr, period: nat) returns (m: Monitor?)
    requires period <= MAX_U64
    ensures m != null <==> jobFunction != NULL && ValidPeriod(period)
    ensures m != null ==> fresh(m) && m.View() == Init(period).j
  {
    if jobFunction == NULL { return null; }
    if period == BLOCKING || period == NON_BLOCKING { return null; }
    m := new Monitor(period);
  }
}
