/**
 Any number of threads pushing to and popping from one job queue, closing it and changing
 its limit, in every interleaving, with spurious wake-ups and timeouts at any point.
 What is proved here holds for both implementations behind the queue.
 */
module QueueRuns {
  import opened Base
  import opened CondVars
  import opened QueueTypes
  import opened JobQueue
  import SyncQueue
  import Runs

  /** A call that waits, and whether it was made with the BLOCKING timeout. */
  datatype Call<T> = Pushing(x: T, blocking: bool) | Popping(blocking: bool)

  /** The queue, the calls that wait on it, and the elements pushed and popped so far. */
  datatype System<T> = System(q: JobQueue<T>, calls: map<Tid, Call<T>>, pushed: seq<T>, popped: seq<T>)

  datatype Step<T> =
    | PushCalled(t: Tid, x: T, blocking: bool, choice: Choice)
    | PushWakes(t: Tid, timedOut: bool, choice: Choice)
    | PopCalled(t: Tid, blocking: bool, choice: Choice)
    | PopWakes(t: Tid, timedOut: bool, choice: Choice)
    | CloseCalled
    | UpdateMaxCalled(limit: nat)

  predicate Enabled<T>(s: System<T>, step: Step<T>) {
    match step
    case PushCalled(t, _, _, choice) => t !in s.calls && PushChoiceOk(s.q, choice)
    case PushWakes(t, timedOut, choice) =>
      t in s.calls && s.calls[t].Pushing? && PushChoiceOk(s.q, choice) && (timedOut ==> !s.calls[t].blocking)
    case PopCalled(t, _, choice) => t !in s.calls && PopChoiceOk(s.q, choice)
    case PopWakes(t, timedOut, choice) =>
      t in s.calls && s.calls[t].Popping? && PopChoiceOk(s.q, choice) && (timedOut ==> !s.calls[t].blocking)
    case CloseCalled => true
    case UpdateMaxCalled(limit) => limit <= MAX_U64
  }

  function PushEnds<T>(s: System<T>, t: Tid, call: Call<T>, r: (JobQueue<T>, PushOutcome)): System<T>
    requires call.Pushing?
  {
    match r.1
    case PushSleeps => s.(q := r.0, calls := s.calls[t := call])
    case PushReturns(ok) =>
      s.(q := r.0, calls := s.calls - {t}, pushed := if ok then s.pushed + [call.x] else s.pushed)
  }

  function PopEnds<T>(s: System<T>, t: Tid, call: Call<T>, r: (JobQueue<T>, PopOutcome<T>)): System<T> {
    match r.1
    case PopSleeps => s.(q := r.0, calls := s.calls[t := call])
    case PopReturns(item) =>
      s.(q := r.0, calls := s.calls - {t}, popped := if item.Some? then s.popped + [item.value] else s.popped)
  }

  function Next<T>(s: System<T>, step: Step<T>): System<T> {
    if !Enabled(s, step) then s else
    match step
    case PushCalled(t, x, blocking, choice) =>
      PushEnds(s, t, Pushing(x, blocking), Push(s.q, t, x, false, choice))
    case PushWakes(t, timedOut, choice) =>
      PushEnds(s, t, s.calls[t], PushWake(s.q, t, s.calls[t].x, timedOut, choice))
    case PopCalled(t, blocking, choice) => PopEnds(s, t, Popping(blocking), Pop(s.q, t, false, choice))
    case PopWakes(t, timedOut, choice) => PopEnds(s, t, s.calls[t], PopWake(s.q, t, timedOut, choice))
    case CloseCalled => s.(q := CloseSection(s.q))
    case UpdateMaxCalled(limit) => s.(q := UpdateMaxCapacitySection(s.q, limit))
  }

  function Init<T>(maxCapacity: nat): System<T> {
    System(Initialize(maxCapacity), map[], [], [])
  }

  /** The waiting threads are exactly those of the calls that wait. */
  ghost predicate Links<T>(calls: map<Tid, Call<T>>, pushers: set<Tid>, poppers: set<Tid>) {
    && (forall t :: t in pushers <==> t in calls && calls[t].Pushing?)
    && (forall t :: t in poppers <==> t in calls && calls[t].Popping?)
  }

  lemma LinksSleep<T>(calls: map<Tid, Call<T>>, pushers: set<Tid>, poppers: set<Tid>, t: Tid, call: Call<T>)
    requires Links(calls, pushers, poppers) && (t in calls ==> calls[t].Popping? == call.Popping?)
    ensures call.Pushing? ==> Links(calls[t := call], pushers + {t}, poppers)
    ensures call.Popping? ==> Links(calls[t := call], pushers, poppers + {t})
  {
    var calls' := calls[t := call];
    assert forall u | u != t :: u in calls' <==> u in calls;
    assert forall u | u != t && u in calls :: calls'[u] == calls[u];
  }

  ghost predicate Linked<T>(s: System<T>) {
    && s.q.Sound()
    && Links(s.calls, s.q.Full().waiting, s.q.Empty().waiting)
  }

  /** First in, first out: what was popped, followed by what is queued, is what was pushed. */
  ghost predicate Fifo<T>(s: System<T>) {
    s.pushed == s.popped + s.q.Items()
  }

  /** How a run may go on: logs only grow, and a closed queue takes no more elements. */
  ghost predicate Grows<T>(s: System<T>, s': System<T>) {
    && s.popped <= s'.popped
    && s.pushed <= s'.pushed
    && (s.q.Closed() ==> s'.q.Closed() && s'.pushed == s.pushed)
  }

  lemma PushEndsLinked<T>(s: System<T>, t: Tid, call: Call<T>, full: CondVar, waitError: bool,
                          r: (JobQueue<T>, PushOutcome))
    requires Linked(s) && call.Pushing? && (t in s.calls ==> s.calls[t].Pushing?)
    requires full.waiting == s.q.Full().waiting - {t}
    requires PushEffect(s.q, full, t, call.x, waitError, r.0, r.1)
    ensures Linked(PushEnds(s, t, call, r))
  {
    var pushers, poppers := s.q.Full().waiting, s.q.Empty().waiting;
    if r.1.PushSleeps? {
      assert r.0.Full().waiting == pushers + {t};
      LinksSleep(s.calls, pushers, poppers, t, call);
    } else {
      assert Links(s.calls - {t}, pushers - {t}, poppers);
    }
  }

  lemma PushEndsFifo<T>(s: System<T>, t: Tid, call: Call<T>, full: CondVar, waitError: bool,
                        r: (JobQueue<T>, PushOutcome))
    requires Fifo(s) && call.Pushing?
    requires PushEffect(s.q, full, t, call.x, waitError, r.0, r.1)
    ensures Fifo(PushEnds(s, t, call, r)) && Grows(s, PushEnds(s, t, call, r))
  {
    assert s.popped + (s.q.Items() + [call.x]) == (s.popped + s.q.Items()) + [call.x];
  }

  lemma PopEndsLinked<T>(s: System<T>, t: Tid, call: Call<T>, empty: CondVar, waitError: bool,
                         r: (JobQueue<T>, PopOutcome<T>))
    requires Linked(s) && call.Popping? && (t in s.calls ==> s.calls[t].Popping?)
    requires empty.waiting == s.q.Empty().waiting - {t}
    requires PopEffect(s.q, empty, t, waitError, r.0, r.1)
    ensures Linked(PopEnds(s, t, call, r))
  {
    var pushers, poppers := s.q.Full().waiting, s.q.Empty().waiting;
    if r.1.PopSleeps? {
      assert r.0.Empty().waiting == poppers + {t};
      LinksSleep(s.calls, pushers, poppers, t, call);
    } else {
      assert Links(s.calls - {t}, pushers, poppers - {t});
    }
  }

  lemma PopEndsFifo<T>(s: System<T>, t: Tid, call: Call<T>, empty: CondVar, waitError: bool,
                       r: (JobQueue<T>, PopOutcome<T>))
    requires Fifo(s)
    requires PopEffect(s.q, empty, t, waitError, r.0, r.1)
    ensures Fifo(PopEnds(s, t, call, r)) && Grows(s, PopEnds(s, t, call, r))
  {
    if r.1.PopReturns? && r.1.item.Some? {
      assert s.q.Items() == [r.1.item.value] + r.0.Items();
      assert s.popped + s.q.Items() == (s.popped + [r.1.item.value]) + r.0.Items();
    }
  }

  lemma PopWakesKeepsLinked<T>(s: System<T>, t: Tid, timedOut: bool, choice: Choice)
    requires Linked(s) && t in s.calls && s.calls[t].Popping? && PopChoiceOk(s.q, choice)
    ensures Linked(PopEnds(s, t, s.calls[t], PopWake(s.q, t, timedOut, choice)))
  {
    PopWakeHasEffect(s.q, t, timedOut, choice);
    PopEndsLinked(s, t, s.calls[t], s.q.Empty().Leave(t), timedOut, PopWake(s.q, t, timedOut, choice));
  }

  lemma PopCalledKeepsLinked<T>(s: System<T>, t: Tid, blocking: bool, choice: Choice)
    requires Linked(s) && t !in s.calls && PopChoiceOk(s.q, choice)
    ensures Linked(PopEnds(s, t, Popping(blocking), Pop(s.q, t, false, choice)))
  {
    PopHasEffect(s.q, t, false, choice);
    PopEndsLinked(s, t, Popping(blocking), s.q.Empty(), false, Pop(s.q, t, false, choice));
  }

  lemma PushWakesKeepsLinked<T>(s: System<T>, t: Tid, timedOut: bool, choice: Choice)
    requires Linked(s) && t in s.calls && s.calls[t].Pushing? && PushChoiceOk(s.q, choice)
    ensures Linked(PushEnds(s, t, s.calls[t], PushWake(s.q, t, s.calls[t].x, timedOut, choice)))
  {
    PushWakeHasEffect(s.q, t, s.calls[t].x, timedOut, choice);
    PushEndsLinked(s, t, s.calls[t], s.q.Full().Leave(t), timedOut,
                   PushWake(s.q, t, s.calls[t].x, timedOut, choice));
  }

  lemma PushCalledKeepsLinked<T>(s: System<T>, t: Tid, x: T, blocking: bool, choice: Choice)
    requires Linked(s) && t !in s.calls && PushChoiceOk(s.q, choice)
    ensures Linked(PushEnds(s, t, Pushing(x, blocking), Push(s.q, t, x, false, choice)))
  {
    PushHasEffect(s.q, t, x, false, choice);
    PushEndsLinked(s, t, Pushing(x, blocking), s.q.Full(), false, Push(s.q, t, x, false, choice));
  }

  lemma StepKeepsLinked<T>(s: System<T>, step: Step<T>)
    requires Linked(s)
    ensures Linked(Next(s, step))
  {
    if Enabled(s, step) {
      match step
      case PushCalled(t, x, blocking, choice) => PushCalledKeepsLinked(s, t, x, blocking, choice);
      case PushWakes(t, timedOut, choice) => PushWakesKeepsLinked(s, t, timedOut, choice);
      case PopCalled(t, blocking, choice) => PopCalledKeepsLinked(s, t, blocking, choice);
      case PopWakes(t, timedOut, choice) => PopWakesKeepsLinked(s, t, timedOut, choice);
      case CloseCalled => CloseHasEffect(s.q);
      case UpdateMaxCalled(limit) => UpdateMaxCapacityHasEffect(s.q, limit);
    }
  }

  lemma StepKeepsFifo<T>(s: System<T>, step: Step<T>)
    requires Linked(s) && Fifo(s)
    ensures Fifo(Next(s, step)) && Grows(s, Next(s, step))
  {
    if Enabled(s, step) {
      match step
      case PushCalled(t, x, blocking, choice) =>
        PushHasEffect(s.q, t, x, false, choice);
        PushEndsFifo(s, t, Pushing(x, blocking), s.q.Full(), false, Push(s.q, t, x, false, choice));
      case PushWakes(t, timedOut, choice) =>
        PushWakeHasEffect(s.q, t, s.calls[t].x, timedOut, choice);
        PushEndsFifo(s, t, s.calls[t], s.q.Full().Leave(t), timedOut,
                     PushWake(s.q, t, s.calls[t].x, timedOut, choice));
      case PopCalled(t, blocking, choice) =>
        PopHasEffect(s.q, t, false, choice);
        PopEndsFifo(s, t, Popping(blocking), s.q.Empty(), false, Pop(s.q, t, false, choice));
      case PopWakes(t, timedOut, choice) =>
        PopWakeHasEffect(s.q, t, timedOut, choice);
        PopEndsFifo(s, t, s.calls[t], s.q.Empty().Leave(t), timedOut, PopWake(s.q, t, timedOut, choice));
      case CloseCalled => CloseHasEffect(s.q);
      case UpdateMaxCalled(limit) => UpdateMaxCapacityHasEffect(s.q, limit);
    }
  }

  /** Every state a queue can be in, from creation, under any schedule. */
  function Reach<T>(maxCapacity: nat, schedule: seq<Step<T>>): System<T> {
    Runs.After(Next, Init(maxCapacity), schedule)
  }

  lemma RunsKeepInv<T(!new)>(s: System<T>, schedule: seq<Step<T>>)
    requires Linked(s) && Fifo(s)
    ensures var s' := Runs.After(Next, s, schedule); Linked(s') && Fifo(s')
  {
    ghost var inv := (u: System<T>) => Linked(u) && Fifo(u);
    forall u, step | inv(u) ensures inv(Next(u, step)) {
      StepKeepsLinked(u, step);
      StepKeepsFifo(u, step);
    }
    Runs.InvariantRule(Next, inv, s, schedule);
  }

  /** In every run, what was pushed is what was popped followed by what is queued. */
  lemma FirstInFirstOut<T(!new)>(maxCapacity: nat, schedule: seq<Step<T>>)
    requires maxCapacity <= MAX_U64
    ensures var s := Reach(maxCapacity, schedule); s.pushed == s.popped + s.q.Items()
  {
    RunsKeepInv(Init<T>(maxCapacity), schedule);
  }

  /**
   A closed queue stays closed in every run: nothing more is pushed, and what is popped
   from then on is a prefix of what it held, in order.
   */
  lemma {:induction false} ClosedQueueOnlyDrains<T(!new)>(s: System<T>, schedule: seq<Step<T>>)
    requires Linked(s) && Fifo(s) && s.q.Closed()
    ensures var s' := Runs.After(Next, s, schedule);
            s'.q.Closed() && s'.pushed == s.pushed && s.popped <= s'.popped <= s.popped + s.q.Items()
    decreases |schedule|
  {
    if schedule != [] {
      StepKeepsLinked(s, schedule[0]);
      StepKeepsFifo(s, schedule[0]);
      ClosedQueueOnlyDrains(Next(s, schedule[0]), schedule[1..]);
    }
  }

  /**
   A pop, new or out of its wait, goes on waiting exactly while the queue is open and empty and
   its time is not over, and takes an element exactly when there is one.
   */
  lemma PopsReturnExactlyWhen<T>(s: System<T>, step: Step<T>)
    requires Linked(s) && Enabled(s, step) && (step.PopCalled? || step.PopWakes?)
    ensures var late := step.PopWakes? && step.timedOut;
            var s' := Next(s, step);
            && (step.t in s'.calls <==> !s.q.Closed() && s.q.Items() == [] && !late)
            && s'.popped == (if s.q.Items() == [] then s.popped else s.popped + [s.q.Items()[0]])
  {
    match step
    case PopCalled(t, _, choice) => PopHasEffect(s.q, t, false, choice);
    case PopWakes(t, timedOut, choice) => PopWakeHasEffect(s.q, t, timedOut, choice);
  }

  /**
   A push goes on waiting exactly while the queue is open, full and at its limit and its time is
   not over, and succeeds exactly when there is room.
   */
  lemma PushesReturnExactlyWhen<T>(s: System<T>, step: Step<T>)
    requires Linked(s) && Enabled(s, step) && (step.PushCalled? || step.PushWakes?)
    ensures var late := step.PushWakes? && step.timedOut;
            var x := if step.PushCalled? then step.x else s.calls[step.t].x;
            var s' := Next(s, step);
            && (step.t in s'.calls <==> MakesPushersWait(s.q) && !late)
            && s'.pushed == (if HasRoom(s.q, step.choice) then s.pushed + [x] else s.pushed)
  {
    match step
    case PushCalled(t, x, _, choice) => PushOutcomeExactlyWhen(s.q, t, x, false, choice);
    case PushWakes(t, timedOut, choice) => PushOutcomeExactlyWhen(s.q, t, s.calls[t].x, timedOut, choice);
  }

  lemma StepClosesExactlyWhen<T>(s: System<T>, step: Step<T>)
    requires Linked(s)
    ensures Next(s, step).q.Closed() <==> s.q.Closed() || step.CloseCalled?
  {
    if Enabled(s, step) {
      match step
      case PushCalled(t, x, _, choice) => PushHasEffect(s.q, t, x, false, choice);
      case PushWakes(t, timedOut, choice) => PushWakeHasEffect(s.q, t, s.calls[t].x, timedOut, choice);
      case PopCalled(t, _, choice) => PopHasEffect(s.q, t, false, choice);
      case PopWakes(t, timedOut, choice) => PopWakeHasEffect(s.q, t, timedOut, choice);
      case CloseCalled => CloseHasEffect(s.q);
      case UpdateMaxCalled(limit) => UpdateMaxCapacityHasEffect(s.q, limit);
    }
  }

  /** In every run the queue is closed exactly when somebody has closed it. */
  lemma {:induction false} ClosedExactlyWhenCalled<T(!new)>(maxCapacity: nat, schedule: seq<Step<T>>)
    requires maxCapacity <= MAX_U64
    ensures Reach(maxCapacity, schedule).q.Closed() <==> CloseCalled in schedule
    decreases |schedule|
  {
    if schedule != [] {
      var before, last := schedule[..|schedule| - 1], schedule[|schedule| - 1];
      assert schedule == before + [last];
      ClosedExactlyWhenCalled(maxCapacity, before);
      RunsKeepInv(Init<T>(maxCapacity), before);
      Runs.AfterAppend(Next, Init<T>(maxCapacity), before, last);
      StepClosesExactlyWhen(Reach(maxCapacity, before), last);
    }
  }

  /** The limit that a schedule asks for: the last one, or the initial one. */
  function LimitAskedFor<T>(maxCapacity: nat, schedule: seq<Step<T>>): nat {
    if schedule == [] then maxCapacity
    else
      var last := schedule[|schedule| - 1];
      if last.UpdateMaxCalled? && last.limit <= MAX_U64 then last.limit
      else LimitAskedFor(maxCapacity, schedule[..|schedule| - 1])
  }

  lemma StepKeepsLimit<T>(s: System<T>, step: Step<T>)
    ensures Next(s, step).q.ArrayList? == s.q.ArrayList?
    ensures s.q.ArrayList? ==>
              Next(s, step).q.sq.maxCapacity ==
              if step.UpdateMaxCalled? && step.limit <= MAX_U64 then step.limit else s.q.sq.maxCapacity
  {
  }

  /**
   In every run the queue is the one chosen when it was created, and an array list has the limit
   that was last asked for.
   */
  lemma {:induction false} LastLimitTakesHold<T(!new)>(maxCapacity: nat, schedule: seq<Step<T>>)
    ensures var q := Reach(maxCapacity, schedule).q;
            && (q.LinkedList? <==> maxCapacity == 0)
            && (q.ArrayList? ==> q.sq.maxCapacity == LimitAskedFor(maxCapacity, schedule))
    decreases |schedule|
  {
    if schedule != [] {
      var before, last := schedule[..|schedule| - 1], schedule[|schedule| - 1];
      assert schedule == before + [last];
      LastLimitTakesHold(maxCapacity, before);
      Runs.AfterAppend(Next, Init<T>(maxCapacity), before, last);
      StepKeepsLimit(Reach(maxCapacity, before), last);
    }
  }

  /**
   No consumer wake-up is lost, although a push signals only one thread: in every run, while
   a popper is asleep on an open queue each element has its own woken popper, and once the
   queue is closed nobody is left asleep.
   */
  lemma NoPopperIsStranded<T(!new)>(maxCapacity: nat, schedule: seq<Step<T>>)
    requires maxCapacity <= MAX_U64
    ensures var q := Reach(maxCapacity, schedule).q;
            && (q.Empty().asleep != {} ==> |q.Items()| <= |q.Empty().Woken()|)
            && (q.Closed() ==> q.Empty().asleep == {} && q.Full().asleep == {})
  {
    RunsKeepInv(Init<T>(maxCapacity), schedule);
    WokenCounts(Reach<T>(maxCapacity, schedule).q.Empty());
  }

  /**
   The steps that cannot strand a pusher: the limit is raised only when the array list is
   full or no pusher sleeps, and a pusher that was waiting manages to expand the array list
   unless its wake-up can be spared.
   */
  predicate Careful<T>(s: System<T>, step: Step<T>) {
    s.q.ArrayList? && Enabled(s, step) ==>
      match step
      case UpdateMaxCalled(limit) =>
        limit > s.q.sq.maxCapacity ==> s.q.sq.IsFull() || s.q.sq.full.asleep == {}
      case PushWakes(t, _, choice) =>
        SyncQueue.PushExpands(s.q.sq) ==> choice.newCapacity > s.q.sq.capacity || SyncQueue.CanSpare(s.q.sq, t)
      case _ => true
  }

  predicate CarefulRun<T>(s: System<T>, schedule: seq<Step<T>>)
    decreases |schedule|
  {
    schedule == [] || (Careful(s, schedule[0]) && CarefulRun(Next(s, schedule[0]), schedule[1..]))
  }

  lemma CarefulPushCoversPushers<T>(s: System<T>, step: Step<T>, sq: SyncQueue.Queue<T>)
    requires s.q == ArrayList(sq) && Linked(s) && sq.NoLostPusher() && Careful(s, step) && Enabled(s, step)
    requires step.PushCalled? || step.PushWakes?
    ensures Next(s, step).q.NoLostPusher()
  {
    var t, choice := step.t, step.choice;
    var awake := sq.(full := sq.full.Leave(t));
    if step.PushCalled? {
      SyncQueue.PushWakeCoversPushers(sq, t, step.x, false, choice);
      LeaveCounts(sq.full, t);
      assert Next(s, step).q == ArrayList(SyncQueue.PushSection(awake, t, step.x, false, choice).0);
    } else {
      SyncQueue.PushWakeCoversPushers(sq, t, s.calls[t].x, step.timedOut, choice);
      assert Next(s, step).q == ArrayList(SyncQueue.PushSection(awake, t, s.calls[t].x, step.timedOut, choice).0);
    }
  }

  lemma CarefulPopCoversPushers<T>(s: System<T>, step: Step<T>, sq: SyncQueue.Queue<T>)
    requires s.q == ArrayList(sq) && Linked(s) && sq.NoLostPusher() && Enabled(s, step)
    requires step.PopCalled? || step.PopWakes?
    ensures Next(s, step).q.NoLostPusher()
  {
    var t, choice := step.t, step.choice;
    var awake := sq.(empty := sq.empty.Leave(t));
    if step.PopCalled? {
      SyncQueue.PopCoversPushers(sq, t, false, choice);
      assert Next(s, step).q == ArrayList(SyncQueue.PopSection(sq, t, false, choice).0);
    } else {
      SyncQueue.PopCoversPushers(awake, t, step.timedOut, choice);
      assert Next(s, step).q == ArrayList(SyncQueue.PopSection(awake, t, step.timedOut, choice).0);
    }
  }

  lemma CarefulStepCoversPushers<T>(s: System<T>, step: Step<T>)
    requires Linked(s) && s.q.NoLostPusher() && Careful(s, step)
    ensures Next(s, step).q.NoLostPusher()
  {
    if s.q.ArrayList? && Enabled(s, step) {
      match step
      case PushCalled(_, _, _, _) => CarefulPushCoversPushers(s, step, s.q.sq);
      case PushWakes(_, _, _) => CarefulPushCoversPushers(s, step, s.q.sq);
      case PopCalled(_, _, _) => CarefulPopCoversPushers(s, step, s.q.sq);
      case PopWakes(_, _, _) => CarefulPopCoversPushers(s, step, s.q.sq);
      case CloseCalled =>
      case UpdateMaxCalled(_) =>
    }
  }

  lemma {:induction false} CarefulRunsCoverPushers<T(!new)>(s: System<T>, schedule: seq<Step<T>>)
    requires Linked(s) && s.q.NoLostPusher() && CarefulRun(s, schedule)
    ensures var s' := Runs.After(Next, s, schedule); Linked(s') && s'.q.NoLostPusher()
    decreases |schedule|
  {
    if schedule != [] {
      StepKeepsLinked(s, schedule[0]);
      CarefulStepCoversPushers(s, schedule[0]);
      CarefulRunsCoverPushers(Next(s, schedule[0]), schedule[1..]);
    }
  }

  /**
   No producer wake-up is lost in a careful run: while a pusher is asleep, the elements and
   the woken pushers together reach the limit. So producers and consumers never all sleep,
   unless the limit was set to 0.
   */
  lemma NoPusherIsStranded<T(!new)>(maxCapacity: nat, schedule: seq<Step<T>>)
    requires maxCapacity <= MAX_U64 && CarefulRun(Init<T>(maxCapacity), schedule)
    ensures var q := Reach(maxCapacity, schedule).q;
            q.ArrayList? && q.sq.full.asleep != {} ==>
              && q.sq.maxCapacity != SyncQueue.UNBOUNDED_SYNC_QUEUE
              && |q.sq.items| + |q.sq.full.Woken()| >= q.sq.maxCapacity
              && (q.sq.maxCapacity >= 1 && q.sq.empty.asleep != {} ==> q.sq.full.Woken() + q.sq.empty.Woken() != {})
  {
    CarefulRunsCoverPushers(Init<T>(maxCapacity), schedule);
    var q := Reach<T>(maxCapacity, schedule).q;
    if q.ArrayList? {
      WokenCounts(q.sq.full);
      WokenCounts(q.sq.empty);
    }
  }

  /** No expansion, signal to the first pusher: what the libraries choose in the example below. */
  const QUIET := Choice({}, 2, true)

  /**
   Two elements fill a queue of limit 2 and pushers 3 and 4 fall asleep. A pop wakes pusher 3,
   the limit is raised to 10 while the array list has a free slot, and pusher 3 takes the slot.
   */
  const STRANDING: seq<Step<int>> := [
    PushCalled(1, 10, true, QUIET),
    PushCalled(1, 20, true, QUIET),
    PushCalled(3, 30, true, QUIET),
    PushCalled(4, 40, true, QUIET),
    PopCalled(5, true, Choice({3}, 2, true)),
    UpdateMaxCalled(10),
    PushWakes(3, false, QUIET)
  ]

  /** The queue of the example in the middle of the schedule, with both pushers asleep. */
  const BOTH_ASLEEP: System<int> := System(
    ArrayList(SyncQueue.Queue([10, 20], 2, 2, false, NOBODY, CondVar({3, 4}, {3, 4}))),
    map[3 := Pushing(30, true), 4 := Pushing(40, true)],
    [10, 20],
    [])

  lemma StrandingStarts()
    ensures Runs.After(Next, Init(2), STRANDING[..4]) == BOTH_ASLEEP
  {
    var s0, l := Init<int>(2), STRANDING[..4];
    var s1 := Next(s0, l[0]);
    Runs.OneStep(Next, s0, l);
    assert s1.q.sq == SyncQueue.Queue([10], 2, 2, false, NOBODY, NOBODY) && s1.calls == map[];
    var s2 := Next(s1, l[1]);
    Runs.OneStep(Next, s1, l[1..]);
    assert s2.q.sq == SyncQueue.Queue([10, 20], 2, 2, false, NOBODY, NOBODY) && s2.calls == map[];
    var s3 := Next(s2, l[2]);
    Runs.OneStep(Next, s2, l[2..]);
    assert s3.q.sq.full == CondVar({3}, {3});
    var s4 := Next(s3, l[3]);
    Runs.OneStep(Next, s3, l[3..]);
    assert s4.q.sq.full == CondVar({3, 4}, {3, 4});
    assert s4 == BOTH_ASLEEP && l[4..] == [];
  }

  lemma StrandingEnds()
    ensures Runs.After(Next, BOTH_ASLEEP, STRANDING[4..]).q ==
            ArrayList(SyncQueue.Queue([20, 30], 2, 10, false, NOBODY, CondVar({4}, {4})))
  {
    var l := STRANDING[4..];
    var s5 := Next(BOTH_ASLEEP, l[0]);
    Runs.OneStep(Next, BOTH_ASLEEP, l);
    assert s5.q.sq == SyncQueue.Queue([20], 2, 2, false, NOBODY, CondVar({3, 4}, {4}));
    var s6 := Next(s5, l[1]);
    Runs.OneStep(Next, s5, l[1..]);
    assert s6.q.sq == SyncQueue.Queue([20], 2, 10, false, NOBODY, CondVar({3, 4}, {4}));
    var s7 := Next(s6, l[2]);
    Runs.OneStep(Next, s6, l[2..]);
    assert s7.q.sq == SyncQueue.Queue([20, 30], 2, 10, false, NOBODY, CondVar({4}, {4})) && l[3..] == [];
  }

  /** The code can strand a pusher: limit 10, two elements, and pusher 4 asleep with no wake-up pending. */
  lemma RaisingTheLimitCanStrandAPusher()
    ensures var q := Reach(2, STRANDING).q;
            && q == ArrayList(SyncQueue.Queue([20, 30], 2, 10, false, NOBODY, CondVar({4}, {4})))
            && !q.NoLostPusher()
  {
    StrandingStarts();
    StrandingEnds();
    assert STRANDING == STRANDING[..4] + STRANDING[4..];
    Runs.AfterConcat(Next, Init<int>(2), STRANDING[..4], STRANDING[4..]);
  }

  /**
   One element fills a queue of limit 1, and pushers 3 and 4 fall asleep. A pop wakes pusher 3
   and shrinks the array list, which pusher 3 then cannot expand again.
   */
  const WASTING: seq<Step<int>> := [
    PushCalled(1, 10, true, Choice({}, 1, true)),
    PushCalled(3, 30, true, QUIET),
    PushCalled(4, 40, true, QUIET),
    PopCalled(5, true, Choice({3}, 0, true)),
    PushWakes(3, false, Choice({}, 0, true))
  ]

  /** The queue of this example with both pushers asleep. */
  const ONE_AND_TWO_ASLEEP: System<int> := System(
    ArrayList(SyncQueue.Queue([10], 1, 1, false, NOBODY, CondVar({3, 4}, {3, 4}))),
    map[3 := Pushing(30, true), 4 := Pushing(40, true)],
    [10],
    [])

  lemma WastingStarts()
    ensures Runs.After(Next, Init(1), WASTING[..3]) == ONE_AND_TWO_ASLEEP
  {
    var s0, l := Init<int>(1), WASTING[..3];
    var s1 := Next(s0, l[0]);
    Runs.OneStep(Next, s0, l);
    assert s1.q.sq == SyncQueue.Queue([10], 1, 1, false, NOBODY, NOBODY) && s1.calls == map[];
    var s2 := Next(s1, l[1]);
    Runs.OneStep(Next, s1, l[1..]);
    assert s2.q.sq.full == CondVar({3}, {3});
    var s3 := Next(s2, l[2]);
    Runs.OneStep(Next, s2, l[2..]);
    assert s3.q.sq.full == CondVar({3, 4}, {3, 4});
    assert s3 == ONE_AND_TWO_ASLEEP && l[3..] == [];
  }

  lemma WastingEnds()
    ensures Runs.After(Next, ONE_AND_TWO_ASLEEP, WASTING[3..]).q ==
            ArrayList(SyncQueue.Queue([], 0, 1, false, NOBODY, CondVar({4}, {4})))
  {
    var l := WASTING[3..];
    var s4 := Next(ONE_AND_TWO_ASLEEP, l[0]);
    Runs.OneStep(Next, ONE_AND_TWO_ASLEEP, l);
    assert s4.q.sq == SyncQueue.Queue([], 0, 1, false, NOBODY, CondVar({3, 4}, {4}));
    var s5 := Next(s4, l[1]);
    Runs.OneStep(Next, s4, l[1..]);
    assert s5.q.sq == SyncQueue.Queue([], 0, 1, false, NOBODY, CondVar({4}, {4})) && l[2..] == [];
  }

  /** The code can strand a pusher: an empty queue of limit 1, and pusher 4 asleep with no wake-up pending. */
  lemma AFailedExpansionCanStrandAPusher()
    ensures var q := Reach(1, WASTING).q;
            && q == ArrayList(SyncQueue.Queue([], 0, 1, false, NOBODY, CondVar({4}, {4})))
            && !q.NoLostPusher()
  {
    WastingStarts();
    WastingEnds();
    assert WASTING == WASTING[..3] + WASTING[3..];
    Runs.AfterConcat(Next, Init<int>(1), WASTING[..3], WASTING[3..]);
  }
}
