/** The write-once promise of src/promise.c. */
module Promise {
  import opened Base
  import opened CondVars
  import Runs

  /** What promise_lock protects. The callback is the pointer NULL until one is set. */
  datatype Promise = Promise(ready: bool, result: Ptr, callback: Ptr, wait: CondVar)

  const FRESH: Promise := Promise(false, NULL, NULL, NOBODY)

  datatype SetOutcome = SetOutcome(wasSet: bool, callbackToRun: Ptr)

  function SetResultSection(p: Promise, res: Ptr): (Promise, SetOutcome) {
    if p.ready then (p, SetOutcome(false, NULL))
    else (p.(ready := true, result := res, wait := p.wait.Broadcast()), SetOutcome(true, p.callback))
  }

  function SetCallbackSection(p: Promise, callback: Ptr): (Promise, SetOutcome) {
    if p.callback == NULL then
      (p.(callback := callback), SetOutcome(true, if p.ready then callback else NULL))
    else
      (p, SetOutcome(false, NULL))
  }

  /** get_promised_result waits while there is no result; None means it sleeps. */
  function GetSection(p: Promise, t: Tid): (Promise, Option<Ptr>) {
    if p.ready then (p, Some(p.result)) else (p.(wait := p.wait.Sleep(t)), None)
  }

  /** A callback that ran: which one, and the result it found in the promise. */
  datatype Firing = Firing(callback: Ptr, result: Ptr)

  /**
   One promise and any number of threads. `owes` are the threads that have left their
   critical section and have yet to run a callback; `firstResult` and `firstCallback` are the
   arguments of the first calls of set_promised_result and set_promised_callback, whatever
   these answer; `firings` and `results` list the callbacks run and the values handed to
   getters.
   */
  datatype System = System(
    p: Promise,
    owes: map<Tid, Ptr>,
    getters: set<Tid>,
    firstResult: Option<Ptr>,
    firstCallback: Option<Ptr>,
    firings: seq<Firing>,
    results: seq<Ptr>)

  datatype Step =
    | SetResultCalled(t: Tid, res: Ptr)
    | SetCallbackCalled(t: Tid, callback: Ptr)
    | CallbackRuns(t: Tid)
    | GetCalled(t: Tid)
    | GetterWakes(t: Tid)

  predicate Idle(s: System, t: Tid) {
    t !in s.owes && t !in s.getters
  }

  predicate Enabled(s: System, step: Step) {
    match step
    case SetResultCalled(t, _) => Idle(s, t)
    case SetCallbackCalled(t, callback) => Idle(s, t) && callback != NULL
    case CallbackRuns(t) => t in s.owes
    case GetCalled(t) => Idle(s, t)
    case GetterWakes(t) => t in s.getters
  }

  function Get(s: System, t: Tid, r: (Promise, Option<Ptr>)): System {
    match r.1
    case None => s.(p := r.0, getters := s.getters + {t})
    case Some(res) => s.(p := r.0, getters := s.getters - {t}, results := s.results + [res])
  }

  function Next(s: System, step: Step): System {
    if !Enabled(s, step) then s else
    match step
    case SetResultCalled(t, res) =>
      var (p, outcome) := SetResultSection(s.p, res);
      s.(p := p,
         owes := if outcome.wasSet && outcome.callbackToRun != NULL then s.owes[t := outcome.callbackToRun] else s.owes,
         firstResult := if s.firstResult.None? then Some(res) else s.firstResult)
    case SetCallbackCalled(t, callback) =>
      var (p, outcome) := SetCallbackSection(s.p, callback);
      s.(p := p,
         owes := if outcome.callbackToRun != NULL then s.owes[t := outcome.callbackToRun] else s.owes,
         firstCallback := if s.firstCallback.None? then Some(callback) else s.firstCallback)
    case CallbackRuns(t) =>
      s.(owes := s.owes - {t}, firings := s.firings + [Firing(s.owes[t], s.p.result)])
    case GetCalled(t) => Get(s, t, GetSection(s.p, t))
    case GetterWakes(t) => Get(s, t, GetSection(s.p.(wait := s.p.wait.Leave(t)), t))
  }

  const INIT: System := System(FRESH, map[], {}, None, None, [], [])

  function Reach(schedule: seq<Step>): System {
    Runs.After(Next, INIT, schedule)
  }

  /** Result and callback are there exactly when there was a first call, and are its argument. */
  ghost predicate WriteOnce(s: System) {
    && s.p.ready == s.firstResult.Some?
    && (s.p.ready ==> s.p.result == s.firstResult.value)
    && s.p.callback == (if s.firstCallback.Some? then s.firstCallback.value else NULL)
    && s.firstCallback != Some(NULL)
    && (!s.p.ready ==> s.results == [])
    && (forall res | res in s.results :: res == s.p.result)
  }

  /** Callbacks run plus callbacks owed: one as soon as result and callback are both there. */
  ghost predicate OneCallback(s: System) {
    && |s.firings| + |s.owes| == (if s.p.ready && s.p.callback != NULL then 1 else 0)
    && (forall t | t in s.owes :: s.owes[t] == s.p.callback)
    && (forall firing | firing in s.firings :: firing == Firing(s.p.callback, s.p.result))
  }

  /** Nobody sleeps on a promise that has its result. */
  ghost predicate NoLostGetter(s: System) {
    && s.p.wait.waiting == s.getters
    && (s.p.ready ==> s.p.wait.asleep == {})
  }

  ghost predicate Inv(s: System) {
    WriteOnce(s) && OneCallback(s) && NoLostGetter(s)
  }

  lemma OwingCounts(owes: map<Tid, Ptr>, t: Tid, callback: Ptr)
    ensures t in owes ==> |owes - {t}| == |owes| - 1
    ensures t !in owes ==> |owes[t := callback]| == |owes| + 1
  {
    assert (owes - {t}).Keys == owes.Keys - {t};
    assert owes[t := callback].Keys == owes.Keys + {t};
    assert |owes| == |owes.Keys| && |owes - {t}| == |(owes - {t}).Keys|;
    assert |owes[t := callback]| == |owes[t := callback].Keys|;
  }

  lemma StepKeepsWriteOnce(s: System, step: Step)
    requires WriteOnce(s) && NoLostGetter(s)
    ensures WriteOnce(Next(s, step)) && NoLostGetter(Next(s, step))
    ensures s.p.ready ==> Next(s, step).p.ready && Next(s, step).p.result == s.p.result
    ensures s.p.callback != NULL ==> Next(s, step).p.callback == s.p.callback
  {
  }

  lemma StepKeepsOneCallback(s: System, step: Step)
    requires WriteOnce(s) && OneCallback(s)
    ensures OneCallback(Next(s, step))
  {
    if Enabled(s, step) {
      match step
      case SetResultCalled(t, _) => OwingCounts(s.owes, t, s.p.callback);
      case SetCallbackCalled(t, callback) => OwingCounts(s.owes, t, callback);
      case CallbackRuns(t) => OwingCounts(s.owes, t, NULL);
      case GetCalled(_) =>
      case GetterWakes(_) =>
    }
  }

  lemma RunsKeepInv(s: System, schedule: seq<Step>)
    requires Inv(s)
    ensures Inv(Runs.After(Next, s, schedule))
  {
    forall u, step | Inv(u) ensures Inv(Next(u, step)) {
      StepKeepsWriteOnce(u, step);
      StepKeepsOneCallback(u, step);
    }
    Runs.InvariantRule(Next, Inv, s, schedule);
  }

  /**
   In every run a callback is owed or has run exactly when both a result and a callback have
   been set, never twice, and once nobody owes it, the first callback has run with the first
   result.
   */
  lemma CallbackRunsExactlyOnce(schedule: seq<Step>)
    ensures var s := Reach(schedule);
            && |s.firings| + |s.owes| == (if s.firstResult.Some? && s.firstCallback.Some? then 1 else 0)
            && (s.owes == map[] && s.firstResult.Some? && s.firstCallback.Some? ==>
                  s.firings == [Firing(s.firstCallback.value, s.firstResult.value)])
  {
    RunsKeepInv(INIT, schedule);
    var s := Reach(schedule);
    if s.owes == map[] && s.p.ready && s.p.callback != NULL {
      assert s.firings[0] in s.firings;
    }
  }

  /** What each call answers: 1 exactly when it is the first of its kind, and a callback to run when both are there. */
  lemma SetAnswersExactlyWhenFirst(p: Promise, arg: Ptr)
    ensures var (p', outcome) := SetResultSection(p, arg);
            && (outcome.wasSet <==> !p.ready)
            && outcome.callbackToRun == (if p.ready then NULL else p.callback)
            && p'.ready && p'.result == (if p.ready then p.result else arg) && p'.callback == p.callback
    ensures var (p', outcome) := SetCallbackSection(p, arg);
            && (outcome.wasSet <==> p.callback == NULL)
            && outcome.callbackToRun == (if p.callback == NULL && p.ready then arg else NULL)
            && p' == p.(callback := if p.callback == NULL then arg else p.callback)
  {
  }

  /**
   A call by an idle thread is made and logged, a callback that is owed can run, and a getter
   returns or sleeps.
   */
  lemma StepsTakeEffect(s: System, t: Tid, arg: Ptr)
    requires arg != NULL
    ensures t !in s.owes && t !in s.getters ==>
              && Next(s, SetResultCalled(t, arg)).firstResult ==
                 (if s.firstResult.None? then Some(arg) else s.firstResult)
              && Next(s, SetCallbackCalled(t, arg)).firstCallback ==
                 (if s.firstCallback.None? then Some(arg) else s.firstCallback)
    ensures t in s.owes ==>
              var s' := Next(s, CallbackRuns(t));
              t !in s'.owes && s'.firings == s.firings + [Firing(s.owes[t], s.p.result)]
    ensures forall step | (step == GetCalled(t) && t !in s.owes && t !in s.getters)
                          || (step == GetterWakes(t) && t in s.getters) ::
              var s' := Next(s, step);
              && s'.results == (if s.p.ready then s.results + [s.p.result] else s.results)
              && (t in s'.getters <==> !s.p.ready) && (!s.p.ready ==> t in s'.p.wait.asleep)
  {
  }

  /** Every getter and the callback see the argument of the one call that set the result. */
  lemma EverybodySeesTheFirstResult(schedule: seq<Step>)
    ensures var s := Reach(schedule);
            && (forall res | res in s.results :: s.firstResult == Some(res))
            && (forall firing | firing in s.firings :: s.firstResult == Some(firing.result))
            && (s.p.ready ==> s.p.wait.asleep == {})
  {
    RunsKeepInv(INIT, schedule);
  }

  /** Result and callback never change once they are set, whatever is called afterwards. */
  lemma {:induction false} ResultIsFinal(s: System, schedule: seq<Step>)
    requires Inv(s) && s.p.ready
    ensures var s' := Runs.After(Next, s, schedule);
            s'.p.ready && s'.p.result == s.p.result && s'.firstResult == s.firstResult
    decreases |schedule|
  {
    if schedule != [] {
      StepKeepsWriteOnce(s, schedule[0]);
      StepKeepsOneCallback(s, schedule[0]);
      ResultIsFinal(Next(s, schedule[0]), schedule[1..]);
    }
  }

  // ---- whole calls ----

  /** get_promised_result over all its waits; None when it still sleeps after the last wake-up. */
  function GetCall(p: Promise, t: Tid, wakes: seq<Promise>): (Promise, Option<Ptr>)
    decreases |wakes|
  {
    var r := GetSection(p, t);
    if r.1.None? && wakes != [] then GetCall(wakes[0].(wait := wakes[0].wait.Leave(t)), t, wakes[1..]) else r
  }

  /** A getter returns the result as soon as it finds it ready, and not before. */
  lemma {:induction false} GetCallIsDecided(p: Promise, t: Tid, wakes: seq<Promise>) returns (i: nat)
    ensures i <= |wakes| && forall k | 0 <= k < i :: !Found(p, wakes, k).ready
    ensures var l := Found(p, wakes, i);
            var (p', r) := GetCall(p, t, wakes);
            && r == (if l.ready then Some(l.result) else None)
            && (r.None? ==> i == |wakes|)
            && (t in p'.wait.waiting <==> r.None? || (i == 0 && t in p.wait.waiting))
    decreases |wakes|
  {
    i := 0;
    if !p.ready && wakes != [] {
      var woken := wakes[0].(wait := wakes[0].wait.Leave(t));
      var j := GetCallIsDecided(woken, t, wakes[1..]);
      i := j + 1;
      forall k | 0 <= k < i ensures !Found(p, wakes, k).ready {
        if k > 0 { var before := Found(woken, wakes[1..], k - 1); }
      }
    }
  }

  /** The structure promise; a method returns what is to be done once the lock is released. */
  class Monitor {
    var outputResultReady: bool
    var outputResult: Ptr
    var promisedCallback: Ptr
    var promiseWait: CondVar

    ghost function View(): Promise
      reads this
    {
      Promise(outputResultReady, outputResult, promisedCallback, promiseWait)
    }

    constructor ()
      ensures View() == FRESH
    {
      outputResultReady, outputResult := false, NULL;
      promiseWait, promisedCallback := NOBODY, NULL;
    }

    method SetResult(res: Ptr) returns (outcome: SetOutcome)
      modifies this
      ensures (View(), outcome) == SetResultSection(old(View()), res)
    {
      var wasSet, callbackToExecute := false, NULL;
      if !outputResultReady {
        outputResult := res;
        wasSet := true;
        outputResultReady := true;
        promiseWait := promiseWait.Broadcast();
        callbackToExecute := promisedCallback;
      }
      outcome := SetOutcome(wasSet, if callbackToExecute != NULL && wasSet then callbackToExecute else NULL);
    }

    method SetCallback(callback: Ptr) returns (outcome: SetOutcome)
      modifies this
      ensures (View(), outcome) == SetCallbackSection(old(View()), callback)
    {
      var wasSet := false;
      if promisedCallback == NULL {
        promisedCallback := callback;
        wasSet := true;
      }
      var isResultReady := outputResultReady;
      outcome := SetOutcome(wasSet, if isResultReady && wasSet then callback else NULL);
    }

    method GetResult(t: Tid, wakes: seq<Promise>) returns (r: Option<Ptr>)
      modifies this
      ensures (View(), r) == GetCall(old(View()), t, wakes)
    {
      var k := 0;
      while !outputResultReady
        invariant k <= |wakes|
        invariant GetCall(View(), t, wakes[k..]) == GetCall(old(View()), t, wakes)
        decreases |wakes| - k
      {
        promiseWait := promiseWait.Sleep(t);
        if k == |wakes| { return None; }
        // the lock is held again: the fields are what the other threads have left
        outputResultReady, outputResult := wakes[k].ready, wakes[k].result;
        promisedCallback, promiseWait := wakes[k].callback, wakes[k].wait.Leave(t);
        k := k + 1;
      }
      r := Some(outputResult);
    }
  }
}
