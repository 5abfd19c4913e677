/** The job of src/job.c: CREATED, RUNNING, COMPLETED or CANCELLED, and its promise. */
module Job {
  import opened Base
  import Promise

  datatype JobState = CREATED | RUNNING | COMPLETED | CANCELLED

  /**
   A job, with what happened to it: the promise it was offered, how often its function and
   its cancellation callback were called, what the function returned, and how often the job
   set its promise.
   */
  datatype Job = Job(
    state: JobState,
    offered: Option<Promise.Promise>,
    promise: Option<Promise.Promise>,
    hasCancellationCallback: bool,
    calls: nat,
    cancellations: nat,
    output: Ptr,
    sets: nat)

  function New(promise: Option<Promise.Promise>, hasCancellationCallback: bool): Job {
    Job(CREATED, promise, promise, hasCancellationCallback, 0, 0, NULL, 0)
  }

  /** set_promised_result on the job's promise, if it has one. */
  function Fulfil(j: Job, res: Ptr): Job {
    match j.promise
    case None => j
    case Some(p) =>
      var (p', outcome) := Promise.SetResultSection(p, res);
      j.(promise := Some(p'), sets := if outcome.wasSet then j.sets + 1 else j.sets)
  }

  /** execute_job up to and including the call of the job function; it leaves any job not CREATED alone. */
  function BeginExecution(j: Job): Job {
    if j.state != CREATED then j else j.(state := RUNNING, calls := j.calls + 1)
  }

  /** execute_job from the return of the job function. */
  function EndExecution(j: Job, output: Ptr): Job {
    Fulfil(j.(output := output), output).(state := COMPLETED)
  }

  /** cancel_job; it leaves any job not CREATED alone. */
  function Cancel(j: Job): Job {
    if j.state != CREATED then j else
    var called := if j.hasCancellationCallback then j.(cancellations := j.cancellations + 1) else j;
    Fulfil(called, NULL).(state := CANCELLED)
  }

  /** Nothing has been done with the job. */
  ghost predicate Untouched(j: Job) {
    && j.state == CREATED && j.calls == 0 && j.cancellations == 0 && j.sets == 0
    && j.promise == j.offered
  }

  ghost predicate Started(j: Job) {
    && j.state == RUNNING && j.calls == 1 && j.cancellations == 0 && j.sets == 0
    && j.promise == j.offered
  }

  /** The promise was set once, to res, unless it had been fulfilled before it was offered. */
  ghost predicate Fulfilled(j: Job, res: Ptr) {
    if j.offered.Some? && !j.offered.value.ready then
      j.sets == 1 && j.promise.Some? && j.promise.value.ready && j.promise.value.result == res
    else
      j.sets == 0 && j.promise == j.offered
  }

  /** Executed once, never cancelled, and the promise holds the function's output. */
  ghost predicate ExecutedOnce(j: Job) {
    j.state == COMPLETED && j.calls == 1 && j.cancellations == 0 && Fulfilled(j, j.output)
  }

  /** Never executed, cancelled once, and the promise holds NULL. */
  ghost predicate CancelledOnce(j: Job) {
    && j.state == CANCELLED && j.calls == 0
    && j.cancellations == (if j.hasCancellationCallback then 1 else 0)
    && Fulfilled(j, NULL)
  }

  ghost predicate Settled(j: Job) {
    ExecutedOnce(j) || CancelledOnce(j)
  }

  /** Exactly one of executing and cancelling settles a job, and both are then refused. */
  lemma LifeOfAJob(j: Job, output: Ptr)
    requires Untouched(j)
    ensures Started(BeginExecution(j))
    ensures ExecutedOnce(EndExecution(BeginExecution(j), output))
    ensures CancelledOnce(Cancel(j))
  {
  }

  /** Only a CREATED job is started or cancelled; any other is left alone. */
  lemma OnlyCreatedJobsAreTouched(j: Job)
    ensures j.state != CREATED ==> BeginExecution(j) == j && Cancel(j) == j
    ensures j.state == CREATED ==> BeginExecution(j).calls == j.calls + 1 && BeginExecution(j).state == RUNNING
    ensures j.state == CREATED ==> Cancel(j).calls == j.calls && Cancel(j).state == CANCELLED
  {
  }

  /** Fulfilling a promise changes nothing of it but what set_promised_result changes, and wakes its getters. */
  lemma FulfillingWakesGetters(j: Job, res: Ptr)
    requires j.promise.Some? && !j.promise.value.ready
    ensures var p, p' := j.promise.value, Fulfil(j, res).promise;
            p' == Some(p.(ready := true, result := res, wait := p.wait.Broadcast()))
  {
  }

  lemma EndSettles(j: Job, output: Ptr)
    requires Started(j)
    ensures ExecutedOnce(EndExecution(j, output)) && EndExecution(j, output).output == output
  {
  }

  lemma SettledJobsStaySettled(j: Job)
    requires Settled(j)
    ensures BeginExecution(j) == j && Cancel(j) == j
  {
  }

  /**
   The structure job with the promise it fulfils. The job function is abstract and returns;
   what it computes is a function of its input.
   */
  class JobObject {
    var state: JobState
    const input: Ptr
    const jobFunction: Ptr -> Ptr
    const promiseForOutput: Promise.Monitor?
    ghost const offered: Option<Promise.Promise>
    const hasCancellationCallback: bool
    var calls: nat
    var cancellations: nat
    var output: Ptr
    var sets: nat

    ghost function View(): Job
      reads this, promiseForOutput
    {
      Job(state, offered, if promiseForOutput == null then None else Some(promiseForOutput.View()),
          hasCancellationCallback, calls, cancellations, output, sets)
    }

    constructor (jobFunction: Ptr -> Ptr, input: Ptr, promiseForOutput: Promise.Monitor?,
                 hasCancellationCallback: bool)
      ensures this.jobFunction == jobFunction && this.input == input && this.promiseForOutput == promiseForOutput
      ensures View() == New(offered, hasCancellationCallback)
      ensures offered == if promiseForOutput == null then None else Some(promiseForOutput.View())
    {
      offered := if promiseForOutput == null then None else Some(promiseForOutput.View());
      state := CREATED;
      this.input, this.jobFunction, this.promiseForOutput := input, jobFunction, promiseForOutput;
      this.hasCancellationCallback := hasCancellationCallback;
      calls, cancellations, output, sets := 0, 0, NULL, 0;
    }

    method SetPromise(res: Ptr)
      modifies this`sets, promiseForOutput
      ensures View() == Fulfil(old(View()), res)
    {
      if promiseForOutput != null {
        var outcome := promiseForOutput.SetResult(res);
        if outcome.wasSet { sets := sets + 1; }
      }
    }

    method Execute() returns (done: bool)
      modifies this, promiseForOutput
      ensures done == (old(state) == CREATED)
      ensures View() == if done then EndExecution(BeginExecution(old(View())), jobFunction(input)) else old(View())
    {
      if state != CREATED { return false; }
      state := RUNNING;
      output := jobFunction(input);
      calls := calls + 1;
      SetPromise(output);
      state := COMPLETED;
      return true;
    }

    method CancelJob() returns (done: bool)
      modifies this, promiseForOutput
      ensures done == (old(state) == CREATED) && View() == Cancel(old(View()))
    {
      if state != CREATED { return false; }
      if hasCancellationCallback { cancellations := cancellations + 1; }
      SetPromise(NULL);
      state := CANCELLED;
      return true;
    }
  }
}
