/**
 The bounded closable queue of src/sync_queue.c. A section function is the code a
 thread runs with the queue's lock held: from the lock (or from a wake-up) to the
 unlock (or to the next wait).
 */
module SyncQueue {
  import opened Base
  import opened CondVars
  import opened QueueTypes

  const UNBOUNDED_SYNC_QUEUE: nat := MAX_U64

  /** The structure protected by q_lock; the array list is its contents and its capacity. */
  datatype Queue<T> = Queue(
    items: seq<T>,
    capacity: nat,
    maxCapacity: nat,
    closed: bool,
    empty: CondVar,
    full: CondVar)
  {
    predicate IsFull() {
      |items| == capacity
    }

    predicate CapacityCrossedLimit() {
      maxCapacity != UNBOUNDED_SYNC_QUEUE && capacity >= maxCapacity
    }

    predicate Valid() {
      && |items| <= capacity
      && maxCapacity <= UNBOUNDED_SYNC_QUEUE
      && empty.Valid()
      && full.Valid()
      && (closed ==> empty.asleep == {} && full.asleep == {})
    }

    /** While a popper is asleep, every queued element has a woken popper coming for it. */
    predicate NoLostPopper() {
      empty.asleep != {} ==> |items| + |empty.asleep| <= |empty.waiting|
    }

    /** While a pusher is asleep, every free slot has a woken pusher coming for it. */
    predicate NoLostPusher() {
      full.asleep != {} ==>
        && maxCapacity != UNBOUNDED_SYNC_QUEUE
        && |items| + |full.waiting| >= maxCapacity + |full.asleep|
    }
  }

  function Empty<T>(maxCapacity: nat): Queue<T> {
    Queue([], 0, maxCapacity, false, NOBODY, NOBODY)
  }

  predicate PushExpands<T>(q: Queue<T>) {
    q.IsFull() && !q.CapacityCrossedLimit()
  }

  predicate PushChoiceOk<T>(q: Queue<T>, choice: Choice) {
    && q.empty.MayWake(choice.signalled)
    && choice.newCapacity >= q.capacity
  }

  function PushSection<T>(q: Queue<T>, t: Tid, x: T, waitError: bool, choice: Choice): (Queue<T>, PushOutcome) {
    if !q.closed && q.IsFull() && q.CapacityCrossedLimit() && !waitError then
      (q.(full := q.full.Sleep(t)), PushSleeps)
    else
      PushPassed(q, x, choice)
  }

  /** A push that need not wait, or whose wait was over. */
  function PushPassed<T>(q: Queue<T>, x: T, choice: Choice): (Queue<T>, PushOutcome) {
    if q.closed then
      (q, PushReturns(false))
    else
      var capacity := if PushExpands(q) then choice.newCapacity else q.capacity;
      if |q.items| < capacity then
        (q.(items := q.items + [x], capacity := capacity, empty := q.empty.Signal(choice.signalled)),
         PushReturns(true))
      else
        (q.(capacity := capacity), PushReturns(false))
  }

  predicate PopChoiceOk<T>(q: Queue<T>, choice: Choice) {
    && q.full.MayWake(choice.signalled)
    && (if |q.items| == 0 then 0 else |q.items| - 1) <= choice.newCapacity <= q.capacity
  }

  function PopSection<T>(q: Queue<T>, t: Tid, waitError: bool, choice: Choice): (Queue<T>, PopOutcome<T>) {
    if !q.closed && |q.items| == 0 && !waitError then
      (q.(empty := q.empty.Sleep(t)), PopSleeps)
    else
      PopPassed(q, choice)
  }

  /** A pop that need not wait, or whose wait was over. */
  function PopPassed<T>(q: Queue<T>, choice: Choice): (Queue<T>, PopOutcome<T>) {
    var rest := if |q.items| == 0 then [] else q.items[1..];
    var full := if !q.closed && |q.items| != 0 then q.full.Signal(choice.signalled) else q.full;
    var capacity := if q.capacity > 3 * |rest| then choice.newCapacity else q.capacity;
    (q.(items := rest, capacity := capacity, full := full),
     PopReturns(if |q.items| == 0 then None else Some(q.items[0])))
  }

  function CloseSection<T>(q: Queue<T>): Queue<T> {
    if q.closed then q else q.(closed := true, full := q.full.Broadcast(), empty := q.empty.Broadcast())
  }

  function UpdateMaxCapacitySection<T>(q: Queue<T>, newMaxCapacity: nat): Queue<T> {
    q.(maxCapacity := newMaxCapacity,
       full := if q.IsFull() && newMaxCapacity > q.maxCapacity then q.full.Broadcast() else q.full)
  }

  /** A push by a thread that was not waiting keeps the queue sound and loses no popper. */
  lemma PushKeeps<T>(q: Queue<T>, t: Tid, x: T, waitError: bool, choice: Choice)
    requires q.Valid() && q.NoLostPopper() && t !in q.full.waiting && PushChoiceOk(q, choice)
    ensures PushSection(q, t, x, waitError, choice).0.Valid()
    ensures PushSection(q, t, x, waitError, choice).0.NoLostPopper()
  {
    SignalCounts(q.empty, choice.signalled);
  }

  /** When a push sleeps, when it succeeds, and what it leaves of the rest of the queue. */
  lemma PushOutcomeExactlyWhen<T>(q: Queue<T>, t: Tid, x: T, waitError: bool, choice: Choice)
    requires q.Valid() && PushChoiceOk(q, choice)
    ensures var (q', r) := PushSection(q, t, x, waitError, choice);
            var atLimit := q.maxCapacity != UNBOUNDED_SYNC_QUEUE && q.capacity >= q.maxCapacity;
            && (r.PushSleeps? <==> !q.closed && !waitError && |q.items| == q.capacity && atLimit)
            && (r == PushReturns(true) <==>
                  !q.closed && (|q.items| < q.capacity || (!atLimit && choice.newCapacity > q.capacity)))
            && q'.items == (if r == PushReturns(true) then q.items + [x] else q.items)
            && (q'.capacity > q.capacity ==> !q.closed && |q.items| == q.capacity && !atLimit)
            && q'.capacity >= q.capacity && q'.maxCapacity == q.maxCapacity && q'.closed == q.closed
            && q'.empty == (if r == PushReturns(true) then q.empty.Signal(choice.signalled) else q.empty)
  {
  }

  /**
   What else a pop does: an array list more than three times too large shrinks as far as the
   library goes, and a pusher is signalled exactly when an element was taken.
   */
  lemma PopShrinksAndSignalsExactlyWhen<T>(q: Queue<T>, t: Tid, waitError: bool, choice: Choice)
    requires q.Valid() && PopChoiceOk(q, choice) && PopSection(q, t, waitError, choice).1.PopReturns?
    ensures var q' := PopSection(q, t, waitError, choice).0;
            && q'.capacity == (if q.capacity > 3 * |q'.items| then choice.newCapacity else q.capacity)
            && |q'.items| <= q'.capacity && q'.maxCapacity == q.maxCapacity
            && q'.full == (if q.items != [] then q.full.Signal(choice.signalled) else q.full)
  {
    assert q.full.asleep - {} == q.full.asleep;
  }

  /**
   A popper, fresh or just out of its wait, takes an element with it if there is one: even
   when its wait ended in a timeout, so a signal that races with a timeout is not wasted.
   */
  lemma PopWakeKeeps<T>(q: Queue<T>, t: Tid, waitError: bool, choice: Choice)
    requires q.Valid() && q.NoLostPopper() && PopChoiceOk(q, choice)
    ensures var q' := PopSection(q.(empty := q.empty.Leave(t)), t, waitError, choice).0;
            q'.Valid() && q'.NoLostPopper()
  {
    SignalCounts(q.full, choice.signalled);
    LeaveCounts(q.empty, t);
    SleepCounts(q.empty.Leave(t), t);
  }

  /** The woken pushers do not all have a slot to come for, or nobody else sleeps, or t was not woken. */
  predicate CanSpare<T>(q: Queue<T>, t: Tid) {
    || q.full.asleep - {t} == {}
    || t in q.full.asleep
    || |q.items| + |q.full.waiting| > q.maxCapacity + |q.full.asleep|
  }

  /**
   A pushing thread keeps the pushers covered whether it blocks, is turned away or adds an
   element; only a failing expansion could waste the wake-up of a pusher that was waiting.
   */
  lemma PushWakeCoversPushers<T>(q: Queue<T>, t: Tid, x: T, waitError: bool, choice: Choice)
    requires q.Valid() && q.NoLostPusher() && PushChoiceOk(q, choice)
    requires PushExpands(q) && t in q.full.waiting ==> choice.newCapacity > q.capacity || CanSpare(q, t)
    ensures PushSection(q.(full := q.full.Leave(t)), t, x, waitError, choice).0.NoLostPusher()
  {
    LeaveCounts(q.full, t);
    SleepCounts(q.full.Leave(t), t);
  }

  /** And it does waste it exactly when the wake-up cannot be spared. */
  lemma FailedExpansionIsSafeExactlyWhenSpared<T>(q: Queue<T>, t: Tid, x: T, waitError: bool, choice: Choice)
    requires q.Valid() && q.NoLostPusher() && PushChoiceOk(q, choice)
    requires !q.closed && PushExpands(q) && t in q.full.waiting && choice.newCapacity == q.capacity
    ensures PushSection(q.(full := q.full.Leave(t)), t, x, waitError, choice).0.NoLostPusher() <==> CanSpare(q, t)
  {
    LeaveCounts(q.full, t);
  }

  lemma PopCoversPushers<T>(q: Queue<T>, t: Tid, waitError: bool, choice: Choice)
    requires q.Valid() && q.NoLostPusher() && PopChoiceOk(q, choice)
    ensures PopSection(q, t, waitError, choice).0.NoLostPusher()
  {
    SignalCounts(q.full, choice.signalled);
  }

  /**
   Raising the limit wakes the pushers only when the array list is full at that moment.
   So a raise is safe, whatever the new limit, exactly when nobody sleeps on a full queue
   or the queue is full: in every other state some larger limit strands a pusher.
   */
  lemma RaiseIsSafeExactlyWhenFullOrNobodySleeps<T>(q: Queue<T>)
    requires q.Valid() && q.NoLostPusher()
    ensures (forall limit | q.maxCapacity < limit <= UNBOUNDED_SYNC_QUEUE ::
               UpdateMaxCapacitySection(q, limit).NoLostPusher())
            <==> (q.IsFull() || q.full.asleep == {})
  {
    if !q.IsFull() && q.full.asleep != {} {
      assert !UpdateMaxCapacitySection(q, UNBOUNDED_SYNC_QUEUE).NoLostPusher();
    }
  }

  /** Lowering the limit, or leaving it, never strands a pusher. */
  lemma LoweringIsSafe<T>(q: Queue<T>, limit: nat)
    requires q.Valid() && q.NoLostPusher() && limit <= q.maxCapacity
    ensures UpdateMaxCapacitySection(q, limit).NoLostPusher()
  {
  }

  // ---- whole calls ----

  /** What a push finds when it is through: the libraries add `growth` to the capacity if they have to. */
  function Grown<T>(q: Queue<T>, signalled: set<Tid>, growth: nat): Choice {
    Choice(signalled, q.capacity + growth, true)
  }

  /** What a pop finds when it is through: a shrunk array list keeps at most `slack` free slots. */
  function Shrunk<T>(q: Queue<T>, signalled: set<Tid>, slack: nat): Choice {
    Choice(signalled, Min(q.capacity, (if |q.items| == 0 then 0 else |q.items| - 1) + slack), true)
  }

  /** A push over all its waits; it still sleeps when there is no further wake-up. */
  function PushCall<T>(q: Queue<T>, t: Tid, x: T, waitError: bool, signalled: set<Tid>, growth: nat,
                       wakes: seq<Wake<Queue<T>>>): (Queue<T>, PushOutcome)
    decreases |wakes|
  {
    var r := PushSection(q, t, x, waitError, Grown(q, signalled, growth));
    if r.1.PushSleeps? && wakes != [] then
      var found := wakes[0].found;
      PushCall(found.(full := found.full.Leave(t)), t, x, wakes[0].timedOut, signalled, growth, wakes[1..])
    else r
  }

  /** A pop over all its waits. */
  function PopCall<T>(q: Queue<T>, t: Tid, waitError: bool, signalled: set<Tid>, slack: nat,
                      wakes: seq<Wake<Queue<T>>>): (Queue<T>, PopOutcome<T>)
    decreases |wakes|
  {
    var r := PopSection(q, t, waitError, Shrunk(q, signalled, slack));
    if r.1.PopSleeps? && wakes != [] then
      var found := wakes[0].found;
      PopCall(found.(empty := found.empty.Leave(t)), t, wakes[0].timedOut, signalled, slack, wakes[1..])
    else r
  }

  /**
   What decides a push: the first time that it has the lock and does not have to wait, because
   the queue is closed, not full or below its limit, or the time is over. While there is no such
   time it sleeps.
   */
  lemma {:induction false} PushCallIsDecided<T>(q: Queue<T>, t: Tid, x: T, late: bool, signalled: set<Tid>, growth: nat,
                                                wakes: seq<Wake<Queue<T>>>) returns (i: nat)
    requires q.Valid() && forall k | 0 <= k < |wakes| :: wakes[k].found.Valid()
    ensures i <= |wakes|
    ensures forall k | 0 <= k < i :: var l := Look(q, wakes, k);
              && !l.closed && |l.items| == l.capacity
              && l.maxCapacity != UNBOUNDED_SYNC_QUEUE && l.capacity >= l.maxCapacity
              && !Late(wakes, k) && (k == 0 ==> !late)
    ensures var l, over := Look(q, wakes, i), Late(wakes, i) || (i == 0 && late);
            var atLimit := l.maxCapacity != UNBOUNDED_SYNC_QUEUE && l.capacity >= l.maxCapacity;
            var (q', r) := PushCall(q, t, x, late, signalled, growth, wakes);
            && (r.PushSleeps? <==> !l.closed && |l.items| == l.capacity && atLimit && !over)
            && (r.PushSleeps? ==> i == |wakes|)
            && (r == PushReturns(true) <==> !l.closed && (|l.items| < l.capacity || (!atLimit && growth > 0)))
            && q'.items == (if r == PushReturns(true) then l.items + [x] else l.items)
            && q'.closed == l.closed
            && (t in q'.full.waiting <==> r.PushSleeps? || (i == 0 && t in q.full.waiting))
    decreases |wakes|
  {
    i := 0;
    if PushSection(q, t, x, late, Grown(q, signalled, growth)).1.PushSleeps? && wakes != [] {
      var found := wakes[0].found;
      var woken := found.(full := found.full.Leave(t));
      var j := PushCallIsDecided(woken, t, x, wakes[0].timedOut, signalled, growth, wakes[1..]);
      i := j + 1;
      forall k | 0 <= k < i
        ensures var l := Look(q, wakes, k);
                && !l.closed && |l.items| == l.capacity
                && l.maxCapacity != UNBOUNDED_SYNC_QUEUE && l.capacity >= l.maxCapacity
                && !Late(wakes, k) && (k == 0 ==> !late)
      {
        if k > 0 { var before := Look(woken, wakes[1..], k - 1); }
      }
    }
  }

  /** The same for a pop, which waits while the queue is open and empty. */
  lemma {:induction false} PopCallIsDecided<T>(q: Queue<T>, t: Tid, late: bool, signalled: set<Tid>, slack: nat,
                                               wakes: seq<Wake<Queue<T>>>) returns (i: nat)
    ensures i <= |wakes|
    ensures forall k | 0 <= k < i :: var l := Look(q, wakes, k);
              !l.closed && l.items == [] && !Late(wakes, k) && (k == 0 ==> !late)
    ensures var l, over := Look(q, wakes, i), Late(wakes, i) || (i == 0 && late);
            var (q', r) := PopCall(q, t, late, signalled, slack, wakes);
            && (r.PopSleeps? <==> !l.closed && l.items == [] && !over)
            && (r.PopSleeps? ==> i == |wakes|)
            && (r == PopReturns(None) <==> l.items == [] && (l.closed || over))
            && (l.items != [] ==> r == PopReturns(Some(l.items[0])) && q'.items == l.items[1..])
            && (l.items == [] ==> q'.items == [])
            && q'.closed == l.closed
            && (t in q'.empty.waiting <==> r.PopSleeps? || (i == 0 && t in q.empty.waiting))
    decreases |wakes|
  {
    i := 0;
    if PopSection(q, t, late, Shrunk(q, signalled, slack)).1.PopSleeps? && wakes != [] {
      var found := wakes[0].found;
      var woken := found.(empty := found.empty.Leave(t));
      var j := PopCallIsDecided(woken, t, wakes[0].timedOut, signalled, slack, wakes[1..]);
      i := j + 1;
      forall k | 0 <= k < i
        ensures var l := Look(q, wakes, k); !l.closed && l.items == [] && !Late(wakes, k) && (k == 0 ==> !late)
      {
        if k > 0 { var before := Look(woken, wakes[1..], k - 1); }
      }
    }
  }

  /** The structure sync_queue; its methods are the functions of src/sync_queue.c. */
  class Monitor<T(==)> {
    var items: seq<T>
    var capacity: nat
    var maxCapacity: nat
    var isClosed: bool
    var emptyWait: CondVar
    var fullWait: CondVar
    var emptyWaitThreadCount: nat
    var fullWaitThreadCount: nat

    ghost function View(): Queue<T>
      reads this
    {
      Queue(items, capacity, maxCapacity, isClosed, emptyWait, fullWait)
    }

    /** The counts are those of the threads that wait. */
    ghost predicate Valid()
      reads this
    {
      && View().Valid()
      && emptyWaitThreadCount == |emptyWait.waiting|
      && fullWaitThreadCount == |fullWait.waiting|
    }

    constructor (maxCapacity: nat)
      requires maxCapacity <= UNBOUNDED_SYNC_QUEUE
      ensures Valid() && View() == Empty(maxCapacity)
    {
      items, capacity := [], 0;
      this.maxCapacity := maxCapacity;
      isClosed := false;
      emptyWait, fullWait := NOBODY, NOBODY;
      emptyWaitThreadCount, fullWaitThreadCount := 0, 0;
    }

    predicate HasCapacityCrossedMaxCapacityLimits()
      reads this
    {
      if maxCapacity == UNBOUNDED_SYNC_QUEUE then false else capacity >= maxCapacity
    }

    /** The mutex is held again after a wait: the fields are what the other threads have left. */
    method Resume(q: Queue<T>)
      requires q.Valid()
      modifies this
      ensures Valid() && View() == q
    {
      items, capacity, maxCapacity, isClosed := q.items, q.capacity, q.maxCapacity, q.closed;
      emptyWait, fullWait := q.empty, q.full;
      emptyWaitThreadCount, fullWaitThreadCount := |q.empty.waiting|, |q.full.waiting|;
    }

    method SleepOnFull(t: Tid)
      requires Valid() && !isClosed && t !in fullWait.waiting
      modifies this
      ensures Valid() && View() == old(View()).(full := old(fullWait).Sleep(t))
    {
      SleepCounts(fullWait, t);
      fullWaitThreadCount := fullWaitThreadCount + 1;
      fullWait := fullWait.Sleep(t);
    }

    method WakeOnFull(t: Tid, found: Queue<T>)
      requires found.Valid() && t in found.full.waiting
      modifies this
      ensures Valid() && View() == found.(full := found.full.Leave(t))
    {
      Resume(found);
      LeaveCounts(fullWait, t);
      fullWait := fullWait.Leave(t);
      fullWaitThreadCount := fullWaitThreadCount - 1;
    }

    method SleepOnEmpty(t: Tid)
      requires Valid() && !isClosed && t !in emptyWait.waiting
      modifies this
      ensures Valid() && View() == old(View()).(empty := old(emptyWait).Sleep(t))
    {
      SleepCounts(emptyWait, t);
      emptyWaitThreadCount := emptyWaitThreadCount + 1;
      emptyWait := emptyWait.Sleep(t);
    }

    method WakeOnEmpty(t: Tid, found: Queue<T>)
      requires found.Valid() && t in found.empty.waiting
      modifies this
      ensures Valid() && View() == found.(empty := found.empty.Leave(t))
    {
      Resume(found);
      LeaveCounts(emptyWait, t);
      emptyWait := emptyWait.Leave(t);
      emptyWaitThreadCount := emptyWaitThreadCount - 1;
    }

    /** push_sync_queue after its loop. */
    method PushNow(x: T, signalled: set<Tid>, growth: nat) returns (isPushed: bool)
      requires Valid()
      modifies this
      ensures Valid()
      ensures (View(), PushReturns(isPushed)) ==
              PushPassed(old(View()), x, Grown(old(View()), signalled, growth))
    {
      if isClosed { return false; }
      if |items| == capacity && !HasCapacityCrossedMaxCapacityLimits() { capacity := capacity + growth; }
      isPushed := |items| < capacity;
      if isPushed { items := items + [x]; }
      if isPushed && emptyWaitThreadCount > 0 { emptyWait := emptyWait.Signal(signalled); }
      assert old(emptyWaitThreadCount) == 0 ==> old(emptyWait).Signal(signalled) == old(emptyWait);
    }

    /** pop_sync_queue after its loop. */
    method PopNow(signalled: set<Tid>, slack: nat) returns (item: Option<T>)
      requires Valid()
      modifies this
      ensures Valid()
      ensures (View(), PopReturns(item)) == PopPassed(old(View()), Shrunk(old(View()), signalled, slack))
    {
      var isPopped := |items| != 0;
      item := if isPopped then Some(items[0]) else None;
      if isPopped { items := items[1..]; }
      if !isClosed && isPopped && fullWaitThreadCount > 0 { fullWait := fullWait.Signal(signalled); }
      if capacity > 3 * |items| { capacity := Min(capacity, |items| + slack); }
      assert old(fullWaitThreadCount) == 0 ==> old(fullWait).Signal(signalled) == old(fullWait);
    }

    method Push(t: Tid, x: T, signalled: set<Tid>, growth: nat, wakes: seq<Wake<Queue<T>>>)
      returns (r: PushOutcome)
      requires Valid() && t !in fullWait.waiting
      requires forall w | w in wakes :: w.found.Valid() && t in w.found.full.waiting
      modifies this
      ensures Valid()
      ensures (View(), r) == PushCall(old(View()), t, x, false, signalled, growth, wakes)
    {
      var waitError, k := false, 0;
      while !isClosed && |items| == capacity && HasCapacityCrossedMaxCapacityLimits() && !waitError
        invariant k <= |wakes| && Valid() && t !in fullWait.waiting
        invariant PushCall(View(), t, x, waitError, signalled, growth, wakes[k..]) ==
                  PushCall(old(View()), t, x, false, signalled, growth, wakes)
        decreases |wakes| - k
      {
        SleepOnFull(t);
        if k == |wakes| { return PushSleeps; }
        WakeOnFull(t, wakes[k].found);
        waitError := wakes[k].timedOut;
        k := k + 1;
      }
      var isPushed := PushNow(x, signalled, growth);
      r := PushReturns(isPushed);
    }

    method Pop(t: Tid, signalled: set<Tid>, slack: nat, wakes: seq<Wake<Queue<T>>>)
      returns (r: PopOutcome<T>)
      requires Valid() && t !in emptyWait.waiting
      requires forall w | w in wakes :: w.found.Valid() && t in w.found.empty.waiting
      modifies this
      ensures Valid()
      ensures (View(), r) == PopCall(old(View()), t, false, signalled, slack, wakes)
    {
      var waitError, k := false, 0;
      while !isClosed && |items| == 0 && !waitError
        invariant k <= |wakes| && Valid() && t !in emptyWait.waiting
        invariant PopCall(View(), t, waitError, signalled, slack, wakes[k..]) ==
                  PopCall(old(View()), t, false, signalled, slack, wakes)
        decreases |wakes| - k
      {
        SleepOnEmpty(t);
        if k == |wakes| { return PopSleeps; }
        WakeOnEmpty(t, wakes[k].found);
        waitError := wakes[k].timedOut;
        k := k + 1;
      }
      var item := PopNow(signalled, slack);
      r := PopReturns(item);
    }

    method Close()
      requires Valid()
      modifies this
      ensures Valid() && View() == CloseSection(old(View()))
    {
      if !isClosed {
        if fullWaitThreadCount > 0 { fullWait := fullWait.Broadcast(); }
        if emptyWaitThreadCount > 0 { emptyWait := emptyWait.Broadcast(); }
      }
      isClosed := true;
    }

    method UpdateMaxCapacity(newMaxCapacity: nat)
      requires Valid() && newMaxCapacity <= UNBOUNDED_SYNC_QUEUE
      modifies this
      ensures Valid() && View() == UpdateMaxCapacitySection(old(View()), newMaxCapacity)
    {
      var oldMaxCapacity := maxCapacity;
      maxCapacity := newMaxCapacity;
      if |items| == capacity && fullWaitThreadCount > 0 && newMaxCapacity > oldMaxCapacity {
        fullWait := fullWait.Broadcast();
      }
    }

    method GetThreadsWaitingOnEmpty() returns (n: nat)
      requires Valid()
      ensures n == |View().empty.waiting|
    {
      n := emptyWaitThreadCount;
    }
  }
}
