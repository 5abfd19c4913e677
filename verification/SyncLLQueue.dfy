/** The unbounded closable queue of src/sync_ll_queue.c, over a linked list. */
module SyncLLQueue {
  import opened Base
  import opened CondVars
  import opened QueueTypes

  datatype Queue<T> = Queue(items: seq<T>, closed: bool, empty: CondVar) {
    predicate Valid() {
      empty.Valid() && (closed ==> empty.asleep == {})
    }

    predicate NoLostPopper() {
      empty.asleep != {} ==> |items| + |empty.asleep| <= |empty.waiting|
    }
  }

  function Empty<T>(): Queue<T> {
    Queue([], false, NOBODY)
  }

  /** The list refuses an element whose node already is in a list. */
  function PushSection<T>(q: Queue<T>, x: T, choice: Choice): (Queue<T>, PushOutcome) {
    if q.closed || !choice.linked then
      (q, PushReturns(false))
    else
      (q.(items := q.items + [x], empty := q.empty.Signal(choice.signalled)), PushReturns(true))
  }

  function PopSection<T>(q: Queue<T>, t: Tid, waitError: bool): (Queue<T>, PopOutcome<T>) {
    if !q.closed && |q.items| == 0 && !waitError then
      (q.(empty := q.empty.Sleep(t)), PopSleeps)
    else
      PopPassed(q)
  }

  /** A pop that need not wait, or whose wait was over. */
  function PopPassed<T>(q: Queue<T>): (Queue<T>, PopOutcome<T>) {
    if |q.items| == 0 then (q, PopReturns(None))
    else (q.(items := q.items[1..]), PopReturns(Some(q.items[0])))
  }

  function CloseSection<T>(q: Queue<T>): Queue<T> {
    if q.closed then q else q.(closed := true, empty := q.empty.Broadcast())
  }

  /** A push succeeds exactly on an open list, with an element that is in no list yet. */
  lemma PushSucceedsExactlyWhen<T>(q: Queue<T>, x: T, choice: Choice)
    ensures var (q', r) := PushSection(q, x, choice);
            && r == PushReturns(!q.closed && choice.linked)
            && q'.items == (if !q.closed && choice.linked then q.items + [x] else q.items)
  {
  }

  lemma PushKeeps<T>(q: Queue<T>, x: T, choice: Choice)
    requires q.Valid() && q.NoLostPopper() && q.empty.MayWake(choice.signalled)
    ensures PushSection(q, x, choice).0.Valid() && PushSection(q, x, choice).0.NoLostPopper()
  {
    SignalCounts(q.empty, choice.signalled);
  }

  lemma PopWakeKeeps<T>(q: Queue<T>, t: Tid, waitError: bool)
    requires q.Valid() && q.NoLostPopper()
    ensures var q' := PopSection(q.(empty := q.empty.Leave(t)), t, waitError).0;
            q'.Valid() && q'.NoLostPopper()
  {
    LeaveCounts(q.empty, t);
    SleepCounts(q.empty.Leave(t), t);
  }

  // ---- whole calls ----

  /** A pop over all its waits; it still sleeps when there is no further wake-up. */
  function PopCall<T>(q: Queue<T>, t: Tid, waitError: bool, wakes: seq<Wake<Queue<T>>>): (Queue<T>, PopOutcome<T>)
    decreases |wakes|
  {
    var r := PopSection(q, t, waitError);
    if r.1.PopSleeps? && wakes != [] then
      var found := wakes[0].found;
      PopCall(found.(empty := found.empty.Leave(t)), t, wakes[0].timedOut, wakes[1..])
    else r
  }

  /** What decides a pop: the first time that it finds an element, or the list closed, or its time over. */
  lemma {:induction false} PopCallIsDecided<T>(q: Queue<T>, t: Tid, late: bool, wakes: seq<Wake<Queue<T>>>)
    returns (i: nat)
    ensures i <= |wakes|
    ensures forall k | 0 <= k < i :: var l := Look(q, wakes, k);
              !l.closed && l.items == [] && !Late(wakes, k) && (k == 0 ==> !late)
    ensures var l, over := Look(q, wakes, i), Late(wakes, i) || (i == 0 && late);
            var (q', r) := PopCall(q, t, late, wakes);
            && (r.PopSleeps? <==> !l.closed && l.items == [] && !over)
            && (r.PopSleeps? ==> i == |wakes|)
            && (r == PopReturns(None) <==> l.items == [] && (l.closed || over))
            && (l.items != [] ==> r == PopReturns(Some(l.items[0])) && q'.items == l.items[1..])
            && (l.items == [] ==> q'.items == [])
            && q'.closed == l.closed
            && (t in q'.empty.waiting <==> r.PopSleeps? || (i == 0 && t in q.empty.waiting))
    decreases |wakes|
  {
    i := 0;
    if PopSection(q, t, late).1.PopSleeps? && wakes != [] {
      var found := wakes[0].found;
      var woken := found.(empty := found.empty.Leave(t));
      var j := PopCallIsDecided(woken, t, wakes[0].timedOut, wakes[1..]);
      i := j + 1;
      forall k | 0 <= k < i
        ensures var l := Look(q, wakes, k); !l.closed && l.items == [] && !Late(wakes, k) && (k == 0 ==> !late)
      {
        if k > 0 { var before := Look(woken, wakes[1..], k - 1); }
      }
    }
  }

  /** The structure sync_ll_queue; its methods are the functions of src/sync_ll_queue.c. */
  class Monitor<T(==)> {
    var items: seq<T>
    var isClosed: bool
    var emptyWait: CondVar
    var emptyWaitThreadCount: nat

    ghost function View(): Queue<T>
      reads this
    {
      Queue(items, isClosed, emptyWait)
    }

    ghost predicate Valid()
      reads this
    {
      View().Valid() && emptyWaitThreadCount == |emptyWait.waiting|
    }

    constructor ()
      ensures Valid() && View() == Empty()
    {
      items, isClosed := [], false;
      emptyWait, emptyWaitThreadCount := NOBODY, 0;
    }

    method SleepOnEmpty(t: Tid)
      requires Valid() && !isClosed && t !in emptyWait.waiting
      modifies this
      ensures Valid() && View() == old(View()).(empty := old(emptyWait).Sleep(t))
    {
      SleepCounts(emptyWait, t);
      emptyWaitThreadCount := emptyWaitThreadCount + 1;
      emptyWait := emptyWait.Sleep(t);
    }

    /** The mutex is held again: the fields are what the other threads have left. */
    method WakeOnEmpty(t: Tid, found: Queue<T>)
      requires found.Valid() && t in found.empty.waiting
      modifies this
      ensures Valid() && View() == found.(empty := found.empty.Leave(t))
    {
      items, isClosed, emptyWait, emptyWaitThreadCount := found.items, found.closed, found.empty, |found.empty.waiting|;
      LeaveCounts(emptyWait, t);
      emptyWait := emptyWait.Leave(t);
      emptyWaitThreadCount := emptyWaitThreadCount - 1;
    }

    method Push(x: T, choice: Choice) returns (isPushed: bool)
      requires Valid()
      modifies this
      ensures Valid() && (View(), PushReturns(isPushed)) == PushSection(old(View()), x, choice)
    {
      if isClosed { return false; }
      isPushed := choice.linked;
      if isPushed { items := items + [x]; }
      if isPushed && emptyWaitThreadCount > 0 { emptyWait := emptyWait.Signal(choice.signalled); }
      assert old(emptyWaitThreadCount) == 0 ==> old(emptyWait).Signal(choice.signalled) == old(emptyWait);
    }

    method Pop(t: Tid, wakes: seq<Wake<Queue<T>>>) returns (r: PopOutcome<T>)
      requires Valid() && t !in emptyWait.waiting
      requires forall w | w in wakes :: w.found.Valid() && t in w.found.empty.waiting
      modifies this
      ensures Valid() && (View(), r) == PopCall(old(View()), t, false, wakes)
    {
      var waitError, k := false, 0;
      while !isClosed && |items| == 0 && !waitError
        invariant k <= |wakes| && Valid() && t !in emptyWait.waiting
        invariant PopCall(View(), t, waitError, wakes[k..]) == PopCall(old(View()), t, false, wakes)
        decreases |wakes| - k
      {
        SleepOnEmpty(t);
        if k == |wakes| { return PopSleeps; }
        WakeOnEmpty(t, wakes[k].found);
        waitError := wakes[k].timedOut;
        k := k + 1;
      }
      var isPopped := |items| != 0;
      r := PopReturns(if isPopped then Some(items[0]) else None);
      if isPopped { items := items[1..]; }
    }

    method Close()
      requires Valid()
      modifies this
      ensures Valid() && View() == CloseSection(old(View()))
    {
      if !isClosed {
        if emptyWaitThreadCount > 0 { emptyWait := emptyWait.Broadcast(); }
      }
      isClosed := true;
    }
  }
}
