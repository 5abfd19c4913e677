/**
 Condition variables: the threads that wait, and those of them that are still asleep. The
 others have been woken by a signal or a broadcast and have not yet reacquired the mutex.
 A spurious wake-up or a timeout lets an asleep thread resume as well, so `Leave` applies
 to both.
 */
module CondVars {
  import opened Base

  datatype CondVar = CondVar(waiting: set<Tid>, asleep: set<Tid>) {
    predicate Valid() {
      asleep <= waiting
    }

    function Woken(): set<Tid> {
      waiting - asleep
    }

    function Sleep(t: Tid): CondVar {
      CondVar(waiting + {t}, asleep + {t})
    }

    function Leave(t: Tid): CondVar {
      CondVar(waiting - {t}, asleep - {t})
    }

    /** A signal unblocks at least one of the threads that are asleep, if there are any. */
    predicate MayWake(chosen: set<Tid>) {
      chosen <= asleep && (asleep != {} ==> chosen != {})
    }

    function Signal(chosen: set<Tid>): CondVar {
      CondVar(waiting, asleep - chosen)
    }

    function Broadcast(): CondVar {
      CondVar(waiting, {})
    }
  }

  const NOBODY := CondVar({}, {})

  /**
   How a wait ends: what the other threads have made of the shared data when the waiting
   thread holds the mutex again, and whether its time was over.
   */
  datatype Wake<+S> = Wake(found: S, timedOut: bool)

  /** What a call sees when it has the lock for the i-th time. */
  function Look<S>(first: S, wakes: seq<Wake<S>>, i: nat): S
    requires i <= |wakes|
  {
    if i == 0 then first else wakes[i - 1].found
  }

  /** Whether its time was over by then. */
  predicate Late<S>(wakes: seq<Wake<S>>, i: nat)
    requires i <= |wakes|
  {
    i > 0 && wakes[i - 1].timedOut
  }

  /** The same for a wait that has no time limit. */
  function Found<S>(first: S, wakes: seq<S>, i: nat): S
    requires i <= |wakes|
  {
    if i == 0 then first else wakes[i - 1]
  }

  lemma WokenCounts(c: CondVar)
    requires c.Valid()
    ensures |c.Woken()| == |c.waiting| - |c.asleep|
  {
  }

  /** A signal leaves fewer threads asleep. */
  lemma SignalCounts(c: CondVar, chosen: set<Tid>)
    requires c.Valid() && c.MayWake(chosen)
    ensures c.Signal(chosen).Valid()
    ensures c.asleep != {} ==> |c.Signal(chosen).asleep| < |c.asleep|
    ensures c.asleep == {} ==> c.Signal(chosen) == c
  {
    assert |c.asleep - chosen| == |c.asleep| - |chosen|;
    assert chosen != {} ==> |chosen| > 0;
  }

  /** A thread that leaves takes itself along, and its sleep if it still was asleep. */
  lemma LeaveCounts(c: CondVar, t: Tid)
    requires c.Valid()
    ensures c.Leave(t).Valid()
    ensures t in c.waiting ==> |c.Leave(t).waiting| == |c.waiting| - 1
    ensures t !in c.waiting ==> c.Leave(t) == c
    ensures |c.Leave(t).asleep| == |c.asleep| - (if t in c.asleep then 1 else 0)
    ensures |c.Leave(t).asleep| <= |c.Leave(t).waiting|
  {
    WokenCounts(c.Leave(t));
    assert t !in c.waiting ==> c.waiting - {t} == c.waiting && c.asleep - {t} == c.asleep;
  }

  lemma SleepCounts(c: CondVar, t: Tid)
    requires c.Valid() && t !in c.waiting
    ensures c.Sleep(t).Valid()
    ensures |c.Sleep(t).waiting| == |c.waiting| + 1 && |c.Sleep(t).asleep| == |c.asleep| + 1
    ensures |c.Sleep(t).asleep| <= |c.Sleep(t).waiting|
  {
    WokenCounts(c);
  }
}
