/**
 The queue of src/job_queue.c: one interface over the two implementations, chosen when the
 queue is created. PushEffect, PopEffect and the lemmas about them are all that the proofs
 about runs use, so these hold for both implementations.
 */
module JobQueue {
  import opened Base
  import opened CondVars
  import opened QueueTypes
  import SyncQueue
  import SyncLLQueue

  const JOB_QUEUE_AS_LINKEDLIST: nat := 0

  datatype JobQueue<T> =
    | LinkedList(lsq: SyncLLQueue.Queue<T>)
    | ArrayList(sq: SyncQueue.Queue<T>)
  {
    function Items(): seq<T> {
      match this
      case LinkedList(q) => q.items
      case ArrayList(q) => q.items
    }

    predicate Closed() {
      match this
      case LinkedList(q) => q.closed
      case ArrayList(q) => q.closed
    }

    /** Where poppers wait. */
    function Empty(): CondVar {
      match this
      case LinkedList(q) => q.empty
      case ArrayList(q) => q.empty
    }

    /** Where pushers wait; a linked list never makes a pusher wait. */
    function Full(): CondVar {
      match this
      case LinkedList(q) => NOBODY
      case ArrayList(q) => q.full
    }

    predicate Sound() {
      match this
      case LinkedList(q) => q.Valid() && q.NoLostPopper()
      case ArrayList(q) => q.Valid() && q.NoLostPopper()
    }

    predicate NoLostPusher() {
      ArrayList? ==> sq.NoLostPusher()
    }
  }

  function Initialize<T>(maxCapacity: nat): (q: JobQueue<T>)
    ensures q.LinkedList? <==> maxCapacity == 0
    ensures q.ArrayList? ==> q.sq.maxCapacity == maxCapacity >= 1
    ensures q.Items() == [] && !q.Closed() && q.Empty() == q.Full() == NOBODY
  {
    if maxCapacity == JOB_QUEUE_AS_LINKEDLIST then LinkedList(SyncLLQueue.Empty())
    else ArrayList(SyncQueue.Empty(maxCapacity))
  }

  predicate PushChoiceOk<T>(q: JobQueue<T>, choice: Choice) {
    match q
    case LinkedList(lsq) => lsq.empty.MayWake(choice.signalled)
    case ArrayList(sq) => SyncQueue.PushChoiceOk(sq, choice)
  }

  predicate PopChoiceOk<T>(q: JobQueue<T>, choice: Choice) {
    q.ArrayList? ==> SyncQueue.PopChoiceOk(q.sq, choice)
  }

  /** What a push does, given where pushers wait once the caller is running. */
  ghost predicate PushEffect<T>(q: JobQueue<T>, full: CondVar, t: Tid, x: T, waitError: bool,
                          q': JobQueue<T>, outcome: PushOutcome) {
    && q'.Sound()
    && q'.Closed() == q.Closed()
    && (outcome == PushReturns(true) ==> !q.Closed() && q'.Items() == q.Items() + [x])
    && (outcome != PushReturns(true) ==> q'.Items() == q.Items())
    && (outcome.PushSleeps? ==> !q.Closed() && !waitError)
    && q'.Full() == (if outcome.PushSleeps? then full.Sleep(t) else full)
    && q'.Empty().waiting == q.Empty().waiting
  }

  function Push<T>(q: JobQueue<T>, t: Tid, x: T, waitError: bool, choice: Choice): (JobQueue<T>, PushOutcome) {
    match q
    case LinkedList(lsq) =>
      var (lsq', outcome) := SyncLLQueue.PushSection(lsq, x, choice);
      (LinkedList(lsq'), outcome)
    case ArrayList(sq) =>
      var (sq', outcome) := SyncQueue.PushSection(sq, t, x, waitError, choice);
      (ArrayList(sq'), outcome)
  }

  /** A waiting pusher resumes: only an array list can have one. */
  function PushWake<T>(q: JobQueue<T>, t: Tid, x: T, waitError: bool, choice: Choice): (JobQueue<T>, PushOutcome) {
    match q
    case LinkedList(_) => Push(q, t, x, waitError, choice)
    case ArrayList(sq) => Push(ArrayList(sq.(full := sq.full.Leave(t))), t, x, waitError, choice)
  }

  lemma PushHasEffect<T>(q: JobQueue<T>, t: Tid, x: T, waitError: bool, choice: Choice)
    requires q.Sound() && PushChoiceOk(q, choice) && t !in q.Full().waiting
    ensures var (q', outcome) := Push(q, t, x, waitError, choice);
            PushEffect(q, q.Full(), t, x, waitError, q', outcome)
  {
    SignalCounts(q.Empty(), choice.signalled);
    match q
    case LinkedList(lsq) => SyncLLQueue.PushKeeps(lsq, x, choice);
    case ArrayList(sq) => SyncQueue.PushKeeps(sq, t, x, waitError, choice);
  }

  lemma PushWakeHasEffect<T>(q: JobQueue<T>, t: Tid, x: T, waitError: bool, choice: Choice)
    requires q.Sound() && PushChoiceOk(q, choice)
    ensures var (q', outcome) := PushWake(q, t, x, waitError, choice);
            PushEffect(q, q.Full().Leave(t), t, x, waitError, q', outcome)
  {
    match q
    case LinkedList(_) =>
      PushHasEffect(q, t, x, waitError, choice);
      assert NOBODY.Leave(t) == NOBODY;
    case ArrayList(sq) => PushHasEffect(ArrayList(sq.(full := sq.full.Leave(t))), t, x, waitError, choice);
  }

  /** A push has to wait on an open array list that is full and at its limit, and never on a linked list. */
  predicate MakesPushersWait<T>(q: JobQueue<T>) {
    && q.ArrayList? && !q.sq.closed && |q.sq.items| == q.sq.capacity
    && q.sq.maxCapacity != SyncQueue.UNBOUNDED_SYNC_QUEUE && q.sq.capacity >= q.sq.maxCapacity
  }

  /** An open queue that has room for the element, or makes it. */
  predicate HasRoom<T>(q: JobQueue<T>, choice: Choice) {
    match q
    case LinkedList(lsq) => !lsq.closed && choice.linked
    case ArrayList(sq) =>
      !sq.closed && (|sq.items| < sq.capacity || (!MakesPushersWait(q) && choice.newCapacity > sq.capacity))
  }

  /** When a push sleeps and when it succeeds, new or out of its wait, for both implementations. */
  lemma PushOutcomeExactlyWhen<T>(q: JobQueue<T>, t: Tid, x: T, waitError: bool, choice: Choice)
    requires q.Sound() && PushChoiceOk(q, choice)
    ensures var r := Push(q, t, x, waitError, choice).1;
            (r.PushSleeps? <==> MakesPushersWait(q) && !waitError) && (r == PushReturns(true) <==> HasRoom(q, choice))
    ensures var r := PushWake(q, t, x, waitError, choice).1;
            (r.PushSleeps? <==> MakesPushersWait(q) && !waitError) && (r == PushReturns(true) <==> HasRoom(q, choice))
  {
    match q
    case LinkedList(lsq) => SyncLLQueue.PushSucceedsExactlyWhen(lsq, x, choice);
    case ArrayList(sq) =>
      SyncQueue.PushOutcomeExactlyWhen(sq, t, x, waitError, choice);
      SyncQueue.PushOutcomeExactlyWhen(sq.(full := sq.full.Leave(t)), t, x, waitError, choice);
  }

  /** What a pop does, given where poppers wait once the caller is running. */
  ghost predicate PopEffect<T>(q: JobQueue<T>, empty: CondVar, t: Tid, waitError: bool,
                         q': JobQueue<T>, outcome: PopOutcome<T>) {
    && q'.Sound()
    && q'.Closed() == q.Closed()
    && (outcome.PopSleeps? <==> q.Items() == [] && !q.Closed() && !waitError)
    && (outcome == PopReturns(None) <==> q.Items() == [] && (q.Closed() || waitError))
    && (outcome.PopReturns? && outcome.item.Some? ==>
          q.Items() != [] && outcome.item.value == q.Items()[0] && q'.Items() == q.Items()[1..])
    && (outcome.PopSleeps? || outcome.item.None? ==> q'.Items() == q.Items())
    && q'.Empty() == (if outcome.PopSleeps? then empty.Sleep(t) else empty)
    && q'.Full().waiting == q.Full().waiting
  }

  function Pop<T>(q: JobQueue<T>, t: Tid, waitError: bool, choice: Choice): (JobQueue<T>, PopOutcome<T>) {
    match q
    case LinkedList(lsq) =>
      var (lsq', outcome) := SyncLLQueue.PopSection(lsq, t, waitError);
      (LinkedList(lsq'), outcome)
    case ArrayList(sq) =>
      var (sq', outcome) := SyncQueue.PopSection(sq, t, waitError, choice);
      (ArrayList(sq'), outcome)
  }

  /** A waiting popper resumes. */
  function PopWake<T>(q: JobQueue<T>, t: Tid, waitError: bool, choice: Choice): (JobQueue<T>, PopOutcome<T>) {
    match q
    case LinkedList(lsq) => Pop(LinkedList(lsq.(empty := lsq.empty.Leave(t))), t, waitError, choice)
    case ArrayList(sq) => Pop(ArrayList(sq.(empty := sq.empty.Leave(t))), t, waitError, choice)
  }

  lemma PopWakeHasEffect<T>(q: JobQueue<T>, t: Tid, waitError: bool, choice: Choice)
    requires q.Sound() && PopChoiceOk(q, choice)
    ensures var (q', outcome) := PopWake(q, t, waitError, choice);
            PopEffect(q, q.Empty().Leave(t), t, waitError, q', outcome)
  {
    match q
    case LinkedList(lsq) =>
      SyncLLQueue.PopWakeKeeps(lsq, t, waitError);
    case ArrayList(sq) =>
      SyncQueue.PopWakeKeeps(sq, t, waitError, choice);
      SignalCounts(sq.full, choice.signalled);
  }

  lemma PopHasEffect<T>(q: JobQueue<T>, t: Tid, waitError: bool, choice: Choice)
    requires q.Sound() && PopChoiceOk(q, choice) && t !in q.Empty().waiting
    ensures var (q', outcome) := Pop(q, t, waitError, choice);
            PopEffect(q, q.Empty(), t, waitError, q', outcome)
  {
    assert q.Empty().Leave(t) == q.Empty();
    assert PopWake(q, t, waitError, choice) == Pop(q, t, waitError, choice);
    PopWakeHasEffect(q, t, waitError, choice);
  }

  function CloseSection<T>(q: JobQueue<T>): JobQueue<T> {
    match q
    case LinkedList(lsq) => LinkedList(SyncLLQueue.CloseSection(lsq))
    case ArrayList(sq) => ArrayList(SyncQueue.CloseSection(sq))
  }

  lemma CloseHasEffect<T>(q: JobQueue<T>)
    requires q.Sound()
    ensures var r := CloseSection(q);
            && r.Sound() && r.Closed() && r.Items() == q.Items()
            && r.Empty().asleep == {} && r.Full().asleep == {}
            && r.Empty().waiting == q.Empty().waiting && r.Full().waiting == q.Full().waiting
  {
  }

  function UpdateMaxCapacitySection<T>(q: JobQueue<T>, newMaxCapacity: nat): JobQueue<T> {
    match q
    case LinkedList(_) => q
    case ArrayList(sq) => ArrayList(SyncQueue.UpdateMaxCapacitySection(sq, newMaxCapacity))
  }

  lemma UpdateMaxCapacityHasEffect<T>(q: JobQueue<T>, newMaxCapacity: nat)
    requires q.Sound() && newMaxCapacity <= MAX_U64
    ensures var r := UpdateMaxCapacitySection(q, newMaxCapacity);
            && r.Sound() && r.Closed() == q.Closed() && r.Items() == q.Items()
            && r.Empty() == q.Empty() && r.Full().waiting == q.Full().waiting
            && (q.LinkedList? ==> r == q)
            && (q.ArrayList? ==> r.ArrayList? && r.sq.maxCapacity == newMaxCapacity)
            && r.Full().asleep == if q.ArrayList? && q.sq.IsFull() && newMaxCapacity > q.sq.maxCapacity then {}
                                  else q.Full().asleep
  {
  }

  /** Nobody is woken and the array list keeps its capacity. */
  function QuietChoice<T>(q: JobQueue<T>): Choice {
    Choice({}, if q.ArrayList? then q.sq.capacity else 0, true)
  }

  /** The threads of `signalled` are woken, and an array list that shrinks keeps at most `slack` free slots. */
  function ShrinkingChoice<T>(q: JobQueue<T>, signalled: set<Tid>, slack: nat): Choice {
    if q.ArrayList? then SyncQueue.Shrunk(q.sq, signalled, slack) else Choice(signalled, 0, true)
  }

  /** Once the queue is closed, there is nobody to be woken. */
  lemma ClosedQueueMayBeQuiet<T>(q: JobQueue<T>, slack: nat)
    requires q.Sound() && q.Closed()
    ensures PushChoiceOk(q, QuietChoice(q)) && PopChoiceOk(q, ShrinkingChoice(q, {}, slack))
  {
  }

  // ---- whole calls ----

  /**
   A push over all its waits. Only an array list makes a pusher wait, so the wake-ups are
   those of the array list.
   */
  function PushCall<T>(q: JobQueue<T>, t: Tid, x: T, signalled: set<Tid>, linked: bool, growth: nat,
                       wakes: seq<Wake<SyncQueue.Queue<T>>>): (JobQueue<T>, PushOutcome) {
    match q
    case LinkedList(lsq) =>
      var (lsq', outcome) := SyncLLQueue.PushSection(lsq, x, Choice(signalled, 0, linked));
      (LinkedList(lsq'), outcome)
    case ArrayList(sq) =>
      var (sq', outcome) := SyncQueue.PushCall(sq, t, x, false, signalled, growth, wakes);
      (ArrayList(sq'), outcome)
  }

  /** A pop over all its waits, in whichever of the two queues it is. */
  function PopCall<T>(q: JobQueue<T>, t: Tid, signalled: set<Tid>, slack: nat,
                      listWakes: seq<Wake<SyncLLQueue.Queue<T>>>, arrayWakes: seq<Wake<SyncQueue.Queue<T>>>)
    : (JobQueue<T>, PopOutcome<T>) {
    match q
    case LinkedList(lsq) =>
      var (lsq', outcome) := SyncLLQueue.PopCall(lsq, t, false, listWakes);
      (LinkedList(lsq'), outcome)
    case ArrayList(sq) =>
      var (sq', outcome) := SyncQueue.PopCall(sq, t, false, signalled, slack, arrayWakes);
      (ArrayList(sq'), outcome)
  }

  /** A whole push appends or refuses as the last state that it looks at says, in whichever queue it is. */
  lemma PushCallIsDecided<T>(q: JobQueue<T>, t: Tid, x: T, signalled: set<Tid>, linked: bool, growth: nat,
                             wakes: seq<Wake<SyncQueue.Queue<T>>>) returns (i: nat)
    requires q.Sound() && forall k | 0 <= k < |wakes| :: wakes[k].found.Valid()
    ensures i <= |wakes| && (q.LinkedList? ==> i == 0)
    ensures q.ArrayList? ==> forall k | 0 <= k < i ::
              MakesPushersWait(ArrayList(Look(q.sq, wakes, k))) && !Late(wakes, k)
    ensures var l := if q.LinkedList? then q else ArrayList(Look(q.sq, wakes, i));
            var choice := Choice(signalled, (if q.LinkedList? then 0 else l.sq.capacity) + growth, linked);
            var (q', r) := PushCall(q, t, x, signalled, linked, growth, wakes);
            && (r.PushSleeps? <==> MakesPushersWait(l) && !Late(wakes, i))
            && (r.PushSleeps? ==> i == |wakes|)
            && (r == PushReturns(true) <==> HasRoom(l, choice))
            && q'.Items() == (if r == PushReturns(true) then l.Items() + [x] else l.Items())
            && q'.Closed() == l.Closed()
  {
    match q
    case LinkedList(lsq) =>
      i := 0;
      SyncLLQueue.PushSucceedsExactlyWhen(lsq, x, Choice(signalled, 0, linked));
    case ArrayList(sq) => i := SyncQueue.PushCallIsDecided(sq, t, x, false, signalled, growth, wakes);
  }

  /** A whole pop takes what the last state that it looks at offers, in whichever queue it is. */
  lemma PopCallIsDecided<T>(q: JobQueue<T>, t: Tid, signalled: set<Tid>, slack: nat,
                            listWakes: seq<Wake<SyncLLQueue.Queue<T>>>, arrayWakes: seq<Wake<SyncQueue.Queue<T>>>)
    returns (i: nat, l: JobQueue<T>, late: bool)
    ensures q.LinkedList? ==>
              && i <= |listWakes| && l == LinkedList(Look(q.lsq, listWakes, i)) && late == Late(listWakes, i)
              && forall k | 0 <= k < i :: var l := Look(q.lsq, listWakes, k);
                   !l.closed && l.items == [] && !Late(listWakes, k)
    ensures q.ArrayList? ==>
              && i <= |arrayWakes| && l == ArrayList(Look(q.sq, arrayWakes, i)) && late == Late(arrayWakes, i)
              && forall k | 0 <= k < i :: var l := Look(q.sq, arrayWakes, k);
                   !l.closed && l.items == [] && !Late(arrayWakes, k)
    ensures var (q', r) := PopCall(q, t, signalled, slack, listWakes, arrayWakes);
            && (r.PopSleeps? <==> !l.Closed() && l.Items() == [] && !late)
            && (r.PopSleeps? ==> i == if q.LinkedList? then |listWakes| else |arrayWakes|)
            && (r == PopReturns(None) <==> l.Items() == [] && (l.Closed() || late))
            && (l.Items() != [] ==> r == PopReturns(Some(l.Items()[0])) && q'.Items() == l.Items()[1..])
            && (l.Items() == [] ==> q'.Items() == [])
  {
    match q
    case LinkedList(lsq) =>
      i := SyncLLQueue.PopCallIsDecided(lsq, t, false, listWakes);
      l, late := LinkedList(Look(lsq, listWakes, i)), Late(listWakes, i);
    case ArrayList(sq) =>
      i := SyncQueue.PopCallIsDecided(sq, t, false, signalled, slack, arrayWakes);
      l, late := ArrayList(Look(sq, arrayWakes, i)), Late(arrayWakes, i);
  }

  /** The structure job_queue: its type decides which of the two queues is used. */
  class Monitor<T(==)> {
    const lsq: SyncLLQueue.Monitor?<T>
    const sq: SyncQueue.Monitor?<T>

    ghost predicate Valid()
      reads this, lsq, sq
    {
      && (lsq != null ==> sq == null && lsq.Valid())
      && (lsq == null ==> sq != null && sq.Valid())
    }

    ghost function View(): JobQueue<T>
      requires Valid()
      reads this, lsq, sq
    {
      if lsq != null then LinkedList(lsq.View()) else ArrayList(sq.View())
    }

    constructor (maxCapacity: nat)
      requires maxCapacity <= MAX_U64
      ensures Valid() && View() == Initialize(maxCapacity)
      ensures (lsq != null ==> fresh(lsq)) && (sq != null ==> fresh(sq))
    {
      if maxCapacity == JOB_QUEUE_AS_LINKEDLIST {
        lsq := new SyncLLQueue.Monitor();
        sq := null;
      } else {
        lsq := null;
        sq := new SyncQueue.Monitor(maxCapacity);
      }
    }

    method Push(t: Tid, x: T, signalled: set<Tid>, linked: bool, growth: nat, wakes: seq<Wake<SyncQueue.Queue<T>>>)
      returns (r: PushOutcome)
      requires Valid() && t !in View().Full().waiting
      requires forall w | w in wakes :: w.found.Valid() && t in w.found.full.waiting
      modifies lsq, sq
      ensures Valid() && (View(), r) == PushCall(old(View()), t, x, signalled, linked, growth, wakes)
    {
      if lsq != null {
        var isPushed := lsq.Push(x, Choice(signalled, 0, linked));
        r := PushReturns(isPushed);
      } else {
        r := sq.Push(t, x, signalled, growth, wakes);
      }
    }

    method Pop(t: Tid, signalled: set<Tid>, slack: nat, listWakes: seq<Wake<SyncLLQueue.Queue<T>>>,
               arrayWakes: seq<Wake<SyncQueue.Queue<T>>>) returns (r: PopOutcome<T>)
      requires Valid() && t !in View().Empty().waiting
      requires forall w | w in listWakes :: w.found.Valid() && t in w.found.empty.waiting
      requires forall w | w in arrayWakes :: w.found.Valid() && t in w.found.empty.waiting
      modifies lsq, sq
      ensures Valid() && (View(), r) == PopCall(old(View()), t, signalled, slack, listWakes, arrayWakes)
    {
      if lsq != null { r := lsq.Pop(t, listWakes); } else { r := sq.Pop(t, signalled, slack, arrayWakes); }
    }

    method IsEmpty() returns (isEmpty: bool)
      requires Valid()
      ensures isEmpty <==> View().Items() == []
    {
      isEmpty := if lsq != null then |lsq.items| == 0 else |sq.items| == 0;
    }

    method Close()
      requires Valid()
      modifies lsq, sq
      ensures Valid() && View() == CloseSection(old(View()))
    {
      if lsq != null { lsq.Close(); } else { sq.Close(); }
    }

    method UpdateMaxCapacity(newMaxCapacity: nat)
      requires Valid() && newMaxCapacity <= MAX_U64
      modifies lsq, sq
      ensures Valid() && View() == UpdateMaxCapacitySection(old(View()), newMaxCapacity)
    {
      if lsq == null { sq.UpdateMaxCapacity(newMaxCapacity); }
    }
  }
}
