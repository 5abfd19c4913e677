/** The byte pipe of src/sync_pipe.c, whose buffer grows and shrinks below a fixed limit. */
module SyncPipe {
  import opened Base
  import opened CondVars
  import Runs

  type Byte = x: nat | x < 256

  /** What sync_pipe_lock protects; a dpipe is its readable bytes, its capacity and its closed flag. */
  datatype Pipe = Pipe(
    bytes: seq<Byte>,
    capacity: nat,
    maxCapacity: nat,
    closed: bool,
    empty: CondVar,
    full: CondVar)
  {
    predicate IsFull() {
      |bytes| == capacity
    }

    function Writable(): int {
      capacity - |bytes|
    }

    /** resize_dpipe keeps the bytes: it refuses a capacity below them, and may fail to allocate. */
    function Resized(newCapacity: nat, allocates: bool): Pipe {
      if allocates && newCapacity >= |bytes| then this.(capacity := newCapacity) else this
    }

    predicate Valid() {
      |bytes| <= capacity <= maxCapacity <= MAX_U64 && empty.Valid() && full.Valid()
    }

    /** Who sleeps has a reason: an empty pipe, or a full one that may not grow. */
    predicate SleepersHaveReason() {
      && (empty.asleep != {} ==> bytes == [] && !closed)
      && (full.asleep != {} ==> IsFull() && capacity == maxCapacity && !closed)
    }
  }

  /** The capacity that a write of n bytes asks for, in 64-bit arithmetic. */
  function Target(p: Pipe, n: nat): nat {
    Min(p.maxCapacity, (2 * |p.bytes| + 2 * n) % TWO_TO_THE_64)
  }

  predicate WantsToGrow(p: Pipe, n: nat) {
    p.capacity < p.maxCapacity && p.Writable() < n
  }

  predicate WriterWaits(p: Pipe) {
    !p.closed && p.IsFull() && p.capacity == p.maxCapacity
  }

  datatype Outcome<T> = Sleeps | Returns(result: T)

  /** The result is the number of bytes written. */
  function WriteSection(p: Pipe, t: Tid, data: seq<Byte>, allocates: bool): (Pipe, Outcome<nat>) {
    if WriterWaits(p) then (p.(full := p.full.Sleep(t)), Sleeps) else WritePassed(p, data, allocates)
  }

  /** A write that need not wait any more. */
  function WritePassed(p: Pipe, data: seq<Byte>, allocates: bool): (Pipe, Outcome<nat>) {
    if p.closed then (p, Returns(0))
    else
      var grown := if WantsToGrow(p, |data|) then p.Resized(Target(p, |data|), allocates) else p;
      var n := if grown.Writable() < |data| then grown.Writable() else |data|;
      if n <= 0 then (grown, Returns(0))
      else (grown.(bytes := grown.bytes + data[..n], empty := grown.empty.Broadcast()), Returns(n))
  }

  predicate ReaderWaits(p: Pipe) {
    !p.closed && p.bytes == []
  }

  function ReadSection(p: Pipe, t: Tid, n: nat, allocates: bool): (Pipe, Outcome<seq<Byte>>) {
    if ReaderWaits(p) then (p.(empty := p.empty.Sleep(t)), Sleeps) else ReadPassed(p, n, allocates)
  }

  /** A read that need not wait any more. */
  function ReadPassed(p: Pipe, n: nat, allocates: bool): (Pipe, Outcome<seq<Byte>>) {
    var k := Min(n, |p.bytes|);
    var left := p.(bytes := p.bytes[k..]);
    var tooLarge := left.capacity > 3 * |left.bytes| % TWO_TO_THE_64;
    var shrunk := if tooLarge then left.Resized(|left.bytes|, allocates) else left;
    (if !p.closed && k > 0 then shrunk.(full := shrunk.full.Broadcast()) else shrunk, Returns(p.bytes[..k]))
  }

  function CloseSection(p: Pipe): Pipe {
    if p.closed then p else p.(closed := true, full := p.full.Broadcast(), empty := p.empty.Broadcast())
  }

  // ---- one write ----

  /** The growth asked for, if 2 * readable + 2 * n does not overflow, really is growth. */
  lemma GrowthGrows(p: Pipe, n: nat)
    requires p.Valid() && WantsToGrow(p, n) && 2 * |p.bytes| + 2 * n <= MAX_U64
    ensures p.capacity < Target(p, n) <= p.maxCapacity && Target(p, n) >= |p.bytes|
  {
  }

  /** What a write that returns has done: it appended the first bytes of its data, as many as fit. */
  lemma WriteAppends(p: Pipe, t: Tid, data: seq<Byte>, allocates: bool)
    requires p.Valid() && WriteSection(p, t, data, allocates).1.Returns?
    ensures var (p', r) := WriteSection(p, t, data, allocates);
            && r.result <= |data| && p'.bytes == p.bytes + data[..r.result]
            && (r.result < |data| ==> p.closed || p'.IsFull())
  {
  }

  /**
   Exactly when a write of at least one byte to an open pipe takes nothing: the capacity it
   ends up with is the number of bytes already there.
   */
  lemma WriteTakesNothingExactlyWhen(p: Pipe, t: Tid, data: seq<Byte>, allocates: bool)
    requires p.Valid() && !p.closed && data != [] && WriteSection(p, t, data, allocates).1.Returns?
    ensures var resized := WantsToGrow(p, |data|) && allocates && Target(p, |data|) >= |p.bytes|;
            WriteSection(p, t, data, allocates).1.result == 0 <==>
            (if resized then Target(p, |data|) == |p.bytes| else p.IsFull())
  {
  }

  /** Without overflow, a write of at least one byte takes nothing exactly when a full pipe fails to grow. */
  lemma WriteTakesAByteUnlessGrowthFails(p: Pipe, t: Tid, data: seq<Byte>, allocates: bool)
    requires p.Valid() && !p.closed && data != [] && WriteSection(p, t, data, allocates).1.Returns?
    requires 2 * |p.bytes| + 2 * |data| <= MAX_U64
    ensures WriteSection(p, t, data, allocates).1.result >= 1 <==> !p.IsFull() || allocates
  {
    WriteTakesNothingExactlyWhen(p, t, data, allocates);
  }

  /** With overflow it can take nothing although the resize works: 2^63 bytes into a new pipe. */
  lemma OverflowingWriteTakesNothing(t: Tid, data: seq<Byte>)
    requires 2 * |data| == TWO_TO_THE_64
    ensures WriteSection(Empty(MAX_U64), t, data, true) == (Empty(MAX_U64), Returns(0))
  {
  }

  /** The capacity after a write: it grows towards what is needed exactly below the limit and when space runs short. */
  lemma WriteGrowsExactlyWhen(p: Pipe, t: Tid, data: seq<Byte>, allocates: bool)
    requires p.Valid() && 2 * |p.bytes| + 2 * |data| <= MAX_U64
    ensures var (p', r) := WriteSection(p, t, data, allocates);
            var wants := !p.closed && p.capacity < p.maxCapacity && p.capacity < |p.bytes| + |data|;
            && (r.Sleeps? <==> !p.closed && |p.bytes| == p.capacity == p.maxCapacity)
            && p'.capacity ==
               (if wants && allocates then Min(p.maxCapacity, 2 * |p.bytes| + 2 * |data|) else p.capacity)
            && p'.maxCapacity == p.maxCapacity && p'.closed == p.closed
  {
  }

  /**
   What else a read does: the capacity shrinks to the bytes left exactly when it is more than
   three times as large, and the writers of an open pipe are woken exactly when it took a byte.
   */
  lemma ReadShrinksExactlyWhen(p: Pipe, t: Tid, n: nat, allocates: bool)
    requires p.Valid()
    ensures var (p', r) := ReadSection(p, t, n, allocates);
            && (r.Sleeps? <==> !p.closed && p.bytes == [])
            && (r.Returns? && 3 * |p'.bytes| <= MAX_U64 ==>
                  p'.capacity == if p.capacity > 3 * |p'.bytes| && allocates then |p'.bytes| else p.capacity)
            && (r.Sleeps? ==> p'.capacity == p.capacity)
            && p'.maxCapacity == p.maxCapacity && p'.closed == p.closed
            && (r.Returns? ==> p'.full == if r.result != [] && !p.closed then p.full.Broadcast() else p.full)
  {
  }

  /** A read that returns takes as many bytes from the front as it may and there are, and leaves the rest. */
  lemma ReadTakesTheFront(p: Pipe, t: Tid, n: nat, allocates: bool)
    requires p.Valid() && ReadSection(p, t, n, allocates).1.Returns?
    ensures var (p', r) := ReadSection(p, t, n, allocates);
            && p.bytes == r.result + p'.bytes
            && |r.result| == Min(n, |p.bytes|)
            && (n > 0 && r.result == [] <==> n > 0 && p.bytes == [] && p.closed)
  {
    var k := Min(n, |p.bytes|);
    assert p.bytes == p.bytes[..k] + p.bytes[k..];
  }

  function Empty(maxCapacity: nat): Pipe {
    Pipe([], 0, maxCapacity, false, NOBODY, NOBODY)
  }

  // ---- any number of threads ----

  datatype Call = Writing(data: seq<Byte>) | Reading(n: nat)

  /** The pipe, the calls that wait on it, and all bytes written to it and read from it so far. */
  datatype System = System(p: Pipe, calls: map<Tid, Call>, written: seq<Byte>, read: seq<Byte>)

  datatype Step =
    | WriteCalled(t: Tid, data: seq<Byte>, allocates: bool)
    | WriterWakes(t: Tid, allocates: bool)
    | ReadCalled(t: Tid, n: nat, allocates: bool)
    | ReaderWakes(t: Tid, allocates: bool)
    | CloseCalled

  predicate Enabled(s: System, step: Step) {
    match step
    case WriteCalled(t, data, _) => t !in s.calls && |data| <= MAX_U64
    case WriterWakes(t, _) => t in s.calls && s.calls[t].Writing?
    case ReadCalled(t, n, _) => t !in s.calls && n <= MAX_U64
    case ReaderWakes(t, _) => t in s.calls && s.calls[t].Reading?
    case CloseCalled => true
  }

  function WriteEnds(s: System, t: Tid, data: seq<Byte>, r: (Pipe, Outcome<nat>)): System {
    match r.1
    case Sleeps => s.(p := r.0, calls := s.calls[t := Writing(data)])
    case Returns(n) =>
      s.(p := r.0, calls := s.calls - {t}, written := if n <= |data| then s.written + data[..n] else s.written)
  }

  function ReadEnds(s: System, t: Tid, n: nat, r: (Pipe, Outcome<seq<Byte>>)): System {
    match r.1
    case Sleeps => s.(p := r.0, calls := s.calls[t := Reading(n)])
    case Returns(bytes) => s.(p := r.0, calls := s.calls - {t}, read := s.read + bytes)
  }

  function Next(s: System, step: Step): System {
    if !Enabled(s, step) then s else
    match step
    case WriteCalled(t, data, allocates) => WriteEnds(s, t, data, WriteSection(s.p, t, data, allocates))
    case WriterWakes(t, allocates) =>
      WriteEnds(s, t, s.calls[t].data, WriteSection(s.p.(full := s.p.full.Leave(t)), t, s.calls[t].data, allocates))
    case ReadCalled(t, n, allocates) => ReadEnds(s, t, n, ReadSection(s.p, t, n, allocates))
    case ReaderWakes(t, allocates) =>
      ReadEnds(s, t, s.calls[t].n, ReadSection(s.p.(empty := s.p.empty.Leave(t)), t, s.calls[t].n, allocates))
    case CloseCalled => s.(p := CloseSection(s.p))
  }

  function Init(maxCapacity: nat): System {
    System(Empty(maxCapacity), map[], [], [])
  }

  function Reach(maxCapacity: nat, schedule: seq<Step>): System {
    Runs.After(Next, Init(maxCapacity), schedule)
  }

  ghost predicate Stream(s: System) {
    s.written == s.read + s.p.bytes
  }

  /** Each condition variable holds exactly the calls that wait on it. */
  ghost predicate Linked(s: System) {
    && (forall t :: t in s.p.full.waiting <==> t in s.calls && s.calls[t].Writing?)
    && (forall t :: t in s.p.empty.waiting <==> t in s.calls && s.calls[t].Reading?)
  }

  ghost predicate Inv(s: System) {
    s.p.Valid() && s.p.SleepersHaveReason() && Linked(s) && Stream(s)
  }

  /** How a run may go on: the limit stays, logs only grow, and a closed pipe takes no more bytes. */
  ghost predicate Grows(s: System, s': System) {
    && s'.p.maxCapacity == s.p.maxCapacity
    && s.read <= s'.read
    && s.written <= s'.written
    && (s.p.closed ==> s'.p.closed && s'.written == s.written)
  }

  /** p is the pipe of the state, once the caller does not wait in it any more. */
  lemma WriteKeepsInv(s: System, p: Pipe, t: Tid, data: seq<Byte>, allocates: bool)
    requires Inv(s) && p == s.p.(full := s.p.full.Leave(t)) && (t in s.calls ==> s.calls[t].Writing?)
    ensures var s' := WriteEnds(s, t, data, WriteSection(p, t, data, allocates)); Inv(s') && Grows(s, s')
  {
    var (p', r) := WriteSection(p, t, data, allocates);
    if r.Returns? {
      WriteAppends(p, t, data, allocates);
      assert s.read + (p.bytes + data[..r.result]) == (s.read + p.bytes) + data[..r.result];
    }
  }

  lemma ReadKeepsStream(s: System, p: Pipe, t: Tid, n: nat, allocates: bool)
    requires Stream(s) && p.Valid() && p.bytes == s.p.bytes
    ensures Stream(ReadEnds(s, t, n, ReadSection(p, t, n, allocates)))
  {
    var (p', r) := ReadSection(p, t, n, allocates);
    if r.Returns? {
      ReadTakesTheFront(p, t, n, allocates);
      assert s.read + (r.result + p'.bytes) == (s.read + r.result) + p'.bytes;
    }
  }

  lemma ReadKeepsLinked(s: System, p: Pipe, t: Tid, n: nat, allocates: bool)
    requires Linked(s) && p == s.p.(empty := s.p.empty.Leave(t)) && (t in s.calls ==> s.calls[t].Reading?)
    ensures Linked(ReadEnds(s, t, n, ReadSection(p, t, n, allocates)))
  {
  }

  /** A reader never finds the pipe full to its limit and leaves it so, with a writer asleep. */
  lemma ReadKeepsReasons(p: Pipe, t: Tid, n: nat, allocates: bool)
    requires p.Valid() && p.SleepersHaveReason()
    ensures var p' := ReadSection(p, t, n, allocates).0; p'.Valid() && p'.SleepersHaveReason()
  {
  }

  lemma ReadKeepsInv(s: System, p: Pipe, t: Tid, n: nat, allocates: bool)
    requires Inv(s) && p == s.p.(empty := s.p.empty.Leave(t)) && (t in s.calls ==> s.calls[t].Reading?)
    ensures var s' := ReadEnds(s, t, n, ReadSection(p, t, n, allocates)); Inv(s') && Grows(s, s')
  {
    ReadKeepsStream(s, p, t, n, allocates);
    ReadKeepsLinked(s, p, t, n, allocates);
    ReadKeepsReasons(p, t, n, allocates);
  }

  lemma StepKeepsInv(s: System, step: Step)
    requires Inv(s)
    ensures Inv(Next(s, step)) && Grows(s, Next(s, step))
  {
    if Enabled(s, step) {
      match step
      case WriteCalled(t, data, allocates) =>
        LeaveCounts(s.p.full, t);
        WriteKeepsInv(s, s.p, t, data, allocates);
      case WriterWakes(t, allocates) =>
        WriteKeepsInv(s, s.p.(full := s.p.full.Leave(t)), t, s.calls[t].data, allocates);
      case ReadCalled(t, n, allocates) =>
        LeaveCounts(s.p.empty, t);
        ReadKeepsInv(s, s.p, t, n, allocates);
      case ReaderWakes(t, allocates) =>
        ReadKeepsInv(s, s.p.(empty := s.p.empty.Leave(t)), t, s.calls[t].n, allocates);
      case CloseCalled =>
    }
  }

  lemma {:induction false} RunsKeepInv(s: System, schedule: seq<Step>)
    requires Inv(s)
    ensures Inv(Runs.After(Next, s, schedule)) && Grows(s, Runs.After(Next, s, schedule))
    decreases |schedule|
  {
    if schedule != [] {
      StepKeepsInv(s, schedule[0]);
      RunsKeepInv(Next(s, schedule[0]), schedule[1..]);
    }
  }

  /** In every run, the bytes written are the bytes read followed by the bytes buffered, and the limit is kept. */
  lemma NoByteIsLostOrReordered(maxCapacity: nat, schedule: seq<Step>)
    requires maxCapacity <= MAX_U64
    ensures var s := Reach(maxCapacity, schedule);
            && s.written == s.read + s.p.bytes
            && |s.p.bytes| <= s.p.capacity <= s.p.maxCapacity == maxCapacity
  {
    RunsKeepInv(Init(maxCapacity), schedule);
  }

  /** Nobody is stranded in any run: readers sleep on an open empty pipe, writers on an open pipe full to the limit. */
  lemma NobodyIsStranded(maxCapacity: nat, schedule: seq<Step>)
    requires maxCapacity <= MAX_U64
    ensures var p := Reach(maxCapacity, schedule).p;
            && (p.empty.asleep != {} ==> p.bytes == [] && !p.closed)
            && (p.full.asleep != {} ==> |p.bytes| == maxCapacity && !p.closed)
  {
    RunsKeepInv(Init(maxCapacity), schedule);
  }

  /** Readers and writers can all be asleep at once exactly when the pipe may hold no byte at all. */
  lemma BothSidesSleepOnlyOnAZeroPipe(maxCapacity: nat)
    requires maxCapacity <= MAX_U64
    ensures (exists schedule :: BothSidesSleep(Reach(maxCapacity, schedule).p)) <==> maxCapacity == 0
  {
    forall schedule | BothSidesSleep(Reach(maxCapacity, schedule).p) ensures maxCapacity == 0 {
      NobodyIsStranded(maxCapacity, schedule);
    }
    if maxCapacity == 0 {
      var schedule := [WriteCalled(1, [], true), ReadCalled(2, 1, true)];
      Runs.OneStep(Next, Init(0), schedule);
      var s := Next(Init(0), schedule[0]);
      assert s.p.full.asleep == {1};
      Runs.OneStep(Next, s, schedule[1..]);
      assert Next(s, schedule[1]).p.empty.asleep == {2};
      assert BothSidesSleep(Reach(0, schedule).p);
    }
  }

  predicate BothSidesSleep(p: Pipe) {
    p.empty.asleep != {} && p.full.asleep != {}
  }

  lemma StepClosesExactlyWhen(s: System, step: Step)
    requires Inv(s)
    ensures Next(s, step).p.closed <==> s.p.closed || step.CloseCalled?
  {
    StepKeepsInv(s, step);
  }

  /** In every run the pipe is closed exactly when somebody has closed it. */
  lemma {:induction false} ClosedExactlyWhenCalled(maxCapacity: nat, schedule: seq<Step>)
    requires maxCapacity <= MAX_U64
    ensures Reach(maxCapacity, schedule).p.closed <==> CloseCalled in schedule
    decreases |schedule|
  {
    if schedule != [] {
      var before, last := schedule[..|schedule| - 1], schedule[|schedule| - 1];
      assert schedule == before + [last];
      ClosedExactlyWhenCalled(maxCapacity, before);
      RunsKeepInv(Init(maxCapacity), before);
      Runs.AfterAppend(Next, Init(maxCapacity), before, last);
      StepClosesExactlyWhen(Reach(maxCapacity, before), last);
    }
  }

  /**
   A write goes on waiting exactly while the pipe is open and full to its limit, a read exactly
   while it is open and empty.
   */
  lemma WaitsGoOnExactlyWhile(s: System, step: Step)
    requires Inv(s) && Enabled(s, step)
    ensures step.WriteCalled? || step.WriterWakes? ==>
              (step.t in Next(s, step).calls <==> !s.p.closed && |s.p.bytes| == s.p.capacity == s.p.maxCapacity)
    ensures step.ReadCalled? || step.ReaderWakes? ==>
              (step.t in Next(s, step).calls <==> !s.p.closed && s.p.bytes == [])
  {
  }

  /** A closed pipe stays closed in every run, takes no byte any more, and is read out in order. */
  lemma ClosedPipeOnlyDrains(s: System, schedule: seq<Step>)
    requires Inv(s) && s.p.closed
    ensures var s' := Runs.After(Next, s, schedule);
            s'.p.closed && s'.written == s.written && s.read <= s'.read <= s.read + s.p.bytes
  {
    RunsKeepInv(s, schedule);
  }

  // ---- whole calls ----

  /** A write over all its waits; it still sleeps when there is no further wake-up. */
  function WriteCall(p: Pipe, t: Tid, data: seq<Byte>, allocates: bool, wakes: seq<Pipe>): (Pipe, Outcome<nat>)
    decreases |wakes|
  {
    var r := WriteSection(p, t, data, allocates);
    if r.1.Sleeps? && wakes != [] then
      WriteCall(wakes[0].(full := wakes[0].full.Leave(t)), t, data, allocates, wakes[1..])
    else r
  }

  function ReadCall(p: Pipe, t: Tid, n: nat, allocates: bool, wakes: seq<Pipe>): (Pipe, Outcome<seq<Byte>>)
    decreases |wakes|
  {
    var r := ReadSection(p, t, n, allocates);
    if r.1.Sleeps? && wakes != [] then
      ReadCall(wakes[0].(empty := wakes[0].empty.Leave(t)), t, n, allocates, wakes[1..])
    else r
  }

  /** A whole write is decided by the first state in which the pipe is closed, or not full to its limit. */
  lemma {:induction false} WriteCallIsDecided(p: Pipe, t: Tid, data: seq<Byte>, allocates: bool, wakes: seq<Pipe>)
    returns (i: nat)
    requires p.Valid() && forall k | 0 <= k < |wakes| :: wakes[k].Valid()
    ensures i <= |wakes|
    ensures forall k | 0 <= k < i :: var l := Found(p, wakes, k); !l.closed && |l.bytes| == l.capacity == l.maxCapacity
    ensures var l := Found(p, wakes, i);
            var (p', r) := WriteCall(p, t, data, allocates, wakes);
            && (r.Sleeps? <==> !l.closed && |l.bytes| == l.capacity == l.maxCapacity)
            && (r.Sleeps? ==> i == |wakes|)
            && (r.Returns? ==> r.result <= |data| && p'.bytes == l.bytes + data[..r.result])
            && (r.Returns? && r.result < |data| ==> l.closed || |p'.bytes| == p'.capacity)
            && (r.Returns? && l.closed ==> r.result == 0)
    decreases |wakes|
  {
    i := 0;
    var r := WriteSection(p, t, data, allocates).1;
    if r.Sleeps? && wakes != [] {
      var woken := wakes[0].(full := wakes[0].full.Leave(t));
      assert woken.Valid() by { LeaveCounts(wakes[0].full, t); }
      var j := WriteCallIsDecided(woken, t, data, allocates, wakes[1..]);
      i := j + 1;
      forall k | 0 <= k < i
        ensures var l := Found(p, wakes, k); !l.closed && |l.bytes| == l.capacity == l.maxCapacity
      {
        if k > 0 { var before := Found(woken, wakes[1..], k - 1); }
      }
    } else if r.Returns? {
      WriteAppends(p, t, data, allocates);
    }
  }

  /** A whole read is decided by the first state in which the pipe is closed or holds a byte. */
  lemma {:induction false} ReadCallIsDecided(p: Pipe, t: Tid, n: nat, allocates: bool, wakes: seq<Pipe>)
    returns (i: nat)
    ensures i <= |wakes| && forall k | 0 <= k < i :: var l := Found(p, wakes, k); !l.closed && l.bytes == []
    ensures var l := Found(p, wakes, i);
            var (p', r) := ReadCall(p, t, n, allocates, wakes);
            && (r.Sleeps? <==> !l.closed && l.bytes == [])
            && (r.Sleeps? ==> i == |wakes|)
            && (r.Returns? ==> l.bytes == r.result + p'.bytes && |r.result| == Min(n, |l.bytes|))
            && (t in p'.empty.waiting <==> r.Sleeps? || (i == 0 && t in p.empty.waiting))
    decreases |wakes|
  {
    i := 0;
    if !p.closed && p.bytes == [] && wakes != [] {
      var woken := wakes[0].(empty := wakes[0].empty.Leave(t));
      var j := ReadCallIsDecided(woken, t, n, allocates, wakes[1..]);
      i := j + 1;
      forall k | 0 <= k < i ensures var l := Found(p, wakes, k); !l.closed && l.bytes == [] {
        if k > 0 { var before := Found(woken, wakes[1..], k - 1); }
      }
    } else {
      OneReadIsDecided(p, t, n, allocates);
    }
  }

  lemma OneReadIsDecided(p: Pipe, t: Tid, n: nat, allocates: bool)
    ensures var (p', r) := ReadSection(p, t, n, allocates);
            && (r.Sleeps? <==> !p.closed && p.bytes == [])
            && (r.Returns? ==> p.bytes == r.result + p'.bytes && |r.result| == Min(n, |p.bytes|))
            && (t in p'.empty.waiting <==> r.Sleeps? || t in p.empty.waiting)
  {
    TwoParts(p.bytes, Min(n, |p.bytes|));
  }

  lemma TwoParts(bytes: seq<Byte>, k: nat)
    requires k <= |bytes|
    ensures bytes == bytes[..k] + bytes[k..]
  {
  }

  /** The structure sync_pipe; its methods are the functions of src/sync_pipe.c. */
  class Monitor {
    var bytes: seq<Byte>
    var capacity: nat
    var maxCapacity: nat
    var isClosed: bool
    var emptyWait: CondVar
    var fullWait: CondVar

    ghost function View(): Pipe
      reads this
    {
      Pipe(bytes, capacity, maxCapacity, isClosed, emptyWait, fullWait)
    }

    constructor (maxCapacity: nat)
      ensures View() == Empty(maxCapacity)
    {
      bytes, capacity, isClosed := [], 0, false;
      this.maxCapacity := maxCapacity;
      emptyWait, fullWait := NOBODY, NOBODY;
    }

    /** The mutex is held again after a wait: the fields are what the other threads have left. */
    method Resume(p: Pipe)
      modifies this
      ensures View() == p
    {
      bytes, capacity, maxCapacity, isClosed := p.bytes, p.capacity, p.maxCapacity, p.closed;
      emptyWait, fullWait := p.empty, p.full;
    }

    method Resize(newCapacity: nat, allocates: bool)
      modifies this`capacity
      ensures View() == old(View()).Resized(newCapacity, allocates)
    {
      if allocates && newCapacity >= |bytes| { capacity := newCapacity; }
    }

    /** write_to_sync_pipe after its loop. */
    method WriteNow(data: seq<Byte>, allocates: bool) returns (written: nat)
      requires View().Valid()
      modifies this
      ensures (View(), Returns(written)) == WritePassed(old(View()), data, allocates)
    {
      if isClosed { return 0; }
      if capacity < maxCapacity && capacity - |bytes| < |data| {
        Resize(Min(maxCapacity, AddU64(2 * |bytes|, 2 * |data|)), allocates);
      }
      written := Min(capacity - |bytes|, |data|);
      assert written == 0 ==> bytes + data[..written] == bytes;
      bytes := bytes + data[..written];
      if written > 0 { emptyWait := emptyWait.Broadcast(); }
    }

    /** read_from_sync_pipe after its loop. */
    method ReadNow(n: nat, allocates: bool) returns (read: seq<Byte>)
      modifies this
      ensures (View(), Returns(read)) == ReadPassed(old(View()), n, allocates)
    {
      var k := Min(n, |bytes|);
      read := bytes[..k];
      bytes := bytes[k..];
      if capacity > 3 * |bytes| % TWO_TO_THE_64 { Resize(|bytes|, allocates); }
      if !isClosed && k > 0 { fullWait := fullWait.Broadcast(); }
    }

    method Write(t: Tid, data: seq<Byte>, allocates: bool, wakes: seq<Pipe>) returns (r: Outcome<nat>)
      requires View().Valid() && (forall w | w in wakes :: w.Valid())
      modifies this
      ensures (View(), r) == WriteCall(old(View()), t, data, allocates, wakes)
    {
      var k := 0;
      while !isClosed && |bytes| == capacity && capacity == maxCapacity
        invariant k <= |wakes| && View().Valid()
        invariant WriteCall(View(), t, data, allocates, wakes[k..]) == WriteCall(old(View()), t, data, allocates, wakes)
        decreases |wakes| - k
      {
        fullWait := fullWait.Sleep(t);
        if k == |wakes| { return Sleeps; }
        assert wakes[k] in wakes;
        Resume(wakes[k]);
        fullWait := fullWait.Leave(t);
        k := k + 1;
      }
      var written := WriteNow(data, allocates);
      r := Returns(written);
    }

    method Read(t: Tid, n: nat, allocates: bool, wakes: seq<Pipe>) returns (r: Outcome<seq<Byte>>)
      modifies this
      ensures (View(), r) == ReadCall(old(View()), t, n, allocates, wakes)
    {
      var k := 0;
      while !isClosed && |bytes| == 0
        invariant k <= |wakes|
        invariant ReadCall(View(), t, n, allocates, wakes[k..]) == ReadCall(old(View()), t, n, allocates, wakes)
        decreases |wakes| - k
      {
        emptyWait := emptyWait.Sleep(t);
        if k == |wakes| { return Sleeps; }
        Resume(wakes[k]);
        emptyWait := emptyWait.Leave(t);
        k := k + 1;
      }
      var read := ReadNow(n, allocates);
      r := Returns(read);
    }

    method Close()
      modifies this
      ensures View() == CloseSection(old(View()))
    {
      if !isClosed {
        isClosed := true;
        fullWait := fullWait.Broadcast();
        emptyWait := emptyWait.Broadcast();
      }
    }
  }
}
