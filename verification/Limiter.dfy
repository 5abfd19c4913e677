/** The resource usage limiter of src/resource_usage_limiter.c. */
module Limiter {
  import opened Base
  import opened CondVars
  import Runs

  /** A break-out variable of some user; `broken` holds those that have been set. */
  type Flag = nat

  /** What resource_limiter_lock protects. */
  datatype Limiter = Limiter(count: nat, granted: nat, shutdown: bool, wait: CondVar, broken: set<Flag>) {
    function Left(): nat {
      if count >= granted then count - granted else 0
    }

    function Overdraft(): nat {
      if granted >= count then granted - count else 0
    }
  }

  /** A request, and whether it was made with the BLOCKING timeout. */
  datatype Request = Request(min: nat, max: nat, flag: Flag, blocking: bool)

  predicate ValidRequest(r: Request) {
    r.min <= r.max && r.max != 0
  }

  /** The guard of the wait loop, without the wait error. */
  predicate MustWait(m: Limiter, r: Request) {
    !m.shutdown && r.flag !in m.broken && m.Left() < r.min && r.min <= m.count
  }

  datatype Outcome = Sleeps(m: Limiter) | Grants(m: Limiter, amount: nat)

  function RequestSection(m: Limiter, t: Tid, r: Request, waitError: bool): Outcome {
    if MustWait(m, r) && !waitError then Sleeps(m.(wait := m.wait.Sleep(t)))
    else RequestPassed(m, r)
  }

  /** A request that need not wait, or whose wait was over. */
  function RequestPassed(m: Limiter, r: Request): Outcome {
    if m.shutdown || r.flag in m.broken || m.Left() < r.min then Grants(m, 0)
    else
      var amount := Max(Min(m.Left(), r.max), r.min);
      Grants(m.(granted := m.granted + amount), amount)
  }

  predicate MayGiveBack(m: Limiter, amount: nat) {
    amount <= m.granted
  }

  function GiveBackSection(m: Limiter, amount: nat): Limiter {
    if !MayGiveBack(m, amount) then m else
    var less := m.(granted := m.granted - amount);
    if less.Left() > 0 then less.(wait := m.wait.Broadcast()) else less
  }

  predicate MaySetCount(m: Limiter, newCount: nat) {
    newCount != 0 && !m.shutdown
  }

  function SetCountSection(m: Limiter, newCount: nat): Limiter {
    if !MaySetCount(m, newCount) || m.count == newCount then m
    else m.(wait := m.wait.Broadcast(), count := newCount)
  }

  function BreakOutSection(m: Limiter, flag: Flag): Limiter {
    if flag in m.broken then m else m.(broken := m.broken + {flag}, wait := m.wait.Broadcast())
  }

  function ShutdownSection(m: Limiter): Limiter {
    m.(shutdown := true, wait := m.wait.Broadcast())
  }

  /** delete_resource_usage_limiter waits until nothing is granted; true when it sleeps. */
  predicate MustAwaitReturns(m: Limiter) {
    m.granted > 0
  }

  // ---- any number of threads ----

  datatype Waiter = Requesting(r: Request) | Deleting

  datatype Grant = Grant(r: Request, amount: nat)

  /** The limiter, the threads that wait on it, every grant made and every amount given back. */
  datatype System = System(m: Limiter, waiters: map<Tid, Waiter>, grants: seq<Grant>, givenBack: seq<nat>)

  datatype Step =
    | RequestCalled(t: Tid, r: Request)
    | RequestWakes(t: Tid, timedOut: bool)
    | GiveBackCalled(amount: nat)
    | SetCountCalled(newCount: nat)
    | BreakOutCalled(flag: Flag)
    | ShutdownCalled
    | DeleteWaits(t: Tid)
    | DeleterWakes(t: Tid)

  predicate Enabled(s: System, step: Step) {
    match step
    case RequestCalled(t, r) => t !in s.waiters && ValidRequest(r) && r.max <= MAX_U64
    case RequestWakes(t, timedOut) =>
      t in s.waiters && s.waiters[t].Requesting? && (timedOut ==> !s.waiters[t].r.blocking)
    case GiveBackCalled(amount) => 0 < amount <= MAX_U64
    case SetCountCalled(newCount) => newCount <= MAX_U64
    case BreakOutCalled(_) => true
    case ShutdownCalled => true
    // delete shuts the limiter down first, as a step of its own
    case DeleteWaits(t) => t !in s.waiters && s.m.shutdown
    case DeleterWakes(t) => t in s.waiters && s.waiters[t].Deleting?
  }

  function RequestEnds(s: System, t: Tid, r: Request, outcome: Outcome): System {
    match outcome
    case Sleeps(m) => s.(m := m, waiters := s.waiters[t := Requesting(r)])
    case Grants(m, amount) =>
      s.(m := m, waiters := s.waiters - {t},
         grants := if amount > 0 then s.grants + [Grant(r, amount)] else s.grants)
  }

  function DeleteEnds(s: System, m: Limiter, t: Tid): System {
    if MustAwaitReturns(m) then s.(m := m.(wait := m.wait.Sleep(t)), waiters := s.waiters[t := Deleting])
    else s.(m := m, waiters := s.waiters - {t})
  }

  function Awake(m: Limiter, t: Tid): Limiter {
    m.(wait := m.wait.Leave(t))
  }

  function Next(s: System, step: Step): System {
    if !Enabled(s, step) then s else
    match step
    case RequestCalled(t, r) => RequestEnds(s, t, r, RequestSection(s.m, t, r, false))
    case RequestWakes(t, timedOut) =>
      RequestEnds(s, t, s.waiters[t].r, RequestSection(Awake(s.m, t), t, s.waiters[t].r, timedOut))
    case GiveBackCalled(amount) =>
      s.(m := GiveBackSection(s.m, amount),
         givenBack := if MayGiveBack(s.m, amount) then s.givenBack + [amount] else s.givenBack)
    case SetCountCalled(newCount) => s.(m := SetCountSection(s.m, newCount))
    case BreakOutCalled(flag) => s.(m := BreakOutSection(s.m, flag))
    case ShutdownCalled => s.(m := ShutdownSection(s.m))
    case DeleteWaits(t) => DeleteEnds(s, s.m, t)
    case DeleterWakes(t) => DeleteEnds(s, Awake(s.m, t), t)
  }

  function Init(count: nat): System {
    System(Limiter(count, 0, false, NOBODY, {}), map[], [], [])
  }

  function Reach(count: nat, schedule: seq<Step>): System {
    Runs.After(Next, Init(count), schedule)
  }

  // ---- the ledger ----

  function TotalGranted(grants: seq<Grant>): nat {
    if grants == [] then 0 else TotalGranted(grants[..|grants| - 1]) + grants[|grants| - 1].amount
  }

  function Total(amounts: seq<nat>): nat {
    if amounts == [] then 0 else Total(amounts[..|amounts| - 1]) + amounts[|amounts| - 1]
  }

  lemma TotalGrantedAppend(grants: seq<Grant>, g: Grant)
    ensures TotalGranted(grants + [g]) == TotalGranted(grants) + g.amount
  {
    assert (grants + [g])[..|grants|] == grants;
  }

  lemma TotalAppend(amounts: seq<nat>, amount: nat)
    ensures Total(amounts + [amount]) == Total(amounts) + amount
  {
    assert (amounts + [amount])[..|amounts|] == amounts;
  }

  /** Granted is what was granted less what was given back; every grant was within its request. */
  ghost predicate LedgerOk(s: System) {
    && s.m.granted + Total(s.givenBack) == TotalGranted(s.grants)
    && (forall g | g in s.grants :: 0 < g.amount && g.r.min <= g.amount <= g.r.max)
  }

  ghost predicate RangesOk(m: Limiter) {
    1 <= m.count <= MAX_U64 && m.granted <= MAX_U64 && m.wait.Valid()
  }

  /** An amount that the request may be given. */
  predicate Fits(m: Limiter, r: Request, amount: nat) {
    0 < amount && r.min <= amount <= r.max && m.granted + amount <= m.count
  }

  /**
   What a request gets: nothing, or the largest amount in its range that does not exceed
   what is left; so the total is not over-committed and the counter does not overflow.
   */
  lemma GrantIsMaximal(m: Limiter, t: Tid, r: Request, waitError: bool)
    requires ValidRequest(r) && RequestSection(m, t, r, waitError).Grants?
    ensures var g := RequestSection(m, t, r, waitError);
            && (g.amount > 0 ==> Fits(m, r, g.amount))
            && (!m.shutdown && r.flag !in m.broken ==> forall x: nat | Fits(m, r, x) :: x <= g.amount)
            && (m.shutdown || r.flag in m.broken ==> g.amount == 0)
            && g.m == m.(granted := m.granted + g.amount)
  {
  }

  /** A grant that is given back is accepted, restores the books, and wakes everybody, as there is something left. */
  lemma GivingBackUndoesAGrant(m: Limiter, t: Tid, r: Request, waitError: bool)
    requires ValidRequest(r) && RequestSection(m, t, r, waitError).Grants?
    requires RequestSection(m, t, r, waitError).amount > 0
    ensures var g := RequestSection(m, t, r, waitError);
            MayGiveBack(g.m, g.amount) && GiveBackSection(g.m, g.amount) == m.(wait := m.wait.Broadcast())
  {
    GrantIsMaximal(m, t, r, waitError);
  }

  ghost predicate RequestsOk(waiters: map<Tid, Waiter>) {
    forall t | t in waiters && waiters[t].Requesting? :: ValidRequest(waiters[t].r)
  }

  ghost predicate BooksOk(s: System) {
    LedgerOk(s) && RangesOk(s.m) && RequestsOk(s.waiters)
  }

  lemma RequestKeepsBooks(s: System, m: Limiter, t: Tid, r: Request, waitError: bool)
    requires BooksOk(s) && RangesOk(m) && m.granted == s.m.granted && ValidRequest(r)
    ensures BooksOk(RequestEnds(s, t, r, RequestSection(m, t, r, waitError)))
  {
    var outcome := RequestSection(m, t, r, waitError);
    if outcome.Grants? {
      GrantIsMaximal(m, t, r, waitError);
      TotalGrantedAppend(s.grants, Grant(r, outcome.amount));
    }
  }

  lemma GiveBackTakes(m: Limiter, amount: nat)
    requires RangesOk(m) && MayGiveBack(m, amount)
    ensures var m' := GiveBackSection(m, amount); RangesOk(m') && m'.granted == m.granted - amount
  {
  }

  /** The books after a step that grants nothing: what was given back is what the granted count has lost. */
  lemma GiveBackKeepsBooks(s: System, m': Limiter, amount: nat)
    requires BooksOk(s) && RangesOk(m') && m'.granted + amount == s.m.granted
    ensures BooksOk(s.(m := m', givenBack := s.givenBack + [amount]))
  {
    TotalAppend(s.givenBack, amount);
  }

  lemma StepKeepsBooks(s: System, step: Step)
    requires BooksOk(s)
    ensures BooksOk(Next(s, step))
  {
    if Enabled(s, step) {
      match step
      case RequestCalled(t, r) => RequestKeepsBooks(s, s.m, t, r, false);
      case RequestWakes(t, timedOut) => RequestKeepsBooks(s, Awake(s.m, t), t, s.waiters[t].r, timedOut);
      case GiveBackCalled(amount) =>
        if MayGiveBack(s.m, amount) {
          GiveBackTakes(s.m, amount);
          GiveBackKeepsBooks(s, GiveBackSection(s.m, amount), amount);
        }
      case SetCountCalled(_) =>
      case BreakOutCalled(_) =>
      case ShutdownCalled =>
      case DeleteWaits(_) =>
      case DeleterWakes(_) =>
    }
  }

  // ---- what was asked for last ----

  /** The resource count that a schedule asks for: the last valid one before the shutdown, or the initial one. */
  function CountAskedFor(count: nat, schedule: seq<Step>): nat {
    if schedule == [] then count else
    var before, last := schedule[..|schedule| - 1], schedule[|schedule| - 1];
    match last
    case SetCountCalled(n) => if 0 < n <= MAX_U64 && ShutdownCalled !in before then n else CountAskedFor(count, before)
    case _ => CountAskedFor(count, before)
  }

  /** A shutdown and the variables broken out of are as the schedule says, and nothing else sets them. */
  ghost predicate AsAsked(m: Limiter, count: nat, schedule: seq<Step>) {
    && m.count == CountAskedFor(count, schedule)
    && (m.shutdown <==> ShutdownCalled in schedule)
    && (forall flag :: flag in m.broken <==> BreakOutCalled(flag) in schedule)
  }

  lemma StepIsAsAsked(s: System, step: Step, count: nat, schedule: seq<Step>)
    requires AsAsked(s.m, count, schedule)
    ensures AsAsked(Next(s, step).m, count, schedule + [step])
  {
    assert (schedule + [step])[..|schedule|] == schedule;
    assert forall other :: other in schedule + [step] <==> other in schedule || other == step;
  }

  /**
   In every run the resource count is the one that was last asked for with a valid argument
   before the shutdown, the limiter is shut down exactly when somebody has called for that, and
   exactly the variables that somebody has broken out of are set.
   */
  lemma {:induction false} LastCallsTakeHold(count: nat, schedule: seq<Step>)
    ensures AsAsked(Reach(count, schedule).m, count, schedule)
    decreases |schedule|
  {
    if schedule != [] {
      var before, last := schedule[..|schedule| - 1], schedule[|schedule| - 1];
      assert schedule == before + [last];
      LastCallsTakeHold(count, before);
      Runs.AfterAppend(Next, Init(count), before, last);
      StepIsAsAsked(Reach(count, before), last, count, before);
    }
  }

  /** A count that is set leaves the rest alone, and wakes all exactly if it is new; a refused one changes nothing. */
  lemma SettingTheCount(m: Limiter, newCount: nat)
    ensures var m' := SetCountSection(m, newCount);
            && (MaySetCount(m, newCount) <==> newCount != 0 && !m.shutdown)
            && (MaySetCount(m, newCount) ==> m'.count == newCount)
            && (!MaySetCount(m, newCount) ==> m' == m)
            && m'.granted == m.granted && m'.shutdown == m.shutdown && m'.broken == m.broken
            && m'.wait.waiting == m.wait.waiting
            && m'.wait.asleep == (if m'.count != m.count then {} else m.wait.asleep)
  {
  }

  /** Breaking out wakes everybody the first time and changes nothing else; a shutdown always wakes everybody. */
  lemma BreakingOutAndShuttingDown(m: Limiter, flag: Flag)
    ensures var m' := BreakOutSection(m, flag);
            && m'.broken == m.broken + {flag} && m'.wait.waiting == m.wait.waiting
            && m'.wait.asleep == (if flag in m.broken then m.wait.asleep else {})
            && m'.count == m.count && m'.granted == m.granted && m'.shutdown == m.shutdown
    ensures ShutdownSection(m) == m.(shutdown := true, wait := CondVar(m.wait.waiting, {}))
  {
  }

  /** What is given back is accepted exactly when that much is granted; all are woken exactly when something is left. */
  lemma GivingBackExactlyWhen(m: Limiter, amount: nat)
    requires amount > 0
    ensures var m' := GiveBackSection(m, amount);
            && (MayGiveBack(m, amount) <==> amount <= m.granted)
            && (amount > m.granted ==> m' == m)
            && (amount <= m.granted ==>
                  && m'.granted + amount == m.granted && m'.count == m.count
                  && m'.wait.asleep == if m.granted - amount < m.count then {} else m.wait.asleep)
  {
  }

  /**
   A request goes on waiting exactly while there is too little left for it but not too little in
   total, no shutdown, no break-out, and its time is not over; a deletion exactly while something
   is granted.
   */
  lemma WaitsGoOnExactlyWhile(s: System, step: Step)
    requires Enabled(s, step)
    ensures step.RequestCalled? || step.RequestWakes? ==>
              var r := if step.RequestCalled? then step.r else s.waiters[step.t].r;
              var late := step.RequestWakes? && step.timedOut;
              (step.t in Next(s, step).waiters <==>
                 && !s.m.shutdown && r.flag !in s.m.broken && !late
                 && 0 < r.min && s.m.granted + r.min > s.m.count && s.m.count >= r.min)
    ensures step.DeleteWaits? || step.DeleterWakes? ==> (step.t in Next(s, step).waiters <==> s.m.granted > 0)
  {
  }

  // ---- nobody sleeps in vain ----

  /** A sleeper's own reason to sleep, as it is now. */
  ghost predicate HasReason(m: Limiter, w: Waiter) {
    match w
    case Requesting(r) => MustWait(m, r)
    case Deleting => m.shutdown && MustAwaitReturns(m)
  }

  ghost predicate SleepersOk(s: System) {
    && s.m.wait.waiting == s.waiters.Keys
    && (forall t | t in s.waiters && s.waiters[t].Deleting? :: s.m.shutdown)
    && (forall t | t in s.m.wait.asleep :: t in s.waiters && HasReason(s.m, s.waiters[t]))
  }

  lemma RequestKeepsSleepers(s: System, t: Tid, r: Request, m: Limiter, waitError: bool)
    requires SleepersOk(s) && (t !in s.waiters || s.waiters[t].Requesting?)
    requires m == Awake(s.m, t)
    ensures SleepersOk(RequestEnds(s, t, r, RequestSection(m, t, r, waitError)))
  {
  }

  lemma DeleteKeepsSleepers(s: System, t: Tid)
    requires SleepersOk(s) && s.m.shutdown
    ensures SleepersOk(DeleteEnds(s, Awake(s.m, t), t))
  {
  }

  lemma GiveBackKeepsSleepers(s: System, amount: nat)
    requires SleepersOk(s) && s.m.count >= 1
    ensures SleepersOk(s.(m := GiveBackSection(s.m, amount)))
  {
  }

  lemma StepKeepsSleepers(s: System, step: Step)
    requires SleepersOk(s) && BooksOk(s)
    ensures SleepersOk(Next(s, step))
  {
    if Enabled(s, step) {
      match step
      case RequestCalled(t, r) =>
        LeaveCounts(s.m.wait, t);
        RequestKeepsSleepers(s, t, r, Awake(s.m, t), false);
      case RequestWakes(t, timedOut) => RequestKeepsSleepers(s, t, s.waiters[t].r, Awake(s.m, t), timedOut);
      case GiveBackCalled(amount) => GiveBackKeepsSleepers(s, amount);
      case SetCountCalled(_) =>
      case BreakOutCalled(_) =>
      case ShutdownCalled =>
      case DeleteWaits(t) =>
        LeaveCounts(s.m.wait, t);
        DeleteKeepsSleepers(s, t);
      case DeleterWakes(t) => DeleteKeepsSleepers(s, t);
    }
  }

  ghost predicate Inv(s: System) {
    BooksOk(s) && SleepersOk(s)
  }

  lemma InvHolds(count: nat, schedule: seq<Step>)
    requires 1 <= count <= MAX_U64
    ensures Inv(Reach(count, schedule))
  {
    forall s, step | Inv(s) ensures Inv(Next(s, step)) {
      StepKeepsBooks(s, step);
      StepKeepsSleepers(s, step);
    }
    Runs.InvariantRule(Next, Inv, Init(count), schedule);
  }

  /** In every run, what is granted is the sum of all grants less the sum of all that was given back. */
  lemma NothingIsLostOrInvented(count: nat, schedule: seq<Step>)
    requires 1 <= count <= MAX_U64
    ensures var s := Reach(count, schedule);
            && s.m.granted + Total(s.givenBack) == TotalGranted(s.grants)
            && (forall g | g in s.grants :: 0 < g.amount && g.r.min <= g.amount <= g.r.max)
            && s.m.granted <= MAX_U64
  {
    InvHolds(count, schedule);
  }

  /**
   Nobody is stranded in any run: a requester that sleeps has to wait as things are, so there
   is too little left for it but not too little in total, no shutdown and no break-out; a
   deleter that sleeps waits for resources that are still granted.
   */
  lemma NobodyIsStranded(count: nat, schedule: seq<Step>, t: Tid)
    requires 1 <= count <= MAX_U64 && t in Reach(count, schedule).m.wait.asleep
    ensures var s := Reach(count, schedule);
            t in s.waiters &&
            match s.waiters[t]
            case Requesting(r) =>
              !s.m.shutdown && r.flag !in s.m.broken && s.m.Left() < r.min <= s.m.count
            case Deleting => s.m.shutdown && s.m.granted > 0
  {
    InvHolds(count, schedule);
  }

  /** The overdraft grows only in a step that lowers the count, and a step that grants leaves none. */
  lemma OnlySetCountOverdraws(s: System, step: Step)
    requires Inv(s)
    ensures var m := Next(s, step).m;
            && (m.Overdraft() > s.m.Overdraft() ==> step.SetCountCalled? && m.count < s.m.count)
            && (m.granted > s.m.granted ==> m.granted <= m.count == s.m.count)
  {
    if Enabled(s, step) {
      match step
      case RequestCalled(t, r) =>
        if RequestSection(s.m, t, r, false).Grants? { GrantIsMaximal(s.m, t, r, false); }
      case RequestWakes(t, timedOut) =>
        var m, r := Awake(s.m, t), s.waiters[t].r;
        if RequestSection(m, t, r, timedOut).Grants? { GrantIsMaximal(m, t, r, timedOut); }
      case _ =>
    }
  }

  lemma ShutdownStepOnlyTakesBack(s: System, step: Step)
    requires Inv(s) && s.m.shutdown
    ensures var s' := Next(s, step);
            s'.m.shutdown && s'.grants == s.grants && s'.m.granted <= s.m.granted && s'.m.count == s.m.count
  {
  }

  /** After a shutdown nothing is granted any more, nobody asks for more, and the count stays. */
  lemma {:induction false} ShutdownOnlyTakesBack(s: System, schedule: seq<Step>)
    requires Inv(s) && s.m.shutdown
    ensures var s' := Runs.After(Next, s, schedule);
            s'.m.shutdown && s'.grants == s.grants && s'.m.granted <= s.m.granted && s'.m.count == s.m.count
    decreases |schedule|
  {
    if schedule != [] {
      StepKeepsBooks(s, schedule[0]);
      StepKeepsSleepers(s, schedule[0]);
      ShutdownStepOnlyTakesBack(s, schedule[0]);
      ShutdownOnlyTakesBack(Next(s, schedule[0]), schedule[1..]);
    }
  }

  /** A deleter that stops waiting finds everything given back, and that stays so. */
  lemma DeleterLeavesNothingGranted(s: System, t: Tid, schedule: seq<Step>)
    requires Inv(s) && t in s.waiters && s.waiters[t].Deleting? && s.m.shutdown
    requires t !in Next(s, DeleterWakes(t)).waiters
    ensures Runs.After(Next, s, [DeleterWakes(t)] + schedule).m.granted == 0
  {
    var first := [DeleterWakes(t)];
    StepKeepsBooks(s, first[0]);
    StepKeepsSleepers(s, first[0]);
    assert (first + schedule)[1..] == schedule;
    ShutdownOnlyTakesBack(Next(s, first[0]), schedule);
  }

  // ---- whole calls ----

  /** A request over all its waits; it still sleeps when there is no further wake-up. */
  function RequestCall(m: Limiter, t: Tid, r: Request, waitError: bool, wakes: seq<Wake<Limiter>>): Outcome
    decreases |wakes|
  {
    var outcome := RequestSection(m, t, r, waitError);
    if outcome.Sleeps? && wakes != [] then
      RequestCall(Awake(wakes[0].found, t), t, r, wakes[0].timedOut, wakes[1..])
    else outcome
  }

  /** The wait of delete_resource_usage_limiter: what it leaves, and whether it is over. */
  function AwaitReturnsCall(m: Limiter, t: Tid, wakes: seq<Limiter>): (Limiter, bool)
    decreases |wakes|
  {
    if !MustAwaitReturns(m) then (m, true)
    else if wakes == [] then (m.(wait := m.wait.Sleep(t)), false)
    else AwaitReturnsCall(Awake(wakes[0], t), t, wakes[1..])
  }

  /** The resources that are not granted do not suffice, but all of them would. */
  predicate TooLittleNow(m: Limiter, r: Request) {
    !m.shutdown && r.flag !in m.broken && 0 < r.min && m.granted + r.min > m.count && m.count >= r.min
  }

  /** A request is decided by the first state that it finds in which it need not wait, or in which its time is over. */
  lemma {:induction false} RequestCallIsDecided(m: Limiter, t: Tid, r: Request, late: bool, wakes: seq<Wake<Limiter>>)
    returns (i: nat)
    requires r.min <= r.max && r.max != 0
    ensures i <= |wakes|
    ensures forall k | 0 <= k < i ::
              TooLittleNow(Look(m, wakes, k), r) && !Late(wakes, k) && (k == 0 ==> !late)
    ensures var l, over := Look(m, wakes, i), Late(wakes, i) || (i == 0 && late);
            var outcome := RequestCall(m, t, r, late, wakes);
            && (outcome.Sleeps? <==> TooLittleNow(l, r) && !over)
            && (outcome.Sleeps? ==> i == |wakes|)
            && (outcome.Grants? ==>
                  && outcome.m.granted == l.granted + outcome.amount
                  && (outcome.amount > 0 ==> Fits(l, r, outcome.amount))
                  && (forall x: nat | Fits(l, r, x) && !l.shutdown && r.flag !in l.broken :: x <= outcome.amount)
                  && (l.shutdown || r.flag in l.broken ==> outcome.amount == 0))
    decreases |wakes|
  {
    i := 0;
    var outcome := RequestSection(m, t, r, late);
    if outcome.Sleeps? && wakes != [] {
      var woken := Awake(wakes[0].found, t);
      var j := RequestCallIsDecided(woken, t, r, wakes[0].timedOut, wakes[1..]);
      i := j + 1;
      forall k | 0 <= k < i
        ensures TooLittleNow(Look(m, wakes, k), r) && !Late(wakes, k) && (k == 0 ==> !late)
      {
        if k > 0 { assert TooLittleNow(Look(woken, wakes[1..], k - 1), r); }
      }
    } else if outcome.Grants? {
      GrantIsMaximal(m, t, r, late);
    }
  }

  /** The deletion's wait ends with the first state that it finds in which nothing is granted. */
  lemma {:induction false} AwaitReturnsCallIsDecided(m: Limiter, t: Tid, wakes: seq<Limiter>) returns (i: nat)
    ensures i <= |wakes| && forall k | 0 <= k < i :: Found(m, wakes, k).granted > 0
    ensures var (m', over) := AwaitReturnsCall(m, t, wakes);
            && (over <==> Found(m, wakes, i).granted == 0)
            && (!over ==> i == |wakes|)
            && m'.granted == Found(m, wakes, i).granted
            && (t in m'.wait.waiting <==> !over || (i == 0 && t in m.wait.waiting))
            && (!over ==> t in m'.wait.asleep)
    decreases |wakes|
  {
    i := 0;
    if m.granted > 0 && wakes != [] {
      var j := AwaitReturnsCallIsDecided(Awake(wakes[0], t), t, wakes[1..]);
      i := j + 1;
      forall k | 0 <= k < i ensures Found(m, wakes, k).granted > 0 {
        if k > 0 { assert Found(Awake(wakes[0], t), wakes[1..], k - 1).granted > 0; }
      }
    }
  }

  /** The structure resource_usage_limiter; its methods are the functions of its source file. */
  class Monitor {
    var resourceCount: nat
    var resourceGrantedCount: nat
    var shutdownRequested: bool
    var limiterWait: CondVar
    var brokenOut: set<Flag>

    ghost function View(): Limiter
      reads this
    {
      Limiter(resourceCount, resourceGrantedCount, shutdownRequested, limiterWait, brokenOut)
    }

    constructor (resourceCount: nat)
      ensures View() == Limiter(resourceCount, 0, false, NOBODY, {})
    {
      this.resourceCount := resourceCount;
      resourceGrantedCount, shutdownRequested := 0, false;
      limiterWait, brokenOut := NOBODY, {};
    }

    method Resume(m: Limiter)
      modifies this
      ensures View() == m
    {
      resourceCount, resourceGrantedCount, shutdownRequested := m.count, m.granted, m.shutdown;
      limiterWait, brokenOut := m.wait, m.broken;
    }

    function GetResourcesLeft(): (left: nat)
      reads this
      ensures resourceGrantedCount <= resourceCount ==> left + resourceGrantedCount == resourceCount
      ensures resourceGrantedCount > resourceCount ==> left == 0
    {
      if resourceCount >= resourceGrantedCount then resourceCount - resourceGrantedCount else 0
    }

    /** request_resources_from_resource_usage_limiter after its loop. */
    method RequestNow(r: Request) returns (res: nat)
      requires ValidRequest(r) && resourceCount <= MAX_U64 && resourceGrantedCount <= MAX_U64
      modifies this
      ensures Grants(View(), res) == RequestPassed(old(View()), r)
    {
      res := 0;
      if !shutdownRequested && r.flag !in brokenOut {
        var resourcesLeft := GetResourcesLeft();
        if resourcesLeft >= r.min {
          res := Max(Min(resourcesLeft, r.max), r.min);
          resourceGrantedCount := AddU64(resourceGrantedCount, res);
        }
      }
    }

    /** All values are 64 bits wide; then the addition to the granted count does not overflow. */
    method Request(t: Tid, r: Request, wakes: seq<Wake<Limiter>>) returns (res: nat, sleeps: bool)
      requires resourceCount <= MAX_U64 && resourceGrantedCount <= MAX_U64
      requires forall w | w in wakes :: w.found.count <= MAX_U64 && w.found.granted <= MAX_U64
      modifies this
      ensures r.min > r.max || r.max == 0 ==> View() == old(View()) && res == 0 && !sleeps
      ensures r.min <= r.max && r.max != 0 ==>
                RequestCall(old(View()), t, r, false, wakes) == if sleeps then Sleeps(View()) else Grants(View(), res)
    {
      res, sleeps := 0, false;
      if r.min > r.max { return; }
      if 0 == r.max { return; }
      var waitError, k := false, 0;
      while
        && !shutdownRequested && r.flag !in brokenOut
        && GetResourcesLeft() < r.min && r.min <= resourceCount
        && !waitError
        invariant k <= |wakes| && resourceCount <= MAX_U64 && resourceGrantedCount <= MAX_U64
        invariant RequestCall(View(), t, r, waitError, wakes[k..]) == RequestCall(old(View()), t, r, false, wakes)
        decreases |wakes| - k
      {
        limiterWait := limiterWait.Sleep(t);
        if k == |wakes| { return 0, true; }
        assert wakes[k] in wakes;
        Resume(wakes[k].found);
        limiterWait := limiterWait.Leave(t);
        waitError := wakes[k].timedOut;
        k := k + 1;
      }
      res := RequestNow(r);
    }

    method GiveBack(grantedResourceCount: nat) returns (ok: bool)
      modifies this
      ensures ok == (grantedResourceCount == 0 || MayGiveBack(old(View()), grantedResourceCount))
      ensures View() == if grantedResourceCount == 0 then old(View())
                        else GiveBackSection(old(View()), grantedResourceCount)
    {
      if grantedResourceCount == 0 { return true; }
      ok := false;
      if resourceGrantedCount >= grantedResourceCount {
        ok := true;
        resourceGrantedCount := resourceGrantedCount - grantedResourceCount;
        if GetResourcesLeft() > 0 { limiterWait := limiterWait.Broadcast(); }
      }
    }

    method SetResourceCount(newResourceCount: nat) returns (ok: bool)
      modifies this
      ensures ok == MaySetCount(old(View()), newResourceCount)
      ensures View() == SetCountSection(old(View()), newResourceCount)
    {
      if newResourceCount == 0 { return false; }
      ok := false;
      if !shutdownRequested {
        ok := true;
        if resourceCount != newResourceCount {
          limiterWait := limiterWait.Broadcast();
          resourceCount := newResourceCount;
        }
      }
    }

    method BreakOut(flag: Flag)
      modifies this
      ensures View() == BreakOutSection(old(View()), flag)
    {
      if flag !in brokenOut {
        brokenOut := brokenOut + {flag};
        limiterWait := limiterWait.Broadcast();
      }
    }

    method Shutdown()
      modifies this
      ensures View() == ShutdownSection(old(View()))
    {
      shutdownRequested := true;
      limiterWait := limiterWait.Broadcast();
    }

    /** delete_resource_usage_limiter, asked to wait for the resources, after its shutdown. */
    method AwaitReturns(t: Tid, wakes: seq<Limiter>) returns (over: bool)
      modifies this
      ensures (View(), over) == AwaitReturnsCall(old(View()), t, wakes)
    {
      var k := 0;
      while resourceGrantedCount > 0
        invariant k <= |wakes|
        invariant AwaitReturnsCall(View(), t, wakes[k..]) == AwaitReturnsCall(old(View()), t, wakes)
        decreases |wakes| - k
      {
        limiterWait := limiterWait.Sleep(t);
        if k == |wakes| { return false; }
        Resume(wakes[k]);
        limiterWait := limiterWait.Leave(t);
        k := k + 1;
      }
      return true;
    }
  }

  /** new_resource_usage_limiter, which refuses a count of 0. */
  method NewResourceUsageLimiter(resourceCount: nat) returns (m: Monitor?)
    ensures m == null <==> resourceCount == 0
    ensures m != null ==> fresh(m) && m.View() == Init(resourceCount).m
  {
    if resourceCount == 0 { return null; }
    m := new Monitor(resourceCount);
  }
}
