/**
 Runs of a step system. A schedule is any finite list of steps; a step that is not
 enabled leaves the state alone, so a fact about every schedule is a fact about
 every interleaving.
 */
module Runs {
  function After<S, T>(next: (S, T) -> S, s: S, schedule: seq<T>): S
    decreases |schedule|
  {
    if schedule == [] then s else After(next, next(s, schedule[0]), schedule[1..])
  }

  /** What every step keeps, every run keeps. */
  lemma {:induction false} InvariantRule<S(!new), T(!new)>(
      next: (S, T) -> S, inv: S -> bool, s: S, schedule: seq<T>)
    requires inv(s)
    requires forall u, step :: inv(u) ==> inv(next(u, step))
    ensures inv(After(next, s, schedule))
    decreases |schedule|
  {
    if schedule != [] {
      InvariantRule(next, inv, next(s, schedule[0]), schedule[1..]);
    }
  }

  /** Running two schedules one after the other. */
  lemma {:induction false} AfterConcat<S, T>(next: (S, T) -> S, s: S, first: seq<T>, second: seq<T>)
    ensures After(next, s, first + second) == After(next, After(next, s, first), second)
    decreases |first|
  {
    if first == [] {
      assert first + second == second;
    } else {
      assert (first + second)[1..] == first[1..] + second;
      AfterConcat(next, next(s, first[0]), first[1..], second);
    }
  }

  /** Short schedules, step by step. */
  lemma OneStep<S, T>(next: (S, T) -> S, s: S, schedule: seq<T>)
    requires schedule != []
    ensures After(next, s, schedule) == After(next, next(s, schedule[0]), schedule[1..])
  {
  }

  /** A schedule with one more step at its end. */
  lemma AfterAppend<S, T>(next: (S, T) -> S, s: S, schedule: seq<T>, step: T)
    ensures After(next, s, schedule + [step]) == next(After(next, s, schedule), step)
  {
    AfterConcat(next, s, schedule, [step]);
    var u := After(next, s, schedule);
    assert [step][1..] == [];
    assert After(next, u, [step]) == After(next, next(u, step), []);
  }

  /** A schedule with one more step at its beginning. */
  lemma AfterFirst<S, T>(next: (S, T) -> S, s: S, step: T, rest: seq<T>)
    ensures After(next, s, [step] + rest) == After(next, next(s, step), rest)
  {
    assert ([step] + rest)[1..] == rest;
  }
}
