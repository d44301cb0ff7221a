/** Finite runs of a step relation, and the one induction over them that every
    whole-run statement uses. */
module Reachability {

  ghost predicate StepAt<T(!new)>(step: (T, T) -> bool, run: seq<T>, i: nat)
    requires i + 1 < |run|
  {
    step(run[i], run[i + 1])
  }

  ghost predicate IsRun<T(!new)>(step: (T, T) -> bool, run: seq<T>) {
    run != [] && forall i: nat {:trigger StepAt(step, run, i)} | i + 1 < |run| :: StepAt(step, run, i)
  }

  /** Some finite run leads from a to b. */
  ghost predicate Reaches<T(!new)>(step: (T, T) -> bool, a: T, b: T) {
    exists run: seq<T> :: IsRun(step, run) && run[0] == a && run[|run| - 1] == b
  }

  lemma Stays<T(!new)>(step: (T, T) -> bool, a: T)
    ensures Reaches(step, a, a)
  {
    assert IsRun(step, [a]);
  }

  lemma Extends<T(!new)>(step: (T, T) -> bool, a: T, b: T, c: T)
    requires Reaches(step, a, b) && step(b, c)
    ensures Reaches(step, a, c)
  {
    var run: seq<T> :| IsRun(step, run) && run[0] == a && run[|run| - 1] == b;
    var longer := run + [c];
    forall i: nat | i + 1 < |longer| ensures StepAt(step, longer, i) {
      if i + 1 < |run| { assert StepAt(step, run, i); }
    }
    assert longer[0] == a && longer[|longer| - 1] == c;
  }

  /** Runs compose. */
  lemma Joins<T(!new)>(step: (T, T) -> bool, a: T, b: T, c: T)
    requires Reaches(step, a, b) && Reaches(step, b, c)
    ensures Reaches(step, a, c)
  {
    var reached := (x: T) => Reaches(step, a, x);
    forall x, y | reached(x) && step(x, y) ensures reached(y) { Extends(step, a, x, y); }
    Invariance(step, reached, b, c);
  }

  lemma {:induction false} KeptAt<T(!new)>(step: (T, T) -> bool, kept: T -> bool, run: seq<T>, i: nat)
    requires IsRun(step, run) && kept(run[0]) && i < |run|
    requires forall x, y | kept(x) && step(x, y) :: kept(y)
    ensures kept(run[i])
  {
    if i > 0 {
      KeptAt(step, kept, run, i - 1);
      assert StepAt(step, run, i - 1);
    }
  }

  /** What holds at the start and survives every step holds wherever a run leads. */
  lemma Invariance<T(!new)>(step: (T, T) -> bool, kept: T -> bool, a: T, b: T)
    requires Reaches(step, a, b) && kept(a)
    requires forall x, y | kept(x) && step(x, y) :: kept(y)
    ensures kept(b)
  {
    var run: seq<T> :| IsRun(step, run) && run[0] == a && run[|run| - 1] == b;
    KeptAt(step, kept, run, |run| - 1);
  }
}
