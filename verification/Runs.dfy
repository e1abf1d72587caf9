/** Runs of a transition system, and induction over them. */
module Runs {

  ghost predicate IsRun<S(!new)>(run: seq<S>, start: S -> bool, next: (S, S) -> bool) {
    && run != []
    && start(run[0])
    && (forall i :: 0 < i < |run| ==> next(run[i - 1], run[i]))
  }

  ghost predicate Reachable<S(!new)>(s: S, start: S -> bool, next: (S, S) -> bool) {
    exists run :: IsRun(run, start, next) && run[|run| - 1] == s
  }

  lemma StartReachable<S(!new)>(s: S, start: S -> bool, next: (S, S) -> bool)
    requires start(s)
    ensures Reachable(s, start, next)
  {
    assert IsRun([s], start, next);
  }

  lemma StepReachable<S(!new)>(s: S, s': S, start: S -> bool, next: (S, S) -> bool)
    requires Reachable(s, start, next) && next(s, s')
    ensures Reachable(s', start, next)
  {
    var run :| IsRun(run, start, next) && run[|run| - 1] == s;
    assert IsRun(run + [s'], start, next);
  }

  ghost predicate Inductive<S(!new)>(start: S -> bool, next: (S, S) -> bool, inv: S -> bool) {
    && (forall s :: start(s) ==> inv(s))
    && (forall s, s' :: inv(s) && next(s, s') ==> inv(s'))
  }

  lemma {:induction false} Invariance<S(!new)>(run: seq<S>, start: S -> bool, next: (S, S) -> bool, inv: S -> bool,
                                        i: nat)
    requires IsRun(run, start, next) && Inductive(start, next, inv) && i < |run|
    ensures inv(run[i])
  {
    if i > 0 {
      Invariance(run, start, next, inv, i - 1);
      assert next(run[i - 1], run[i]);
    }
  }

  /** A relation between an earlier and a later state. */
  ghost predicate Extends<S(!new)>(next: (S, S) -> bool, inv: S -> bool, rel: (S, S) -> bool) {
    && (forall s :: inv(s) ==> rel(s, s))
    && (forall a, s, s' :: inv(a) && inv(s) && rel(a, s) && next(s, s') ==> rel(a, s'))
  }

  ghost predicate EachStep<S(!new)>(next: (S, S) -> bool, inv: S -> bool, rel: (S, S) -> bool) {
    forall s, s' :: inv(s) && next(s, s') ==> rel(s, s')
  }

  ghost predicate Preorder<S(!new)>(rel: (S, S) -> bool) {
    (forall s :: rel(s, s)) && (forall a, s, s' :: rel(a, s) && rel(s, s') ==> rel(a, s'))
  }

  /** A preorder that every step keeps. */
  lemma ExtendsByOrder<S(!new)>(next: (S, S) -> bool, inv: S -> bool, rel: (S, S) -> bool)
    requires EachStep(next, inv, rel) && Preorder(rel)
    ensures Extends(next, inv, rel)
  {}

  lemma {:induction false} Progress<S(!new)>(run: seq<S>, start: S -> bool, next: (S, S) -> bool, inv: S -> bool,
                                             rel: (S, S) -> bool, i: nat, j: nat)
    requires IsRun(run, start, next) && Inductive(start, next, inv) && Extends(next, inv, rel)
    requires i <= j < |run|
    ensures rel(run[i], run[j])
  {
    Invariance(run, start, next, inv, i);
    if i < j {
      Progress(run, start, next, inv, rel, i, j - 1);
      Invariance(run, start, next, inv, j - 1);
      assert next(run[j - 1], run[j]);
    }
  }

  /** What holds once, and is kept by every step, holds from then on. */
  ghost predicate Kept<S(!new)>(next: (S, S) -> bool, inv: S -> bool, stay: S -> bool) {
    forall s, s' :: inv(s) && stay(s) && next(s, s') ==> stay(s')
  }

  lemma {:induction false} Remains<S(!new)>(run: seq<S>, start: S -> bool, next: (S, S) -> bool, inv: S -> bool,
                                            stay: S -> bool, i: nat, j: nat)
    requires IsRun(run, start, next) && Inductive(start, next, inv) && Kept(next, inv, stay)
    requires i <= j < |run| && stay(run[i])
    ensures stay(run[j])
  {
    if i < j {
      Remains(run, start, next, inv, stay, i, j - 1);
      Invariance(run, start, next, inv, j - 1);
      assert next(run[j - 1], run[j]);
    }
  }

  /** As long as it has not left by `out`, a run stays. */
  ghost predicate LeavesBy<S(!new)>(next: (S, S) -> bool, inv: S -> bool, stay: S -> bool, out: (S, S) -> bool) {
    forall s, s' :: inv(s) && stay(s) && next(s, s') ==> stay(s') || out(s, s')
  }

  /** A run that stayed at `i` and does not at `j` has left in between. */
  lemma {:induction false} Leaving<S(!new)>(run: seq<S>, start: S -> bool, next: (S, S) -> bool, inv: S -> bool,
                                            stay: S -> bool, out: (S, S) -> bool, i: nat, j: nat) returns (k: nat)
    requires IsRun(run, start, next) && Inductive(start, next, inv) && LeavesBy(next, inv, stay, out)
    requires i <= j < |run| && stay(run[i]) && !stay(run[j])
    ensures i <= k < j && stay(run[k]) && out(run[k], run[k + 1])
    decreases j - i
  {
    Invariance(run, start, next, inv, i);
    assert next(run[i + 1 - 1], run[i + 1]);
    if stay(run[i + 1]) {
      k := Leaving(run, start, next, inv, stay, out, i + 1, j);
    } else {
      k := i;
    }
  }
}
