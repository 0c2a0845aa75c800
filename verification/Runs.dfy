/** What holds along runs. */
module Runs {
  /** What every step keeps holds from then on. */
  lemma {:induction false} Carries<S>(states: seq<S>, p: S -> bool, i: nat, k: nat)
    requires i <= k < |states| && p(states[i])
    requires forall j :: i <= j < k && p(states[j]) ==> p(states[j + 1])
    ensures p(states[k])
    decreases k
  {
    if i < k {
      Carries(states, p, i, k - 1);
      assert p(states[k - 1]) ==> p(states[k - 1 + 1]);
    }
  }

  /** So many steps lead from s to t. */
  ghost predicate InSteps<S(!new)>(step: (S, S) -> bool, s: S, t: S, n: nat)
    decreases n
  {
    if n == 0 then s == t else exists u: S :: step(s, u) && InSteps(step, u, t, n - 1)
  }

  lemma OneStep<S(!new)>(step: (S, S) -> bool, s: S, t: S)
    requires step(s, t)
    ensures InSteps(step, s, t, 1)
  {
    assert InSteps(step, t, t, 0);
  }

  lemma {:induction false} StepsCompose<S(!new)>(step: (S, S) -> bool, s: S, u: S, t: S, m: nat, n: nat)
    requires InSteps(step, s, u, m) && InSteps(step, u, t, n)
    ensures InSteps(step, s, t, m + n)
    decreases m
  {
    if m > 0 {
      var v :| step(s, v) && InSteps(step, v, u, m - 1);
      StepsCompose(step, v, u, t, m - 1, n);
    }
  }
}
