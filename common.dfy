/** Small value types shared by every module of the model. */
module Common {

  /** Python's `None`-or-value. */
  datatype Option<+T> = None | Some(value: T)

  /**
   * What a call into a collaborator did: it returned a value (only its
   * truthiness matters to the callers modelled here) or it raised.
   * Oracles that script an external system (a send primitive, a handler,
   * a notifier) are functions from the 1-based call number to an Outcome.
   */
  datatype Outcome = Returned(truthy: bool) | Raised {
    predicate Succeeded() { this == Returned(true) }
  }

  /** n copies of x: the log of n identical calls. */
  function Repeat<T>(x: T, n: nat): (s: seq<T>)
    ensures |s| == n && forall i :: 0 <= i < n ==> s[i] == x
  {
    if n == 0 then [] else Repeat(x, n - 1) + [x]
  }

  /** Sum of a sequence of naturals, used for total sleep times. */
  function Sum(s: seq<nat>): nat
  {
    if s == [] then 0 else Sum(s[..|s| - 1]) + s[|s| - 1]
  }

  /**
   * How many attempts a retry loop makes from attempt `attempt` on, when it
   * tries up to `budget` times and stops at the first attempt whose call
   * returns true; a false result or a raise is a failed attempt.
   */
  function AttemptsFrom(script: nat -> Outcome, attempt: nat, budget: int): nat
    requires attempt >= 1
    decreases budget - attempt
  {
    if attempt > budget then 0
    else if script(attempt).Succeeded() then 1
    else 1 + AttemptsFrom(script, attempt + 1, budget)
  }

  function Attempts(script: nat -> Outcome, budget: int): nat
  {
    AttemptsFrom(script, 1, budget)
  }

  /** Some attempt within the retry budget succeeds. */
  predicate SucceedsWithin(script: nat -> Outcome, budget: int)
  {
    exists k :: 1 <= k <= budget && script(k).Succeeded()
  }

  lemma {:induction false} AttemptsFromSpec(script: nat -> Outcome, attempt: nat, budget: int)
    requires attempt >= 1
    ensures var c := AttemptsFrom(script, attempt, budget);
      (attempt <= budget ==> 1 <= c <= budget - attempt + 1) &&
      (attempt > budget ==> c == 0) &&
      (forall k :: attempt <= k < attempt + c - 1 ==> !script(k).Succeeded()) &&
      ((exists k :: attempt <= k <= budget && script(k).Succeeded()) <==>
         c >= 1 && script(attempt + c - 1).Succeeded()) &&
      (c >= 1 && !script(attempt + c - 1).Succeeded() ==> attempt + c - 1 == budget)
    decreases budget - attempt
  {
    if attempt <= budget && !script(attempt).Succeeded() {
      AttemptsFromSpec(script, attempt + 1, budget);
    }
  }

  /**
   * A retry loop makes at most `budget` attempts; it stops at the first
   * success, which is its last attempt; it succeeds exactly when some
   * attempt within the budget does; and when it fails it has used the
   * whole budget.
   */
  lemma AttemptsSpec(script: nat -> Outcome, budget: int)
    ensures var c := Attempts(script, budget);
      (budget >= 1 ==> 1 <= c <= budget) && (budget < 1 ==> c == 0) &&
      (forall k :: 1 <= k < c ==> !script(k).Succeeded()) &&
      (SucceedsWithin(script, budget) <==> c >= 1 && script(c).Succeeded()) &&
      (!SucceedsWithin(script, budget) ==> c == if budget < 1 then 0 else budget)
  {
    AttemptsFromSpec(script, 1, budget);
  }
}
