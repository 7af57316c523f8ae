/**
 The stop-at-the-first-failure discipline shared by provisioning,
 decommissioning and the start/stop batch loops, defined once: a
 declarative description of what a fail-fast run over a script of steps
 looks like, an executable run, and the fact that the description fixes
 the run uniquely.
 */
module FailFast {
  import opened Types

  /** What a fail-fast run did: the steps it performed, in order, and the error it returned. */
  datatype Run<T> = Run(done: seq<T>, err: Error)

  /** `run` is the fail-fast run of `script` when the `k`-th step, performed on
      `script[k]`, reports `outcome(k, script[k])`: the steps performed are a
      prefix of the script, every performed step but the last succeeded, the
      error of a failing step is returned unchanged, and success means that
      every step of the script was performed and succeeded. */
  ghost predicate IsFailFastRun<T>(script: seq<T>, outcome: (nat, T) -> Error, run: Run<T>)
  {
    && run.done <= script
    && (forall k: nat | k + 1 < |run.done| :: outcome(k, run.done[k]) == Nil)
    && if run.err == Nil then
         run.done == script && forall k: nat | k < |run.done| :: outcome(k, run.done[k]) == Nil
       else
         |run.done| > 0 && run.err == outcome(|run.done| - 1, run.done[|run.done| - 1])
  }

  /** Performs `script[k..]` after the steps before `k` have all succeeded. */
  function ExecuteFrom<T>(script: seq<T>, outcome: (nat, T) -> Error, k: nat): (r: Run<T>)
    requires k <= |script|
    requires forall j: nat | j < k :: outcome(j, script[j]) == Nil
    ensures IsFailFastRun(script, outcome, r)
    ensures k <= |r.done|
    decreases |script| - k
  {
    if k == |script| then
      Run(script, Nil)
    else if outcome(k, script[k]) != Nil then
      Run(script[..k + 1], outcome(k, script[k]))
    else
      ExecuteFrom(script, outcome, k + 1)
  }

  /** Performs the steps of `script` in order until one fails. */
  function Execute<T>(script: seq<T>, outcome: (nat, T) -> Error): (r: Run<T>)
    ensures IsFailFastRun(script, outcome, r)
  {
    ExecuteFrom(script, outcome, 0)
  }

  /** The description determines the run: there is exactly one fail-fast run of a script. */
  lemma FailFastRunIsUnique<T>(script: seq<T>, outcome: (nat, T) -> Error, r1: Run<T>, r2: Run<T>)
    requires IsFailFastRun(script, outcome, r1)
    requires IsFailFastRun(script, outcome, r2)
    ensures r1 == r2
  {
    if |r1.done| < |r2.done| {
      StopsAtFailure(script, outcome, r1, r2.done);
      assert false;
    } else if |r2.done| < |r1.done| {
      StopsAtFailure(script, outcome, r2, r1.done);
      assert false;
    } else {
      assert r1.done == script[..|r1.done|] == r2.done;
    }
  }

  /** A fail-fast run that stops short of a longer prefix of its script stopped
      because its last step failed. */
  lemma StopsAtFailure<T>(script: seq<T>, outcome: (nat, T) -> Error, r: Run<T>, longer: seq<T>)
    requires IsFailFastRun(script, outcome, r)
    requires longer <= script && |r.done| < |longer|
    ensures |r.done| > 0 && outcome(|r.done| - 1, longer[|r.done| - 1]) != Nil
  {
    assert r.err != Nil;
    assert r.done[|r.done| - 1] == script[|r.done| - 1] == longer[|r.done| - 1];
  }

  /** A script whose step `n` is the first to fail has the fail-fast run that
      stops right after step `n` with that step's error. */
  lemma FailingStepEndsRun<T>(script: seq<T>, outcome: (nat, T) -> Error, n: nat)
    requires n < |script|
    requires forall k: nat | k < n :: outcome(k, script[k]) == Nil
    requires outcome(n, script[n]) != Nil
    ensures IsFailFastRun(script, outcome, Run(script[..n + 1], outcome(n, script[n])))
  {
    var done := script[..n + 1];
    forall k: nat | k + 1 < |done|
      ensures outcome(k, done[k]) == Nil
    {
      assert done[k] == script[k];
    }
  }

  /** A script whose steps all succeed has the fail-fast run that performs it whole. */
  lemma SucceedingStepsCompleteRun<T>(script: seq<T>, outcome: (nat, T) -> Error)
    requires forall k: nat | k < |script| :: outcome(k, script[k]) == Nil
    ensures IsFailFastRun(script, outcome, Run(script, Nil))
  {
  }

  /** Both directions: a run satisfies the description exactly when it is the executed run. */
  lemma FailFastRunIsExecute<T>(script: seq<T>, outcome: (nat, T) -> Error, r: Run<T>)
    ensures IsFailFastRun(script, outcome, r) <==> r == Execute(script, outcome)
  {
    if IsFailFastRun(script, outcome, r) {
      FailFastRunIsUnique(script, outcome, r, Execute(script, outcome));
    }
  }
}
