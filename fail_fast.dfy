// The early-return pattern every workflow and collector follows: a fixed
// sequence of steps, each of which either succeeds or yields an error
// message, run until the first error.
module FailFast {
  import opened Wrappers
  import Model

  /** The error of an `(T, error)` call, if it failed. */
  function ErrorOf<T>(o: Outcome<T>): (e: Option<string>)
    ensures e.None? <==> o.Success?
    ensures o.Failure? ==> e == Some(o.error)
  {
    match o
    case Success(_) => None
    case Failure(msg) => Some(msg)
  }

  /** The message of the first step that failed, scanning in order. */
  function FirstError(steps: seq<Option<string>>): (e: Option<string>)
    ensures e.None? <==> forall i :: 0 <= i < |steps| ==> steps[i].None?
    ensures e.Some? ==> e in steps
  {
    if |steps| == 0 then None
    else if steps[0].Some? then steps[0]
    else
      assert forall i :: 0 < i < |steps| ==> steps[1..][i - 1] == steps[i];
      FirstError(steps[1..])
  }

  /** How many steps are run: up to and including the first that fails. */
  function StepsRun(steps: seq<Option<string>>): (n: nat)
    ensures n <= |steps|
    ensures |steps| > 0 ==> n > 0
  {
    if |steps| == 0 then 0
    else if steps[0].Some? then 1
    else
      assert forall i :: 0 < i < |steps| ==> steps[1..][i - 1] == steps[i];
      1 + StepsRun(steps[1..])
  }

  /** How many steps succeed before the first failure. */
  function Passed(steps: seq<Option<string>>): (n: nat)
    ensures n <= |steps|
  {
    if FirstError(steps).None? then |steps| else StepsRun(steps) - 1
  }

  /** Running a + b fails where a fails, or else where b fails. */
  lemma {:induction false} FirstErrorAppend(a: seq<Option<string>>, b: seq<Option<string>>)
    ensures FirstError(a + b) == if FirstError(a).Some? then FirstError(a) else FirstError(b)
  {
    if |a| > 0 {
      assert (a + b)[1..] == a[1..] + b;
      FirstErrorAppend(a[1..], b);
    } else {
      assert a + b == b;
    }
  }

  /** Steps beyond the first failure are never run, so they cannot change its message. */
  lemma {:induction false} FirstErrorPrefix(steps: seq<Option<string>>, n: nat)
    requires n <= |steps|
    requires FirstError(steps[..n]).Some?
    ensures FirstError(steps) == FirstError(steps[..n])
  {
    assert steps == steps[..n] + steps[n..];
    FirstErrorAppend(steps[..n], steps[n..]);
  }

  /** A sequence of constructor calls, each returning early on error. */
  method RunSteps(steps: seq<Option<string>>) returns (err: Option<string>)
    ensures err == FirstError(steps)
  {
    for i := 0 to |steps|
      invariant FirstError(steps[..i]).None?
    {
      if steps[i].Some? {
        assert steps[..i + 1] == steps[..i] + [steps[i]];
        FirstErrorAppend(steps[..i], [steps[i]]);
        FirstErrorPrefix(steps, i + 1);
        return steps[i];
      }
      assert steps[..i + 1] == steps[..i] + [steps[i]];
      FirstErrorAppend(steps[..i], [steps[i]]);
    }
    assert steps[..|steps|] == steps;
    return None;
  }

  /** When step k is the first to fail, exactly k + 1 steps run and its message is the result. */
  lemma {:induction false} FailsAt(steps: seq<Option<string>>, k: nat)
    requires k < |steps| && steps[k].Some?
    requires forall i :: 0 <= i < k ==> steps[i].None?
    ensures StepsRun(steps) == k + 1
    ensures FirstError(steps) == steps[k]
    ensures Passed(steps) == k
  {
    if k > 0 {
      assert forall i :: 0 <= i < |steps| - 1 ==> steps[1..][i] == steps[i + 1];
      FailsAt(steps[1..], k - 1);
    }
  }

  /** When no step fails, every step runs and there is no error. */
  lemma {:induction false} AllSucceed(steps: seq<Option<string>>)
    requires forall i :: 0 <= i < |steps| ==> steps[i].None?
    ensures StepsRun(steps) == |steps|
    ensures FirstError(steps).None?
    ensures Passed(steps) == |steps|
  {
    if |steps| > 0 {
      assert forall i :: 0 <= i < |steps| - 1 ==> steps[1..][i] == steps[i + 1];
      AllSucceed(steps[1..]);
    }
  }

  /** The last step runs exactly when every step before it succeeded. */
  lemma {:induction false} LastStepRuns(steps: seq<Option<string>>)
    requires |steps| > 0
    ensures StepsRun(steps) == |steps| <==> FirstError(steps[..|steps| - 1]).None?
  {
    var n := |steps| - 1;
    var prefix := steps[..n];
    assert forall i :: 0 <= i < n ==> prefix[i] == steps[i];
    if FirstError(prefix).None? {
      assert forall i :: 0 <= i < n ==> steps[i].None?;
      if steps[n].Some? {
        FailsAt(steps, n);
      } else {
        AllSucceed(steps);
      }
    } else {
      var k := FirstFailing(prefix);
      FailsAt(steps, k);
    }
  }

  /** The steps counted by Passed all succeeded, and the one after them, if any, failed. */
  lemma PassedSucceeded(steps: seq<Option<string>>)
    ensures forall i :: 0 <= i < Passed(steps) ==> steps[i].None?
    ensures Passed(steps) < |steps| ==> steps[Passed(steps)].Some?
  {
    if FirstError(steps).Some? {
      var k := FirstFailing(steps);
      FailsAt(steps, k);
    }
  }

  /** The position of the first failing step, when some step fails. */
  lemma {:induction false} FirstFailing(steps: seq<Option<string>>) returns (k: nat)
    requires exists i :: 0 <= i < |steps| && steps[i].Some?
    ensures k < |steps| && steps[k].Some?
    ensures forall i :: 0 <= i < k ==> steps[i].None?
  {
    if steps[0].Some? {
      k := 0;
    } else {
      var i :| 0 <= i < |steps| && steps[i].Some?;
      assert steps[1..][i - 1] == steps[i];
      var k' := FirstFailing(steps[1..]);
      k := k' + 1;
      assert forall j :: 0 < j < k ==> steps[j] == steps[1..][j - 1];
    }
  }

  /** The steps every collector starts with: its client constructors, then the identity call. */
  function OpeningSteps(setup: seq<Option<string>>, identity: Model.IdentityService): (steps: seq<Option<string>>)
    ensures FirstError(steps).None? <==> FirstError(setup).None? && identity.accountInfo.Success?
  {
    FirstErrorAppend(setup, [ErrorOf(identity.accountInfo)]);
    setup + [ErrorOf(identity.accountInfo)]
  }

  /**
   * Runs a collector's opening steps: the account ID is known only when they
   * all succeed, and the error is the first one among them.
   */
  method Open(setup: seq<Option<string>>, identity: Model.IdentityService) returns (accountId: string, err: Option<string>)
    ensures err == FirstError(OpeningSteps(setup, identity))
    ensures err.None? <==> FirstError(setup).None? && identity.accountInfo.Success?
    ensures accountId == (if err.None? then identity.accountInfo.value.accountId else "")
  {
    FirstErrorAppend(setup, [ErrorOf(identity.accountInfo)]);
    err := RunSteps(setup);
    accountId := "";
    if err.None? {
      if identity.accountInfo.Failure? {
        FailsAt([ErrorOf(identity.accountInfo)], 0);
        err := Some(identity.accountInfo.error);
      } else {
        AllSucceed([ErrorOf(identity.accountInfo)]);
        accountId := identity.accountInfo.value.accountId;
      }
    }
  }
}
