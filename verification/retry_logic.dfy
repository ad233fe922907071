/** `createRetryLogic`: a retry object whose attempt counter lives as long
    as the object. `retry(operation, onRetry)` calls the operation until it
    succeeds, the counter reaches `maxAttempts`, or the counter already
    stood there. The operation is a parameter mapping the k-th invocation
    within one `retry` call to its outcome; waiting is recorded as a list of
    delays. */
module RetryLogic {
  import opened Wrappers
  import opened Arith

  datatype OpResult<T> = Ok(value: T) | Err(message: string)

  /** What `retry` throws: the operation's own error on the final failure,
      or the generic error when the counter was already at the cap. */
  datatype RetryError = OperationError(message: string) | MaxAttemptsExceeded

  const MaxAttemptsExceededMessage: string := "최대 재시도 횟수를 초과했습니다"

  /** The closure state of one retry object. */
  datatype RetryLogic = RetryLogic(maxAttempts: int, baseDelay: int, maxDelay: int, attempts: nat)

  /** `createRetryLogic(maxAttempts, baseDelay, maxDelay)`: a fresh object. */
  function CreateRetryLogic(maxAttempts: int, baseDelay: int, maxDelay: int): (r: RetryLogic)
    ensures r.attempts == 0
    ensures r.maxAttempts == maxAttempts && r.baseDelay == baseDelay && r.maxDelay == maxDelay
  {
    RetryLogic(maxAttempts, baseDelay, maxDelay, 0)
  }

  /** The defaults: 3 attempts, 1000 ms base, 5000 ms cap. */
  function DefaultRetryLogic(): (r: RetryLogic)
    ensures r.maxAttempts == 3 && r.baseDelay == 1000 && r.maxDelay == 5000 && r.attempts == 0
  {
    CreateRetryLogic(3, 1000, 5000)
  }

  /** One `onRetry(attempt, error)` call. */
  datatype RetryNotice = RetryNotice(attempt: int, message: string)

  /** Everything one `retry` call does: its outcome, the object afterwards,
      how many times it invoked the operation, the `onRetry` calls and the
      waits, in order. */
  datatype RetryRun<T> = RetryRun(
    result: Result<T, RetryError>,
    logic: RetryLogic,
    invocations: nat,
    notices: seq<RetryNotice>,
    delays: seq<int>)

  /** The wait after the failure that brought the counter to `attempt`:
      `min(baseDelay * 2^(attempt - 1), maxDelay)`. */
  function BackoffDelay(logic: RetryLogic, attempt: int): (d: int)
    requires attempt >= 1
    ensures d <= logic.maxDelay
  {
    Min(Doubled(logic.baseDelay, attempt - 1), logic.maxDelay)
  }

  /** The back-off is the capped product the source computes. */
  lemma BackoffDelayIsCappedProduct(logic: RetryLogic, attempt: int)
    requires attempt >= 1
    ensures BackoffDelay(logic, attempt) == Min(logic.baseDelay * Pow2(attempt - 1), logic.maxDelay)
  {
    DoubledIsProduct(logic.baseDelay, attempt - 1);
  }

  /** The rest of a `retry` call, `k` invocations in, with the counter at
      `logic.attempts`. This is the reference definition the loop in
      `Retry` is proved against. */
  function RunFrom<T>(logic: RetryLogic, op: nat -> OpResult<T>, k: nat, notify: bool): (r: RetryRun<T>)
    decreases logic.maxAttempts - logic.attempts
    ensures r.logic == logic.(attempts := r.logic.attempts)
    ensures r.logic.attempts >= logic.attempts && r.invocations >= k
  {
    if logic.attempts >= logic.maxAttempts then
      RetryRun(Failure(MaxAttemptsExceeded), logic, k, [], [])
    else
      match op(k)
      case Ok(v) => RetryRun(Success(v), logic, k + 1, [], [])
      case Err(e) =>
        var failed := logic.(attempts := logic.attempts + 1);
        if failed.attempts >= logic.maxAttempts then
          RetryRun(Failure(OperationError(e)), failed, k + 1, [], [])
        else
          var rest := RunFrom(failed, op, k + 1, notify);
          var notice := if notify then [RetryNotice(failed.attempts, e)] else [];
          rest.(notices := notice + rest.notices,
                delays := [BackoffDelay(logic, failed.attempts)] + rest.delays)
  }

  /** The counter over one `retry` call, `k` invocations in: it never goes
      past the cap, and every failed invocation and only those move it; all
      invocations but the last failed. */
  lemma {:induction false} RunFromCounter<T>(logic: RetryLogic, op: nat -> OpResult<T>, k: nat, notify: bool)
    decreases logic.maxAttempts - logic.attempts
    ensures var r := RunFrom(logic, op, k, notify);
      && (logic.attempts < logic.maxAttempts ==> r.logic.attempts <= logic.maxAttempts)
      && r.logic.attempts - logic.attempts == r.invocations - k - (if r.result.Success? then 1 else 0)
      && (forall i :: k <= i < r.invocations - 1 ==> op(i).Err?)
  {
    if logic.attempts < logic.maxAttempts && op(k).Err? && logic.attempts + 1 < logic.maxAttempts {
      RunFromCounter(logic.(attempts := logic.attempts + 1), op, k + 1, notify);
    }
  }

  /** The three outcomes of a `retry` call: a success returns the value of
      the last invocation; the final failure rethrows that invocation's error
      with the counter at the cap; the generic error is thrown exactly when
      the counter already stood at the cap, and then nothing is invoked. */
  lemma {:induction false} RunFromOutcome<T>(logic: RetryLogic, op: nat -> OpResult<T>, k: nat, notify: bool)
    decreases logic.maxAttempts - logic.attempts
    ensures var r := RunFrom(logic, op, k, notify);
      && (r.result.Success? ==> r.invocations > k && op(r.invocations - 1) == Ok(r.result.value))
      && (r.result == Failure(MaxAttemptsExceeded) <==> logic.attempts >= logic.maxAttempts)
      && (logic.attempts >= logic.maxAttempts ==> r.invocations == k && r.notices == [] && r.delays == [])
      && (r.result.Failure? && r.result.error.OperationError? ==>
            && r.logic.attempts == logic.maxAttempts
            && r.invocations > k
            && op(r.invocations - 1) == Err(r.result.error.message))
  {
    if logic.attempts < logic.maxAttempts && op(k).Err? && logic.attempts + 1 < logic.maxAttempts {
      RunFromOutcome(logic.(attempts := logic.attempts + 1), op, k + 1, notify);
    }
  }

  /** The waits of a `retry` call: one per retry, that is, one per
      invocation but the last. */
  lemma {:induction false} RunFromDelayCount<T>(logic: RetryLogic, op: nat -> OpResult<T>, k: nat, notify: bool)
    decreases logic.maxAttempts - logic.attempts
    ensures var r := RunFrom(logic, op, k, notify);
      |r.delays| == (if r.invocations == k then 0 else r.invocations - k - 1)
  {
    if logic.attempts < logic.maxAttempts && op(k).Err? && logic.attempts + 1 < logic.maxAttempts {
      RunFromDelayCount(logic.(attempts := logic.attempts + 1), op, k + 1, notify);
      RunFromRetries(logic, op, k, notify);
    }
  }

  /** The `j`-th wait of a `retry` call, by induction on `j`. */
  lemma {:induction false} RunFromDelayAt<T>(logic: RetryLogic, op: nat -> OpResult<T>, k: nat, notify: bool, j: nat)
    decreases j
    ensures var r := RunFrom(logic, op, k, notify);
      j < |r.delays| ==> r.delays[j] == BackoffDelay(logic, logic.attempts + j + 1)
  {
    if logic.attempts < logic.maxAttempts && op(k).Err? && logic.attempts + 1 < logic.maxAttempts {
      RunFromRetries(logic, op, k, notify);
      if j > 0 {
        RunFromDelayAt(logic.(attempts := logic.attempts + 1), op, k + 1, notify, j - 1);
      }
    } else {
      RunFromStops(logic, op, k, notify);
    }
  }

  /** Each wait is the back-off `min(baseDelay * 2^(n - 1), maxDelay)` for
      the counter `n` it follows. */
  lemma RunFromDelays<T>(logic: RetryLogic, op: nat -> OpResult<T>, k: nat, notify: bool)
    ensures var r := RunFrom(logic, op, k, notify);
      forall j :: 0 <= j < |r.delays| ==> r.delays[j] == BackoffDelay(logic, logic.attempts + j + 1)
  {
    forall j: nat {
      RunFromDelayAt(logic, op, k, notify, j);
    }
  }

  /** The `onRetry` calls of a `retry` call: none without a callback;
      with one, one per wait, told the counters 1 + the entry count, 2 + ...
      in order, and never the final failure's. */
  lemma {:induction false} RunFromNotices<T>(logic: RetryLogic, op: nat -> OpResult<T>, k: nat, notify: bool)
    decreases logic.maxAttempts - logic.attempts
    ensures var r := RunFrom(logic, op, k, notify);
      && (notify ==> |r.notices| == |r.delays|)
      && (!notify ==> r.notices == [])
      && (forall j :: 0 <= j < |r.notices| ==>
            r.notices[j].attempt == logic.attempts + j + 1 && r.notices[j].attempt < logic.maxAttempts)
  {
    if logic.attempts < logic.maxAttempts && op(k).Err? && logic.attempts + 1 < logic.maxAttempts {
      var failed := logic.(attempts := logic.attempts + 1);
      RunFromNotices(failed, op, k + 1, notify);
      RunFromRetries(logic, op, k, notify);
      var rest := RunFrom(failed, op, k + 1, notify);
      var notices := (if notify then [RetryNotice(failed.attempts, op(k).message)] else []) + rest.notices;
      assert RunFrom(logic, op, k, notify).notices == notices;
      assert RunFrom(logic, op, k, notify).delays == [BackoffDelay(logic, failed.attempts)] + rest.delays;
      assert forall j :: 1 <= j < |notices| ==> notices[j] == rest.notices[j - 1];
    }
  }

  /** `target` is the run `rest` would give, with `notices` and `delays`
      already recorded before it. */
  ghost predicate Completes<T>(target: RetryRun<T>, rest: RetryRun<T>, notices: seq<RetryNotice>, delays: seq<int>) {
    target == rest.(notices := notices + rest.notices, delays := delays + rest.delays)
  }

  /** A successful invocation ends the reference run with its value. */
  lemma RunFromSucceeds<T>(logic: RetryLogic, op: nat -> OpResult<T>, k: nat, notify: bool)
    requires logic.attempts < logic.maxAttempts && op(k).Ok?
    ensures RunFrom(logic, op, k, notify) == RetryRun(Success(op(k).value), logic, k + 1, [], [])
  {
  }

  /** A failure that reaches the cap ends the reference run with its error. */
  lemma RunFromGivesUp<T>(logic: RetryLogic, op: nat -> OpResult<T>, k: nat, notify: bool)
    requires logic.attempts < logic.maxAttempts && op(k).Err? && logic.attempts + 1 >= logic.maxAttempts
    ensures RunFrom(logic, op, k, notify)
      == RetryRun(Failure(OperationError(op(k).message)), logic.(attempts := logic.attempts + 1), k + 1, [], [])
  {
  }

  /** A failure below the cap records its notice and wait, then continues. */
  lemma RunFromRetries<T>(logic: RetryLogic, op: nat -> OpResult<T>, k: nat, notify: bool)
    requires logic.attempts < logic.maxAttempts && op(k).Err? && logic.attempts + 1 < logic.maxAttempts
    ensures var failed := logic.(attempts := logic.attempts + 1);
      var rest := RunFrom(failed, op, k + 1, notify);
      RunFrom(logic, op, k, notify)
        == rest.(notices := (if notify then [RetryNotice(failed.attempts, op(k).message)] else []) + rest.notices,
                 delays := [BackoffDelay(logic, failed.attempts)] + rest.delays)
  {
  }

  /** Without a retry, the reference run records no notice and no wait. */
  lemma RunFromStops<T>(logic: RetryLogic, op: nat -> OpResult<T>, k: nat, notify: bool)
    requires !(logic.attempts < logic.maxAttempts && op(k).Err? && logic.attempts + 1 < logic.maxAttempts)
    ensures RunFrom(logic, op, k, notify).notices == [] && RunFrom(logic, op, k, notify).delays == []
  {
  }

  /** Moving one notice and one wait from the reference run into the
      accumulators keeps the target. */
  lemma CompletesShift<T>(target: RetryRun<T>, rest: RetryRun<T>, notices: seq<RetryNotice>, delays: seq<int>,
                          notice: seq<RetryNotice>, delay: int)
    requires Completes(target, rest.(notices := notice + rest.notices, delays := [delay] + rest.delays), notices, delays)
    ensures Completes(target, rest, notices + notice, delays + [delay])
  {
    assert notices + (notice + rest.notices) == (notices + notice) + rest.notices;
    assert delays + ([delay] + rest.delays) == (delays + [delay]) + rest.delays;
  }

  /** `retry(operation, onRetry)` on the object `logic`; `notify` says whether
      an `onRetry` callback was passed. */
  method Retry<T>(logic: RetryLogic, op: nat -> OpResult<T>, notify: bool) returns (run: RetryRun<T>)
    ensures run == RunFrom(logic, op, 0, notify)
    ensures run.logic == logic.(attempts := run.logic.attempts)
    ensures logic.attempts >= logic.maxAttempts ==> run.invocations == 0 && run.result == Failure(MaxAttemptsExceeded)
  {
    ghost var target := RunFrom(logic, op, 0, notify);
    var current := logic;
    var calls: nat := 0;
    var notices: seq<RetryNotice> := [];
    var delays: seq<int> := [];
    assert notices + target.notices == target.notices && delays + target.delays == target.delays;
    while current.attempts < current.maxAttempts
      invariant current == logic.(attempts := current.attempts)
      invariant current.attempts == logic.attempts + calls
      invariant Completes(target, RunFrom(current, op, calls, notify), notices, delays)
      decreases current.maxAttempts - current.attempts
    {
      var outcome := op(calls);
      if outcome.Ok? {
        RunFromSucceeds(current, op, calls, notify);
        assert notices + [] == notices && delays + [] == delays;
        return RetryRun(Success(outcome.value), current, calls + 1, notices, delays);
      }
      var failed := current.(attempts := current.attempts + 1);
      if failed.attempts >= current.maxAttempts {
        RunFromGivesUp(current, op, calls, notify);
        assert notices + [] == notices && delays + [] == delays;
        return RetryRun(Failure(OperationError(outcome.message)), failed, calls + 1, notices, delays);
      }
      var delay := BackoffDelay(current, failed.attempts);
      var notice := if notify then [RetryNotice(failed.attempts, outcome.message)] else [];
      RunFromRetries(current, op, calls, notify);
      CompletesShift(target, RunFrom(failed, op, calls + 1, notify), notices, delays, notice, delay);
      notices := notices + notice;
      delays := delays + [delay];
      current := failed;
      calls := calls + 1;
    }
    assert notices + [] == notices && delays + [] == delays;
    run := RetryRun(Failure(MaxAttemptsExceeded), current, calls, notices, delays);
  }

  /** A fresh object whose operation always fails invokes it exactly
      `maxAttempts` times, ends with its counter at the cap and rethrows
      the last invocation's error. */
  lemma FreshObjectAlwaysFailing<T>(maxAttempts: int, baseDelay: int, maxDelay: int,
                                    op: nat -> OpResult<T>, notify: bool)
    requires maxAttempts >= 1
    requires forall k :: op(k).Err?
    ensures var run := RunFrom(CreateRetryLogic(maxAttempts, baseDelay, maxDelay), op, 0, notify);
      && run.invocations == maxAttempts
      && run.logic.attempts == maxAttempts
      && run.result == Failure(OperationError(op(maxAttempts - 1).message))
      && |run.delays| == maxAttempts - 1
  {
    var logic := CreateRetryLogic(maxAttempts, baseDelay, maxDelay);
    var run := RunFrom(logic, op, 0, notify);
    RunFromCounter(logic, op, 0, notify);
    RunFromOutcome(logic, op, 0, notify);
    RunFromDelayCount(logic, op, 0, notify);
    if run.invocations >= 1 {
      assert op(run.invocations - 1).Err?;
    }
    assert !run.result.Success?;
    assert run.result.error.OperationError?;
    assert run.logic.attempts == maxAttempts;
    assert run.invocations == maxAttempts;
  }

  /** A series of `retry` calls on one object, each with its own operation. */
  function RunCalls<T>(logic: RetryLogic, ops: seq<nat -> OpResult<T>>, notify: bool): RetryLogic
    decreases |ops|
  {
    if |ops| == 0 then logic else RunCalls(RunFrom(logic, ops[0], 0, notify).logic, ops[1..], notify)
  }

  /** The number of failed invocations over a series of calls. */
  function FailedInvocations<T>(logic: RetryLogic, ops: seq<nat -> OpResult<T>>, notify: bool): nat
    decreases |ops|
  {
    if |ops| == 0 then 0
    else
      var run := RunFrom(logic, ops[0], 0, notify);
      (run.invocations - (if run.result.Success? then 1 else 0))
        + FailedInvocations(run.logic, ops[1..], notify)
  }

  /** Because the counter is never reset, a fresh object fails at most
      `maxAttempts` invocations over its whole life, however many `retry`
      calls it serves, and its counter ends at most at the cap. */
  lemma {:induction false} LifetimeFailuresBounded<T>(logic: RetryLogic, ops: seq<nat -> OpResult<T>>, notify: bool)
    requires 0 <= logic.attempts <= logic.maxAttempts
    ensures RunCalls(logic, ops, notify).attempts == logic.attempts + FailedInvocations(logic, ops, notify)
    ensures RunCalls(logic, ops, notify).attempts <= logic.maxAttempts
    ensures FailedInvocations(logic, ops, notify) <= logic.maxAttempts - logic.attempts
    decreases |ops|
  {
    if |ops| > 0 {
      var run := RunFrom(logic, ops[0], 0, notify);
      RunFromCounter(logic, ops[0], 0, notify);
      LifetimeFailuresBounded(run.logic, ops[1..], notify);
    }
  }

  /** Once the counter is at the cap, a call invokes nothing and throws the
      generic error. */
  lemma ExhaustedObjectNeverInvokes<T>(logic: RetryLogic, op: nat -> OpResult<T>, notify: bool)
    requires logic.attempts >= logic.maxAttempts
    ensures RunFrom(logic, op, 0, notify).invocations == 0
    ensures RunFrom(logic, op, 0, notify).result == Failure(MaxAttemptsExceeded)
  {
    RunFromOutcome(logic, op, 0, notify);
  }

  /** With the defaults and an operation that always fails: three
      invocations, the third error rethrown, `onRetry` told 1 then 2, waits
      of 1000 and 2000 ms. */
  lemma DefaultsAlwaysFailing(op: nat -> OpResult<int>)
    requires forall i :: op(i) == Err("boom")
    ensures var run := RunFrom(DefaultRetryLogic(), op, 0, true);
      && run.invocations == 3
      && run.result == Failure(OperationError("boom"))
      && run.notices == [RetryNotice(1, "boom"), RetryNotice(2, "boom")]
      && run.delays == [1000, 2000]
  {
    var l0 := DefaultRetryLogic();
    var r1 := RunFrom(l0.(attempts := 1), op, 1, true);
    var r2 := RunFrom(l0.(attempts := 2), op, 2, true);
    assert op(0) == Err("boom") && op(1) == Err("boom") && op(2) == Err("boom");
    assert r2.result == Failure(OperationError("boom")) && r2.invocations == 3;
    assert r1.notices == [RetryNotice(2, "boom")] && r1.delays == [2000];
  }

  /** Successful invocations do not move the counter, so an object with a
      cap of one can invoke its operations more often than that: two
      successful calls make two invocations and leave the object as new. */
  lemma SuccessesAreNotCounted(op: nat -> OpResult<int>)
    requires forall i :: op(i) == Ok(7)
    ensures var created := CreateRetryLogic(1, 1000, 5000);
      var first := RunFrom(created, op, 0, false);
      var second := RunFrom(first.logic, op, 0, false);
      && first.result == Success(7) && second.result == Success(7)
      && first.invocations + second.invocations == 2 > created.maxAttempts
      && second.logic == created
  {
    assert op(0) == Ok(7);
  }
}
