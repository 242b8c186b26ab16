/**
 * The bounded retry with exponential backoff that SketchPage's
 * `uploadAndGenerate` wraps around its POST of the sketch. The network is
 * replaced by the sequence of outcomes the successive `fetch` calls would
 * produce; waiting is replaced by the list of delays the loop schedules.
 */
module Upload {
  import opened Wrappers

  /** What one `fetch` of the generation endpoint produced: a response with
      `ok` set, a response with a failing status, or a rejected promise with
      an error message. */
  datatype FetchOutcome = Ok | NotOk(status: int) | Threw(message: string)

  /** How the whole upload ended: with a usable response, or with the
      message of the error that reached the outer `catch`. */
  datatype UploadResult = Generated | Failed(message: string)

  /** One run of the retry loop: how many `fetch` calls it made, the delays
      (in milliseconds) it waited between them, and how it ended. */
  datatype UploadRun = UploadRun(attempts: nat, delays: seq<nat>, result: UploadResult)

  /** `MAX_RETRIES`: the number of `fetch` calls the loop makes at most. */
  const MaxRetries: nat := 3

  /** The message of the error thrown when the last attempt gets a response
      that is not ok (`Failed after ${MAX_RETRIES} attempts.`). */
  const ExhaustedMessage: string := "Failed after 3 attempts."

  function Pow2(n: nat): nat
  {
    if n == 0 then 1 else 2 * Pow2(n - 1)
  }

  /** The delay after attempt `i` that got a failing response:
      `Math.pow(2, i) * 1000`. */
  function BackoffDelay(i: nat): nat
  {
    Pow2(i) * 1000
  }

  /** Whether attempt `i` is followed by a wait: its response came back and
      was not ok, and it was not the last attempt (that one throws instead).
      A rejected `fetch` is swallowed without waiting. */
  predicate WaitsAfter(outcomes: seq<FetchOutcome>, i: nat)
    requires i < |outcomes|
  {
    outcomes[i].NotOk? && i != MaxRetries - 1
  }

  /** The delays scheduled over the first `n` attempts, in order. */
  function ScheduledDelays(outcomes: seq<FetchOutcome>, n: nat): seq<nat>
    requires n <= |outcomes|
  {
    if n == 0 then []
    else ScheduledDelays(outcomes, n - 1) + (if WaitsAfter(outcomes, n - 1) then [BackoffDelay(n - 1)] else [])
  }

  /** The message that reaches the outer `catch` when the last attempt fails:
      the rejected promise's own error, or the "Failed after" error for a
      response that is not ok. */
  function FinalError(last: FetchOutcome): string
  {
    if last.Threw? then last.message else ExhaustedMessage
  }

  /**
   * The `for` loop of `uploadAndGenerate` followed by its check of the
   * response. It makes at most `MaxRetries` attempts and stops at the first
   * ok response; when it fails, every attempt was made and the error is the
   * last attempt's. The check after the loop (`!apiResponse ||
   * !apiResponse.ok`) can never fire: the loop is only left by a `break` on
   * an ok response or by the throw of the last attempt.
   */
  method RetryUpload(outcomes: seq<FetchOutcome>) returns (run: UploadRun)
    requires |outcomes| >= MaxRetries
    ensures 1 <= run.attempts <= MaxRetries
    ensures forall i :: 0 <= i < run.attempts - 1 ==> !outcomes[i].Ok?
    ensures run.result.Generated? <==> outcomes[run.attempts - 1].Ok?
    ensures run.result.Generated? <==> exists i :: 0 <= i < MaxRetries && outcomes[i].Ok?
    ensures run.result.Failed? ==> run.attempts == MaxRetries
    ensures run.result.Failed? ==> run.result.message == FinalError(outcomes[MaxRetries - 1])
    ensures run.delays == ScheduledDelays(outcomes, run.attempts)
  {
    var apiResponse: Option<FetchOutcome> := None;
    var thrown: Option<string> := None;
    var delays: seq<nat> := [];
    var i: nat := 0;
    while i < MaxRetries
      invariant i < MaxRetries
      invariant forall j :: 0 <= j < i ==> !outcomes[j].Ok?
      invariant delays == ScheduledDelays(outcomes, i)
      invariant thrown.None?
    {
      match outcomes[i] {
        case Ok =>
          apiResponse := Some(outcomes[i]);
          break;
        case NotOk(_) =>
          apiResponse := Some(outcomes[i]);
          if i == MaxRetries - 1 {
            thrown := Some(ExhaustedMessage);
            break;
          }
          delays := delays + [BackoffDelay(i)];
        case Threw(message) =>
          if i == MaxRetries - 1 {
            thrown := Some(message);
            break;
          }
      }
      i := i + 1;
    }
    // the loop ends only by a break, so attempt `i` was the last one made
    assert thrown.None? ==> apiResponse == Some(Ok);
    if thrown.Some? {
      run := UploadRun(i + 1, delays, Failed(thrown.value));
    } else {
      run := UploadRun(i + 1, delays, Generated);
    }
  }

  /** Every scheduled delay is one of the first two backoff steps, one
      second or two, and there is at most one per attempt. */
  lemma {:induction false} ScheduledDelaysAreBackoffSteps(outcomes: seq<FetchOutcome>, n: nat)
    requires n <= |outcomes| && n <= MaxRetries
    ensures |ScheduledDelays(outcomes, n)| <= n
    ensures forall k :: 0 <= k < |ScheduledDelays(outcomes, n)| ==>
              ScheduledDelays(outcomes, n)[k] == 1000 || ScheduledDelays(outcomes, n)[k] == 2000
  {
    if n > 0 {
      ScheduledDelaysAreBackoffSteps(outcomes, n - 1);
      var prev := ScheduledDelays(outcomes, n - 1);
      var s := ScheduledDelays(outcomes, n);
      if WaitsAfter(outcomes, n - 1) {
        var d := BackoffDelay(n - 1);
        assert d == 1000 || d == 2000 by {
          assert Pow2(0) == 1 && Pow2(1) == 2;
        }
        assert s == prev + [d];
        forall k | 0 <= k < |s|
          ensures s[k] == 1000 || s[k] == 2000
        {
          if k < |prev| {
            assert s[k] == prev[k];
          }
        }
      } else {
        assert s == prev;
      }
    }
  }

  /** The loop waits three seconds in all at most, and one second at most
      before its second attempt. */
  lemma {:induction false} ScheduledDelaysBounded(outcomes: seq<FetchOutcome>, n: nat)
    requires n <= |outcomes| && n <= MaxRetries
    ensures Sum(ScheduledDelays(outcomes, n)) <= if n <= 1 then 1000 * n else 3000
  {
    if n > 0 {
      ScheduledDelaysBounded(outcomes, n - 1);
      var prev := ScheduledDelays(outcomes, n - 1);
      var s := ScheduledDelays(outcomes, n);
      if WaitsAfter(outcomes, n - 1) {
        var d := BackoffDelay(n - 1);
        assert d == if n == 1 then 1000 else 2000 by {
          assert Pow2(0) == 1 && Pow2(1) == 2;
        }
        assert s == prev + [d];
        SumAppend(prev, d);
      } else {
        assert s == prev;
      }
    }
  }

  function Sum(s: seq<nat>): nat
  {
    if |s| == 0 then 0 else Sum(s[..|s| - 1]) + s[|s| - 1]
  }

  lemma SumAppend(s: seq<nat>, x: nat)
    ensures Sum(s + [x]) == Sum(s) + x
  {
    assert (s + [x])[..|s|] == s;
  }
}
