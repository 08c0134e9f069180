/** The bounded retry loop around one HTTP request.

    The transport is the sequence of what successive executions of the same
    request would produce; the sleeps are recorded as the list of delays in
    milliseconds instead of being waited out.  The loop stops at the first
    2xx response or after the third retry, and a transport error panics at
    the `unwrap` that reads the status, before the loop can retry it. */
module Util {

  const MaxRetries: nat := 3
  const InitialDelay: nat := 500
  const DelayStep: nat := 500

  datatype Response = Response(status: nat, body: string)

  /** What one execution of the request produced. */
  datatype Attempt = Reply(response: Response) | TransportError

  /** How the delay grows between retries: by 500 ms (the shared helper) or
      by doubling (the older inline loop of the league command). */
  datatype DelayPolicy = Linear | Doubling

  datatype RetryOutcome = Returned(response: Response) | Panicked

  /** The whole run: its outcome, how many times the request was executed,
      and the delays slept, in order. */
  datatype RetryRun = RetryRun(outcome: RetryOutcome, executions: nat, sleeps: seq<nat>)

  /** `StatusCode::is_success`. */
  predicate IsSuccess(status: nat) { 200 <= status <= 299 }

  /** The loop leaves after looking at attempt `i`. */
  predicate Stops(t: seq<Attempt>, i: nat)
    requires i < |t|
  {
    t[i].TransportError? || IsSuccess(t[i].response.status) || i >= MaxRetries
  }

  function Pow2(k: nat): (p: nat)
    ensures p >= 1
  {
    if k == 0 then 1 else 2 * Pow2(k - 1)
  }

  function NextDelay(policy: DelayPolicy, d: nat): nat
  {
    match policy
    case Linear => d + DelayStep
    case Doubling => 2 * d
  }

  /** The delay slept before retry number `k + 1`, as the loop updates it. */
  function Delay(policy: DelayPolicy, k: nat): (d: nat)
    ensures policy == Linear ==> d == 500 * (k + 1)
    ensures policy == Doubling ==> d == 500 * Pow2(k)
  {
    if k == 0 then InitialDelay else NextDelay(policy, Delay(policy, k - 1))
  }

  /** The first `n` delays of a policy. */
  function Delays(policy: DelayPolicy, n: nat): (ds: seq<nat>)
    ensures |ds| == n
    ensures forall k :: 0 <= k < n ==> ds[k] == Delay(policy, k)
  {
    seq(n, k requires 0 <= k => Delay(policy, k))
  }

  /** The index of the attempt at which the loop stops, looking from `i` on. */
  function StopIndex(t: seq<Attempt>, i: nat): (k: nat)
    requires i <= MaxRetries < |t|
    ensures i <= k <= MaxRetries
    ensures Stops(t, k)
    ensures forall j :: i <= j < k ==> !Stops(t, j)
    decreases MaxRetries - i
  {
    if Stops(t, i) then i else StopIndex(t, i + 1)
  }

  /** What the retry loop does with a given transport and delay policy. */
  function Retry(t: seq<Attempt>, policy: DelayPolicy): (run: RetryRun)
    requires MaxRetries < |t|
    ensures 1 <= run.executions <= MaxRetries + 1
    ensures run.sleeps == Delays(policy, run.executions - 1)
    ensures forall i :: 0 <= i < run.executions - 1 ==> t[i].Reply? && !IsSuccess(t[i].response.status)
    ensures var last := t[run.executions - 1];
      run.outcome == if last.TransportError? then Panicked else Returned(last.response)
    ensures run.outcome.Returned? && !IsSuccess(run.outcome.response.status) ==> run.executions == MaxRetries + 1
  {
    var k := StopIndex(t, 0);
    RetryRun(if t[k].TransportError? then Panicked else Returned(t[k].response), k + 1, Delays(policy, k))
  }

  /** `retry_requests`: the loop of the shared helper, with the delay growing by 500 ms. */
  method RetryRequests(transport: seq<Attempt>) returns (outcome: RetryOutcome, executions: nat, sleeps: seq<nat>)
    requires MaxRetries < |transport|
    ensures RetryRun(outcome, executions, sleeps) == Retry(transport, Linear)
  {
    var retries: nat := 0;
    var delay: nat := InitialDelay;
    sleeps := [];
    var result := transport[0];
    executions := 1;
    while true
      invariant retries <= MaxRetries
      invariant executions == retries + 1
      invariant sleeps == Delays(Linear, retries)
      invariant delay == Delay(Linear, retries)
      invariant result == transport[retries]
      invariant forall j :: 0 <= j < retries ==> !Stops(transport, j)
      decreases MaxRetries - retries
    {
      if result.TransportError? {
        outcome := Panicked;
        return;
      }
      if IsSuccess(result.response.status) {
        outcome := Returned(result.response);
        return;
      }
      if retries >= MaxRetries {
        outcome := Returned(result.response);
        return;
      }
      sleeps := sleeps + [delay];
      retries := retries + 1;
      delay := delay + DelayStep;
      result := transport[retries];
      executions := executions + 1;
    }
  }

  /** Two failed replies and then a success: three executions, with sleeps
      of 500 and then 1000 ms between them, and the success returned. */
  lemma TwoFailuresThenSuccess(t: seq<Attempt>)
    requires MaxRetries < |t|
    requires t[0].Reply? && !IsSuccess(t[0].response.status)
    requires t[1].Reply? && !IsSuccess(t[1].response.status)
    requires t[2].Reply? && IsSuccess(t[2].response.status)
    ensures Retry(t, Linear) == RetryRun(Returned(t[2].response), 3, [500, 1000])
  {
    assert StopIndex(t, 0) == 2;
    assert Delays(Linear, 2) == [500, 1000];
  }

  /** A reply that is not 2xx after the third retry is handed back as a
      response, not turned into an error. */
  lemma PersistentFailureIsReturned(t: seq<Attempt>, policy: DelayPolicy)
    requires MaxRetries < |t|
    requires forall i :: 0 <= i <= MaxRetries ==> t[i].Reply? && !IsSuccess(t[i].response.status)
    ensures Retry(t, policy) == RetryRun(Returned(t[MaxRetries].response), 4, Delays(policy, 3))
  {
    assert forall j :: 0 <= j < MaxRetries ==> !Stops(t, j);
    assert StopIndex(t, 0) == MaxRetries;
  }
}
