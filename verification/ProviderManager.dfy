// One ordered pass over the providers without any persistence: the simple form of what a worker does.
module ProviderManager {
  import opened Tables
  import opened Providers

  datatype DispatchAttempt = DispatchAttempt(providerName: string, result: SendResult)
  datatype DispatchOutcome = DispatchOutcome(result: SendResult, providerName: string, attempts: seq<DispatchAttempt>)

  const NOTHING_CONFIGURED := SendResult(false, None, Some("No SMS providers are configured"), false, None)

  /** A result after which no other provider may be tried. */
  predicate Stops(result: SendResult) {
    result.success || result.isAmbiguous == Some(true)
  }

  /** The first provider from `i` on that ends the pass, or `n`. */
  function StopFrom(n: nat, answer: nat -> SendResult, i: nat): (k: nat)
    requires i <= n
    ensures i <= k <= n && (k < n ==> Stops(answer(k))) && forall j: nat :: i <= j < k ==> !Stops(answer(j))
    decreases n - i
  {
    if i == n || Stops(answer(i)) then i else StopFrom(n, answer, i + 1)
  }

  /** The first provider from `i` on whose failure is permanent, or `n`. */
  function PermanentFrom(n: nat, answer: nat -> SendResult, i: nat): (k: nat)
    requires i <= n
    ensures i <= k <= n && (k < n ==> !answer(k).isRetryable) && forall j: nat :: i <= j < k ==> answer(j).isRetryable
    decreases n - i
  {
    if i == n || !answer(i).isRetryable then i else PermanentFrom(n, answer, i + 1)
  }

  function AttemptsOf(providers: seq<string>, answer: nat -> SendResult, k: nat): (attempts: seq<DispatchAttempt>)
    requires k <= |providers|
    ensures |attempts| == k
    ensures forall i :: 0 <= i < k ==> attempts[i] == DispatchAttempt(providers[i], answer(i))
  {
    if k == 0 then [] else AttemptsOf(providers, answer, k - 1) + [DispatchAttempt(providers[k - 1], answer(k - 1))]
  }

  /** What a dispatch comes to when provider `i` would answer `answer(i)`. */
  function OutcomeOf(providers: seq<string>, answer: nat -> SendResult): DispatchOutcome {
    var n := |providers|;
    var stop := StopFrom(n, answer, 0);
    if stop < n then
      DispatchOutcome(answer(stop), providers[stop], AttemptsOf(providers, answer, stop + 1))
    else if n == 0 then
      DispatchOutcome(NOTHING_CONFIGURED, "", [])
    else
      var permanent := PermanentFrom(n, answer, 0);
      var terminal := if permanent < n then permanent else n - 1;
      DispatchOutcome(answer(terminal), providers[terminal], AttemptsOf(providers, answer, n))
  }

  /** The result doubles as the verdict on the whole pass. */
  lemma OutcomeIsVerdict(providers: seq<string>, answer: nat -> SendResult)
    ensures var n := |providers|;
      var outcome := OutcomeOf(providers, answer);
      && (StopFrom(n, answer, 0) < n <==> Stops(outcome.result))
      && (StopFrom(n, answer, 0) == n ==>
            (outcome.result.isRetryable <==> n > 0 && forall j: nat :: j < n ==> answer(j).isRetryable))
  {
    var n := |providers|;
    if StopFrom(n, answer, 0) == n && n > 0 {
      var permanent := PermanentFrom(n, answer, 0);
      assert permanent < n ==> !answer(permanent).isRetryable;
      assert permanent == n ==> answer(n - 1).isRetryable;
    }
  }

  /** A pass stops at the first success or ambiguous answer, with the attempts up to it. */
  lemma DispatchStops(providers: seq<string>, answer: nat -> SendResult, k: nat)
    requires k < |providers| && (answer(k).success || answer(k).isAmbiguous == Some(true))
    requires forall j: nat :: j < k ==> !answer(j).success && answer(j).isAmbiguous != Some(true)
    ensures var outcome := OutcomeOf(providers, answer);
      && outcome.result == answer(k) && outcome.providerName == providers[k]
      && |outcome.attempts| == k + 1
      && forall i: nat :: i <= k ==> outcome.attempts[i] == DispatchAttempt(providers[i], answer(i))
  {
    var stop := StopFrom(|providers|, answer, 0);
    assert stop >= k;
    assert Stops(answer(k));
  }

  /** When every provider refuses, the result is that of the first permanent failure, or of the last provider. */
  lemma DispatchFails(providers: seq<string>, answer: nat -> SendResult, k: nat)
    requires k < |providers|
    requires forall j: nat :: j < |providers| ==> !answer(j).success && answer(j).isAmbiguous != Some(true)
    requires forall j: nat :: j < k ==> answer(j).isRetryable
    requires !answer(k).isRetryable || k == |providers| - 1
    ensures var outcome := OutcomeOf(providers, answer);
      && outcome.result == answer(k) && outcome.providerName == providers[k]
      && |outcome.attempts| == |providers|
      && forall i: nat :: i < |providers| ==> outcome.attempts[i] == DispatchAttempt(providers[i], answer(i))
  {
    var n := |providers|;
    var stop := StopFrom(n, answer, 0);
    assert stop < n ==> Stops(answer(stop));
    var permanent := PermanentFrom(n, answer, 0);
    assert permanent >= k;
  }

  /** Without providers the pass fails for good. */
  lemma NothingToDispatch(answer: nat -> SendResult)
    ensures var outcome := OutcomeOf([], answer);
      !outcome.result.success && !outcome.result.isRetryable && outcome.attempts == [] && outcome.providerName == ""
      && outcome.result.isAmbiguous != Some(true)
  {
  }

  class ProviderManager {
    const providers: seq<string>

    constructor (providers: seq<string>)
      ensures this.providers == providers
    {
      this.providers := providers;
    }

    method Dispatch(answer: nat -> SendResult) returns (outcome: DispatchOutcome)
      ensures outcome == OutcomeOf(providers, answer)
    {
      var n := |providers|;
      var attempts: seq<DispatchAttempt> := [];
      for k := 0 to n
        invariant attempts == AttemptsOf(providers, answer, k)
        invariant forall j: nat :: j < k ==> !Stops(answer(j))
      {
        var result := answer(k);
        attempts := attempts + [DispatchAttempt(providers[k], result)];
        if result.success {
          return DispatchOutcome(result, providers[k], attempts);
        }
        if result.isAmbiguous == Some(true) {
          return DispatchOutcome(result, providers[k], attempts);
        }
      }
      var permanent := 0;
      while permanent < |attempts| && attempts[permanent].result.isRetryable
        invariant permanent <= n
        invariant forall j: nat :: j < permanent ==> answer(j).isRetryable
      {
        permanent := permanent + 1;
      }
      if |attempts| == 0 {
        return DispatchOutcome(NOTHING_CONFIGURED, "", attempts);
      }
      var terminal := attempts[if permanent < |attempts| then permanent else |attempts| - 1];
      outcome := DispatchOutcome(terminal.result, terminal.providerName, attempts);
    }
  }
}
