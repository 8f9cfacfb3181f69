// Undisturbed, the worker's pass with its reservations refines the plain dispatch: the same providers
// are called in the same order, and the outcomes correspond.
module PassRefinement {
  import opened StateMachine
  import opened Tables
  import opened Lifecycle
  import opened Providers
  import Protocol
  import opened ProviderManager
  import opened Processor

  /** No other transaction commits. */
  function Calm(i: nat): Db -> Db {
    d => d
  }

  lemma TurnAlone(cfg: Config, db: Db, m: MessageId, k: nat, result: SendResult)
    requires k < |cfg.providers| && cfg.expiryMs > 0 && HasStatus(db, m, Processing)
    ensures var (after, turn) := TakeTurn(cfg, db, m, k, result, Calm);
      && (Stops(result) ==>
            turn == Ended(if IsSent(result) then SentBy(cfg.providers[k]) else AwaitingResult, k + 1))
      && (!Stops(result) ==>
            && turn == FailedTurn(result.isRetryable) && HasStatus(after, m, Processing)
            && after.messages[m].retryRounds == db.messages[m].retryRounds)
  {
    var (reserved, r) := Lifecycle.ReserveProviderAttempt(db, m, cfg.providers[k]);
    assert IsReservedFor(reserved, m, r.attempt) && HasStatus(reserved, m, AwaitingProviderResult);
  }

  /** What an exhausted pass decides. */
  function ExhaustedOutcome(cfg: Config, round: nat, retryable: bool): Outcome {
    if !retryable then DeadLetter(Permanent)
    else if round < cfg.maxRounds then RetryIsScheduled
    else DeadLetter(RoundsExhausted)
  }

  lemma DecisionAlone(cfg: Config, db: Db, worker: Protocol.Worker)
    requires HasStatus(db, worker.message, Processing)
    ensures DecideRound(cfg, db, worker, Calm).1
         == ExhaustedOutcome(cfg, worker.round, worker.failures != [] && AllTrue(worker.failures))
  {
  }

  /** The failures noted so far are those of the first providers, none of which ended the pass. */
  ghost predicate AreFirstFailures(failures: seq<bool>, answer: nat -> SendResult) {
    forall j: nat :: j < |failures| ==> !Stops(answer(j)) && failures[j] == answer(j).isRetryable
  }

  /** The outcome and the calls of a pass, told from the answers alone. */
  function PassResult(cfg: Config, round: nat, answer: nat -> SendResult, stop: nat): (Outcome, nat)
    requires stop <= |cfg.providers|
  {
    var n := |cfg.providers|;
    if stop < n then (if IsSent(answer(stop)) then SentBy(cfg.providers[stop]) else AwaitingResult, stop + 1)
    else (ExhaustedOutcome(cfg, round, n > 0 && PermanentFrom(n, answer, 0) == n), n)
  }

  lemma {:induction false} PassAlone(cfg: Config, db: Db, m: MessageId, round: nat, failures: seq<bool>,
                                     answer: nat -> SendResult)
    requires cfg.expiryMs > 0 && HasStatus(db, m, Processing)
    requires |failures| <= |cfg.providers| && AreFirstFailures(failures, answer)
    ensures var p := PassFrom(cfg, db, m, round, failures, answer, Calm);
      (p.outcome, p.calls) == PassResult(cfg, round, answer, StopFrom(|cfg.providers|, answer, |failures|))
    decreases |cfg.providers| - |failures|
  {
    var k := |failures|;
    if k == |cfg.providers| {
      ExhaustedAlone(cfg, db, m, round, failures, answer);
    } else {
      TurnAlone(cfg, db, m, k, answer(k));
      if Stops(answer(k)) {
        StoppedAlone(cfg, db, m, round, failures, answer);
      } else {
        var after := TakeTurn(cfg, db, m, k, answer(k), Calm).0;
        PassAlone(cfg, after, m, round, failures + [answer(k).isRetryable], answer);
        NextProvider(cfg, db, m, round, failures, answer);
      }
    }
  }

  lemma StoppedAlone(cfg: Config, db: Db, m: MessageId, round: nat, failures: seq<bool>, answer: nat -> SendResult)
    requires cfg.expiryMs > 0 && HasStatus(db, m, Processing) && |failures| < |cfg.providers| && Stops(answer(|failures|))
    ensures var p := PassFrom(cfg, db, m, round, failures, answer, Calm);
      (p.outcome, p.calls) == PassResult(cfg, round, answer, StopFrom(|cfg.providers|, answer, |failures|))
  {
    TurnAlone(cfg, db, m, |failures|, answer(|failures|));
  }

  /** A definitive failure hands over to the next provider. */
  lemma NextProvider(cfg: Config, db: Db, m: MessageId, round: nat, failures: seq<bool>, answer: nat -> SendResult)
    requires cfg.expiryMs > 0 && HasStatus(db, m, Processing) && |failures| < |cfg.providers| && !Stops(answer(|failures|))
    ensures var k := |failures|;
      var after := TakeTurn(cfg, db, m, k, answer(k), Calm).0;
      && PassFrom(cfg, db, m, round, failures, answer, Calm)
         == PassFrom(cfg, after, m, round, failures + [answer(k).isRetryable], answer, Calm)
      && StopFrom(|cfg.providers|, answer, k) == StopFrom(|cfg.providers|, answer, k + 1)
  {
    TurnAlone(cfg, db, m, |failures|, answer(|failures|));
  }

  lemma ExhaustedAlone(cfg: Config, db: Db, m: MessageId, round: nat, failures: seq<bool>, answer: nat -> SendResult)
    requires HasStatus(db, m, Processing) && |failures| == |cfg.providers| && AreFirstFailures(failures, answer)
    ensures var p := PassFrom(cfg, db, m, round, failures, answer, Calm);
      (p.outcome, p.calls) == PassResult(cfg, round, answer, |cfg.providers|)
  {
    DecisionAlone(cfg, db, Protocol.Worker(m, round, failures, Protocol.Ready));
    AllRetryable(failures, answer);
  }

  lemma AllRetryable(failures: seq<bool>, answer: nat -> SendResult)
    requires AreFirstFailures(failures, answer)
    ensures AllTrue(failures) <==> PermanentFrom(|failures|, answer, 0) == |failures|
  {
    var permanent := PermanentFrom(|failures|, answer, 0);
    assert permanent < |failures| ==> !failures[permanent];
  }

  /** A worker's outcome and calls beside a dispatch's outcome. */
  ghost predicate Correspond(cfg: Config, round: nat, outcome: Outcome, calls: nat, d: DispatchOutcome) {
    && calls == |d.attempts| <= |cfg.providers|
    && (forall i :: 0 <= i < calls ==> d.attempts[i].providerName == cfg.providers[i])
    && (outcome.SentBy? || outcome.AwaitingResult? <==> d.result.success || d.result.isAmbiguous == Some(true))
    && (outcome.SentBy? <==> d.result.success && HasUsableId(d.result))
    && (outcome.SentBy? ==> outcome.provider == d.providerName)
    && (!Stops(d.result) ==> outcome == ExhaustedOutcome(cfg, round, d.result.isRetryable))
  }

  lemma ResultsCorrespond(cfg: Config, round: nat, answer: nat -> SendResult)
    ensures var r := PassResult(cfg, round, answer, StopFrom(|cfg.providers|, answer, 0));
      Correspond(cfg, round, r.0, r.1, OutcomeOf(cfg.providers, answer))
  {
    OutcomeIsVerdict(cfg.providers, answer);
  }

  /** Undisturbed, a claimed message is sent or parked exactly when a plain dispatch over the same answers
      succeeds or is ambiguous, sent exactly when it succeeds with a usable id, by the same provider; and it
      is eligible for another round exactly when dispatch's result is retryable after an exhausted pass. */
  lemma PassRefinesDispatch(cfg: Config, db: Db, m: MessageId, answer: nat -> SendResult)
    requires cfg.expiryMs > 0 && m in db.messages && IsStartable(db.messages[m].status)
    ensures var p := Process(cfg, db, m, AtOnce(), answer, Calm);
      Correspond(cfg, db.messages[m].retryRounds, p.outcome, p.calls, OutcomeOf(cfg.providers, answer))
  {
    PassAlone(cfg, Lifecycle.BeginProcessing(db, m).0, m, db.messages[m].retryRounds, [], answer);
    ResultsCorrespond(cfg, db.messages[m].retryRounds, answer);
  }
}
