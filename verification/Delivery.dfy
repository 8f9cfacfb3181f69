// What an undisturbed job leaves behind, told from the providers' answers alone: which provider is the last
// one called, and what the message's row, its newest attempt and its events then say.
module Delivery {
  import opened StateMachine
  import opened Tables
  import opened Lifecycle
  import opened Providers
  import opened Protocol
  import opened Reachability
  import opened Processor
  import opened PassRefinement

  // --- Answers, without the worker's own words for them ----------------------------------------------------

  /** Something is left of the text when white space is trimmed from its ends. */
  predicate IsVisible(text: string) {
    exists i :: 0 <= i < |text| && text[i] !in WHITE_SPACE
  }

  predicate Accepts(result: SendResult) {
    result.success && result.providerMessageId.Some? && IsVisible(result.providerMessageId.value)
  }

  /** The provider says that it did not take the message, and is sure of it. */
  predicate Refuses(result: SendResult) {
    !result.success && result.isAmbiguous != Some(true)
  }

  lemma AcceptsIsSent(result: SendResult)
    ensures Accepts(result) <==> IsSent(result)
    ensures Refuses(result) <==> IsDefinitiveFailure(result)
  {
    if result.providerMessageId.Some? {
      var id := result.providerMessageId.value;
      forall i | 0 <= i < |id| ensures IsSpace(id[i]) <==> id[i] in WHITE_SPACE {
        SpacesAreListed(id[i]);
      }
    }
  }

  /** In particular any printable ASCII character makes an id usable. */
  lemma PrintableIsVisible(text: string, i: nat)
    requires i < |text| && '!' <= text[i] <= '~'
    ensures IsVisible(text)
  {
    SpacesAreListed(text[i]);
    assert text[i] !in WHITE_SPACE;
  }

  lemma BlanksAreInvisible(text: string)
    requires forall i :: 0 <= i < |text| ==> text[i] == ' ' || text[i] == '\t' || text[i] == '\n' || text[i] == '\r'
    ensures !IsVisible(text)
  {
    forall i | 0 <= i < |text| ensures text[i] in WHITE_SPACE {
      SpacesAreListed(text[i]);
    }
  }

  // --- What the tables say ------------------------------------------------------------------------------------

  /** `n` providers were called since `db`, the last of them `provider`. */
  predicate IsCalled(db: Db, after: Db, m: MessageId, provider: string, n: nat) {
    && m in db.messages && m in after.messages && n > 0
    && after.messages[m].selectedProvider == Some(provider)
    && after.messages[m].deliveryAttempts == db.messages[m].deliveryAttempts + n
    && after.messages[m].retryRounds == db.messages[m].retryRounds
    && after.nextAttempt == db.nextAttempt + n && after.nextAttempt - 1 in after.attempts
    && after.attempts[after.nextAttempt - 1].message == m && after.attempts[after.nextAttempt - 1].provider == provider
  }

  /** Sent under exactly this provider id, and nothing was written to the outbox. */
  predicate IsSentUnder(db: Db, after: Db, m: MessageId, id: string) {
    && HasStatus(after, m, Sent) && after.messages[m].providerMessageId == Some(id)
    && after.nextAttempt > 0 && after.nextAttempt - 1 in after.attempts
    && after.attempts[after.nextAttempt - 1].outcome == Accepted
    && after.attempts[after.nextAttempt - 1].providerMessageId == Some(id)
    && after.outbox == db.outbox && after.nextEvent == db.nextEvent
  }

  /** Parked until its expiry, which is scheduled. */
  predicate IsParked(cfg: Config, db: Db, after: Db, m: MessageId) {
    && HasStatus(after, m, AwaitingProviderResult) && m in db.messages
    && after.messages[m].providerMessageId == db.messages[m].providerMessageId
    && after.nextAttempt > 0 && after.nextAttempt - 1 in after.attempts
    && after.attempts[after.nextAttempt - 1].outcome == Failed && after.attempts[after.nextAttempt - 1].isAmbiguous
    && after.nextEvent == db.nextEvent + 1
    && after.outbox == db.outbox[db.nextEvent :=
         OutboxEvent(m, AmbiguousExpiryScheduled, DelayedPayload(m, cfg.expiryMs), false, 0, None)]
  }

  // --- One turn -------------------------------------------------------------------------------------------------

  lemma RefusedTurn(cfg: Config, db: Db, m: MessageId, k: nat, result: SendResult)
    requires k < |cfg.providers| && HasStatus(db, m, Processing) && Refuses(result)
    ensures var (after, turn) := TakeTurn(cfg, db, m, k, result, Calm);
      && turn == FailedTurn(result.isRetryable) && HasStatus(after, m, Processing)
      && IsCalled(db, after, m, cfg.providers[k], 1)
      && after.messages[m].providerMessageId == db.messages[m].providerMessageId
      && after.outbox == db.outbox && after.nextEvent == db.nextEvent
  {
    AcceptsIsSent(result);
    var (reserved, r) := Lifecycle.ReserveProviderAttempt(db, m, cfg.providers[k]);
    assert IsReservedFor(reserved, m, r.attempt) && HasStatus(reserved, m, AwaitingProviderResult);
  }

  lemma AcceptedTurn(cfg: Config, db: Db, m: MessageId, k: nat, result: SendResult)
    requires k < |cfg.providers| && HasStatus(db, m, Processing) && Accepts(result)
    ensures var (after, turn) := TakeTurn(cfg, db, m, k, result, Calm);
      && turn == Ended(SentBy(cfg.providers[k]), k + 1)
      && IsCalled(db, after, m, cfg.providers[k], 1) && IsSentUnder(db, after, m, result.providerMessageId.value)
  {
    AcceptsIsSent(result);
    var (reserved, r) := Lifecycle.ReserveProviderAttempt(db, m, cfg.providers[k]);
    assert IsReservedFor(reserved, m, r.attempt) && HasStatus(reserved, m, AwaitingProviderResult);
  }

  lemma UnsureTurn(cfg: Config, db: Db, m: MessageId, k: nat, result: SendResult)
    requires k < |cfg.providers| && cfg.expiryMs > 0 && HasStatus(db, m, Processing) && !Refuses(result) && !Accepts(result)
    ensures var (after, turn) := TakeTurn(cfg, db, m, k, result, Calm);
      && turn == Ended(AwaitingResult, k + 1)
      && IsCalled(db, after, m, cfg.providers[k], 1) && IsParked(cfg, db, after, m)
  {
    AcceptsIsSent(result);
    var (reserved, r) := Lifecycle.ReserveProviderAttempt(db, m, cfg.providers[k]);
    assert IsReservedFor(reserved, m, r.attempt) && HasStatus(reserved, m, AwaitingProviderResult);
  }

  // --- The whole pass ---------------------------------------------------------------------------------------------

  /** Providers from `from` on refuse, up to `k`, which does not. */
  ghost predicate StopsAt(answer: nat -> SendResult, from: nat, k: nat) {
    from <= k && !Refuses(answer(k)) && forall j: nat :: from <= j < k ==> Refuses(answer(j))
  }

  /** The pass ends with provider `k`, `n` calls after `db`. */
  ghost predicate EndsWith(cfg: Config, db: Db, p: Processed, m: MessageId, k: nat, n: nat, result: SendResult)
    requires k < |cfg.providers|
  {
    && p.calls == k + 1 && IsCalled(db, p.db, m, cfg.providers[k], n)
    && if Accepts(result) then
         p.outcome == SentBy(cfg.providers[k]) && IsSentUnder(db, p.db, m, result.providerMessageId.value)
       else
         p.outcome == AwaitingResult && IsParked(cfg, db, p.db, m)
  }

  lemma {:induction false} PassEndsWith(cfg: Config, db: Db, m: MessageId, round: nat, failures: seq<bool>,
                                        answer: nat -> SendResult, k: nat)
    requires cfg.expiryMs > 0 && HasStatus(db, m, Processing)
    requires k < |cfg.providers| && StopsAt(answer, |failures|, k)
    ensures EndsWith(cfg, db, PassFrom(cfg, db, m, round, failures, answer, Calm), m, k, k - |failures| + 1, answer(k))
    decreases k - |failures|
  {
    var i := |failures|;
    if i == k {
      LastTurn(cfg, db, m, round, failures, answer);
    } else {
      RefusedTurn(cfg, db, m, i, answer(i));
      var after := TakeTurn(cfg, db, m, i, answer(i), Calm).0;
      PassEndsWith(cfg, after, m, round, failures + [answer(i).isRetryable], answer, k);
      OneMoreCall(cfg, db, after, PassFrom(cfg, after, m, round, failures + [answer(i).isRetryable], answer, Calm),
                  m, cfg.providers[i], k, k - i, answer(k));
    }
  }

  lemma LastTurn(cfg: Config, db: Db, m: MessageId, round: nat, failures: seq<bool>, answer: nat -> SendResult)
    requires cfg.expiryMs > 0 && HasStatus(db, m, Processing) && |failures| < |cfg.providers| && !Refuses(answer(|failures|))
    ensures EndsWith(cfg, db, PassFrom(cfg, db, m, round, failures, answer, Calm), m, |failures|, 1, answer(|failures|))
  {
    if Accepts(answer(|failures|)) {
      AcceptedTurn(cfg, db, m, |failures|, answer(|failures|));
    } else {
      UnsureTurn(cfg, db, m, |failures|, answer(|failures|));
    }
  }

  lemma OneMoreCall(cfg: Config, db: Db, next: Db, p: Processed, m: MessageId, provider: string, k: nat, n: nat, result: SendResult)
    requires k < |cfg.providers| && IsCalled(db, next, m, provider, 1) && EndsWith(cfg, next, p, m, k, n, result)
    requires next.messages[m].providerMessageId == db.messages[m].providerMessageId
    requires next.outbox == db.outbox && next.nextEvent == db.nextEvent
    ensures EndsWith(cfg, db, p, m, k, n + 1, result)
  {
  }

  /** An undisturbed job of a waiting message, whose first provider that does not refuse is number `k`: if that
      one accepts with a provider id that is not just white space, the message is sent under exactly that id;
      otherwise it is parked, its expiry scheduled. */
  lemma JobEndsWith(cfg: Config, db: Db, m: MessageId, answer: nat -> SendResult, k: nat)
    requires cfg.expiryMs > 0 && m in db.messages && (db.messages[m].status == Queued || db.messages[m].status == RetryScheduled)
    requires k < |cfg.providers| && StopsAt(answer, 0, k)
    ensures EndsWith(cfg, db, Process(cfg, db, m, AtOnce(), answer, Calm), m, k, k + 1, answer(k))
  {
    var claimed := Lifecycle.BeginProcessing(db, m).0;
    PassEndsWith(cfg, claimed, m, db.messages[m].retryRounds, [], answer, k);
    ClaimedEndsWith(cfg, db, claimed, PassFrom(cfg, claimed, m, db.messages[m].retryRounds, [], answer, Calm), m, k, answer(k));
  }

  lemma ClaimedEndsWith(cfg: Config, db: Db, claimed: Db, p: Processed, m: MessageId, k: nat, result: SendResult)
    requires k < |cfg.providers| && m in db.messages && m in claimed.messages && EndsWith(cfg, claimed, p, m, k, k + 1, result)
    requires claimed.messages[m] == db.messages[m].(status := Processing, updatedAt := db.clock)
    requires claimed == db.(messages := claimed.messages)
    ensures EndsWith(cfg, db, p, m, k, k + 1, result)
  {
  }

  // --- When every provider refuses ----------------------------------------------------------------------------------

  /** One more round is due after base * 2^round milliseconds. */
  predicate IsDueAgain(cfg: Config, db: Db, after: Db, m: MessageId) {
    && HasStatus(after, m, RetryScheduled) && m in db.messages
    && after.messages[m].retryRounds == db.messages[m].retryRounds + 1
    && after.nextEvent == db.nextEvent + 1
    && after.outbox == db.outbox[db.nextEvent := OutboxEvent(m, RetryDue,
         DelayedPayload(m, cfg.backoffBase * Pow2(db.messages[m].retryRounds)), false, 0, None)]
  }

  predicate IsDead(db: Db, after: Db, m: MessageId) {
    && HasStatus(after, m, FatalFailure) && m in db.messages
    && after.messages[m].retryRounds == db.messages[m].retryRounds
    && after.nextEvent == db.nextEvent + 1
    && after.outbox == db.outbox[db.nextEvent := OutboxEvent(m, DeadLettered, MessagePayload(m), false, 0, None)]
  }

  ghost predicate AllRefuse(answer: nat -> SendResult, from: nat, n: nat) {
    forall j: nat :: from <= j < n ==> Refuses(answer(j))
  }

  /** Every failure may pass, so that another round makes sense. */
  ghost predicate AllTransient(answer: nat -> SendResult, n: nat) {
    n > 0 && forall j: nat :: j < n ==> answer(j).isRetryable
  }

  ghost predicate EndsRefused(cfg: Config, db: Db, p: Processed, m: MessageId, round: nat, answer: nat -> SendResult) {
    var n := |cfg.providers|;
    && p.calls == n
    && m in p.db.messages
    && p.db.messages[m].lastError == Some(if n == 0 then NoProvidersConfigured else ProvidersFailed(cfg.providers))
    && if AllTransient(answer, n) && round < cfg.maxRounds then
         p.outcome == RetryIsScheduled && IsDueAgain(cfg, db, p.db, m)
       else
         p.outcome == DeadLetter(if AllTransient(answer, n) then RoundsExhausted else Permanent) && IsDead(db, p.db, m)
  }

  lemma {:induction false} PassEndsRefused(cfg: Config, db: Db, m: MessageId, failures: seq<bool>, answer: nat -> SendResult)
    requires HasStatus(db, m, Processing) && |failures| <= |cfg.providers| && AllRefuse(answer, |failures|, |cfg.providers|)
    requires forall j: nat :: j < |failures| ==> failures[j] == answer(j).isRetryable
    ensures var round := db.messages[m].retryRounds;
      EndsRefused(cfg, db, PassFrom(cfg, db, m, round, failures, answer, Calm), m, round, answer)
    decreases |cfg.providers| - |failures|
  {
    var k := |failures|;
    if k == |cfg.providers| {
      Decision(cfg, db, m, failures, answer);
    } else {
      RefusedTurn(cfg, db, m, k, answer(k));
      PassEndsRefused(cfg, TakeTurn(cfg, db, m, k, answer(k), Calm).0, m, failures + [answer(k).isRetryable], answer);
    }
  }

  lemma Decision(cfg: Config, db: Db, m: MessageId, failures: seq<bool>, answer: nat -> SendResult)
    requires HasStatus(db, m, Processing) && |failures| == |cfg.providers|
    requires forall j: nat :: j < |failures| ==> failures[j] == answer(j).isRetryable
    ensures var round := db.messages[m].retryRounds;
      EndsRefused(cfg, db, PassFrom(cfg, db, m, round, failures, answer, Calm), m, round, answer)
  {
    var worker := Worker(m, db.messages[m].retryRounds, failures, Ready);
    assert AllTransient(answer, |cfg.providers|) <==> failures != [] && AllTrue(failures);
    DecidedRow(cfg, db, worker);
  }

  lemma DecidedRow(cfg: Config, db: Db, worker: Worker)
    requires HasStatus(db, worker.message, Processing) && |worker.failures| == |cfg.providers|
    requires worker.round == db.messages[worker.message].retryRounds
    ensures var again := worker.failures != [] && AllTrue(worker.failures);
      var (after, outcome) := DecideRound(cfg, db, worker, Calm);
      && worker.message in after.messages
      && after.messages[worker.message].lastError ==
           Some(if |cfg.providers| == 0 then NoProvidersConfigured else ProvidersFailed(cfg.providers))
      && if again && worker.round < cfg.maxRounds then
           outcome == RetryIsScheduled && IsDueAgain(cfg, db, after, worker.message)
         else
           outcome == DeadLetter(if again then RoundsExhausted else Permanent) && IsDead(db, after, worker.message)
  {
    assert cfg.providers[..|worker.failures|] == cfg.providers;
  }

  /** An undisturbed job that every provider refuses: another round exactly when every failure may pass and the
      rounds are not used up, otherwise a dead letter. */
  lemma JobEndsRefused(cfg: Config, db: Db, m: MessageId, answer: nat -> SendResult)
    requires m in db.messages && (db.messages[m].status == Queued || db.messages[m].status == RetryScheduled)
    requires AllRefuse(answer, 0, |cfg.providers|)
    ensures EndsRefused(cfg, db, Process(cfg, db, m, AtOnce(), answer, Calm), m, db.messages[m].retryRounds, answer)
  {
    PassEndsRefused(cfg, Lifecycle.BeginProcessing(db, m).0, m, [], answer);
  }

  // --- Jobs that never get to a provider ---------------------------------------------------------------------------

  /** A job for a message that does not wait is acknowledged without a trace. */
  lemma JobSkips(cfg: Config, db: Db, m: MessageId, reading: Reading, answer: nat -> SendResult, env: nat -> Db -> Db)
    requires m in db.messages ==> db.messages[m].status != Queued && db.messages[m].status != RetryScheduled
    ensures Process(cfg, db, m, reading, answer, env) == Processed(db, Skipped, 0)
  {
  }

  /** A body that does not decrypt makes the job throw after its claim. */
  lemma JobCannotRead(cfg: Config, db: Db, m: MessageId, reading: Reading, answer: nat -> SendResult, env: nat -> Db -> Db)
    requires m in db.messages && (db.messages[m].status == Queued || db.messages[m].status == RetryScheduled)
    requires var claimed := db.(messages := db.messages[m := db.messages[m].(status := Processing, updatedAt := db.clock)]);
      m in reading.meanwhile(claimed).messages
    requires !reading.decrypts
    ensures var claimed := db.(messages := db.messages[m := db.messages[m].(status := Processing, updatedAt := db.clock)]);
      Process(cfg, db, m, reading, answer, env) == Processed(reading.meanwhile(claimed), Threw, 0)
  {
  }

  /** A row that is gone when the body is read, but back for the dead letter: written, lost to a race, or refused. */
  lemma GiveUpVerdict(db: Db, m: MessageId, env: nat -> Db -> Db)
    ensures var (after, outcome) := GiveUp(db, m, env);
      var found := env(0)(db);
      if m !in found.messages || found.messages[m].status != Processing then outcome == Threw && after == found
      else if !HasStatus(env(1)(found), m, Processing) then outcome == Skipped && after == env(1)(found)
      else
        && outcome == DeadLetter(MessageMissing) && HasStatus(after, m, FatalFailure)
        && after.messages[m].lastError == Some(RowDisappeared)
        && Appends(env(1)(found), after, m, DeadLettered, MessagePayload(m))
  {
  }

  // --- Sent messages are reachable --------------------------------------------------------------------------------

  /** Under every configuration with a provider, and under any visible id. */
  lemma SentIsReachable(cfg: Config, m: MessageId, id: string)
    requires cfg.providers != [] && IsVisible(id)
    ensures exists v :: IsReachable(cfg, v) && HasStatus(v.db, m, Sent) && v.db.messages[m].providerMessageId == Some(id)
  {
    var w := InFlightFirst(cfg, m);
    SentFromReserved(cfg, w, m, id);
  }

  lemma SentFromReserved(cfg: Config, w: World, m: MessageId, id: string)
    requires IsReachable(cfg, w) && IsVisible(id) && IsInFlight(w, m)
    ensures exists v :: IsReachable(cfg, v) && HasStatus(v.db, m, Sent) && v.db.messages[m].providerMessageId == Some(id)
  {
    var answer := SendResult(true, Some(id), None, false, None);
    AcceptsIsSent(answer);
    ReachNext(cfg, w, Work(0, CallProvider(answer, true)));
    var called := NextCall(w, 0, answer, true);
    ReachNext(cfg, called, Work(0, Finalize));
    var v := NextFinalize(cfg, called, 0);
    assert HasStatus(v.db, m, Sent);
  }
}
