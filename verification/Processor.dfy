// The queue worker as it processes one dispatch job: claim, one pass over the providers with a durable
// reservation around each call, and the decision about another round. `env(i)` is what other
// transactions commit before the worker's i-th own transaction after the claim.
module Processor {
  import opened StateMachine
  import opened Tables
  import opened Lifecycle
  import opened LifecycleRepository
  import opened Providers
  import Protocol

  type Config = Protocol.Config

  datatype Reason = Permanent | RoundsExhausted | MessageMissing

  datatype Outcome =
    | Skipped
    | SentBy(provider: string)
    | AwaitingResult
    | RetryIsScheduled
    | DeadLetter(reason: Reason)
    | Threw

  /** What a job came to: the database, the outcome, and how many providers were called. */
  datatype Processed = Processed(db: Db, outcome: Outcome, calls: nat)

  function DecisionOutcome(cfg: Config, worker: Protocol.Worker, r: GuardedResult): Outcome {
    match r
    case Moved(_) =>
      if Protocol.RetriesAgain(cfg, worker) then RetryIsScheduled
      else DeadLetter(if worker.failures != [] && AllTrue(worker.failures) then RoundsExhausted else Permanent)
    case GuardLostRace => Skipped
    case _ => Threw
  }

  function DecideRound(cfg: Config, db: Db, worker: Protocol.Worker, env: nat -> Db -> Db): (Db, Outcome) {
    var n := |cfg.providers|;
    var (after, r) := Lifecycle.GuardedTransition(
      env(2 * n)(db), worker.message, Protocol.DecisionTarget(cfg, worker), Protocol.DecisionPatch(cfg, worker), env(2 * n + 1));
    (after, DecisionOutcome(cfg, worker, r))
  }

  /** What one provider's turn comes to: the job ends here, or its definitive failure is noted. */
  datatype Turn = Ended(outcome: Outcome, calls: nat) | FailedTurn(isRetryable: bool)

  function TakeTurn(cfg: Config, db: Db, m: MessageId, k: nat, result: SendResult, env: nat -> Db -> Db): (Db, Turn)
    requires k < |cfg.providers|
  {
    var (reserved, r) := Lifecycle.ReserveProviderAttempt(env(2 * k)(db), m, cfg.providers[k]);
    match r
    case NotReservable => (reserved, Ended(Skipped, k))
    case ReservedAs(a) => RecordAnswer(cfg, env(2 * k + 1)(reserved), m, k, a, result)
  }

  /** The half of a turn after the provider's answer. */
  function RecordAnswer(cfg: Config, db: Db, m: MessageId, k: nat, a: AttemptId, result: SendResult): (Db, Turn)
    requires k < |cfg.providers|
  {
    var input := AnswerOf(result, cfg.expiryMs);
    var (after, f) := Lifecycle.FinalizeProviderAttempt(db, m, a, input);
    (after,
     if !f.Finalized? then Ended(Threw, k + 1)
     else if IsSent(result) then Ended(SentBy(cfg.providers[k]), k + 1)
     else if input.isAmbiguous then Ended(AwaitingResult, k + 1)
     else FailedTurn(input.isRetryable))
  }

  /** The rest of a pass from provider `|failures|` on. */
  function PassFrom(cfg: Config, db: Db, m: MessageId, round: nat, failures: seq<bool>, answer: nat -> SendResult,
                    env: nat -> Db -> Db): Processed
    requires |failures| <= |cfg.providers|
    decreases |cfg.providers| - |failures|
  {
    var k := |failures|;
    if k == |cfg.providers| then
      var (after, outcome) := DecideRound(cfg, db, Protocol.Worker(m, round, failures, Protocol.Ready), env);
      Processed(after, outcome, k)
    else
      var (after, turn) := TakeTurn(cfg, db, m, k, answer(k), env);
      match turn
      case Ended(outcome, calls) => Processed(after, outcome, calls)
      case FailedTurn(isRetryable) => PassFrom(cfg, after, m, round, failures + [isRetryable], answer, env)
  }

  /** The read of the message body after the claim: what others commit before it, and whether it decrypts. */
  datatype Reading = Reading(meanwhile: Db -> Db, decrypts: bool)

  function AtOnce(): Reading {
    Reading(db => db, true)
  }

  /** A job whose row is gone when its body is read asks for a dead letter. */
  function GiveUp(db: Db, m: MessageId, env: nat -> Db -> Db): (Db, Outcome) {
    var (after, r) := Lifecycle.GuardedTransition(env(0)(db), m, FatalFailure, FatalPatch(RowDisappeared), env(1));
    (after, if r.Moved? then DeadLetter(MessageMissing) else if r.GuardLostRace? then Skipped else Threw)
  }

  /** The whole job. */
  function Process(cfg: Config, db: Db, m: MessageId, reading: Reading, answer: nat -> SendResult,
                   env: nat -> Db -> Db): Processed {
    var (claimed, begin) := Lifecycle.BeginProcessing(db, m);
    match begin
    case NotStartable => Processed(claimed, Skipped, 0)
    case Started(row) =>
      var found := reading.meanwhile(claimed);
      if m !in found.messages then
        var (after, outcome) := GiveUp(found, m, env);
        Processed(after, outcome, 0)
      else if reading.decrypts then
        PassFrom(cfg, found, m, row.retryRounds, [], answer, env)
      else
        Processed(found, Threw, 0)
  }

  class SmsProcessor {
    const lifecycle: SmsLifecycleRepository
    const cfg: Config

    constructor (lifecycle: SmsLifecycleRepository, cfg: Config)
      ensures this.lifecycle == lifecycle && this.cfg == cfg
    {
      this.lifecycle, this.cfg := lifecycle, cfg;
    }

    method ProcessDispatch(m: MessageId, reading: Reading, answer: nat -> SendResult, env: nat -> Db -> Db)
      returns (outcome: Outcome, called: seq<string>)
      modifies lifecycle.db
      ensures var p := Process(cfg, old(lifecycle.db.View()), m, reading, answer, env);
        && lifecycle.db.View() == p.db && outcome == p.outcome
        && p.calls <= |cfg.providers| && called == cfg.providers[..p.calls]
    {
      called := [];
      var begin := lifecycle.BeginProcessing(m);
      if begin.NotStartable? {
        return Skipped, called;
      }
      lifecycle.db.Load(reading.meanwhile(lifecycle.db.View()));
      if m !in lifecycle.db.messages {
        outcome := GuardMissingRow(m, env);
        return;
      }
      if !reading.decrypts {
        return Threw, called;
      }
      ghost var whole := Process(cfg, old(lifecycle.db.View()), m, reading, answer, env);
      var round := begin.claimed.retryRounds;
      var failures: seq<bool> := [];
      while |failures| < |cfg.providers|
        invariant |failures| <= |cfg.providers|
        invariant whole == PassFrom(cfg, lifecycle.db.View(), m, round, failures, answer, env)
        decreases |cfg.providers| - |failures|
      {
        var k := |failures|;
        var turn := TryProvider(m, k, answer(k), env);
        match turn {
          case Ended(ending, calls) =>
            return ending, cfg.providers[..calls];
          case FailedTurn(isRetryable) =>
            failures := failures + [isRetryable];
        }
      }
      called := cfg.providers;
      assert called == cfg.providers[..|failures|];
      outcome := GuardConcurrency(m, round, failures, env);
    }

    /** The dead letter for a row that is gone; again a lost race is benign and other errors are rethrown. */
    method GuardMissingRow(m: MessageId, env: nat -> Db -> Db) returns (outcome: Outcome)
      modifies lifecycle.db
      ensures (lifecycle.db.View(), outcome) == GiveUp(old(lifecycle.db.View()), m, env)
    {
      lifecycle.db.Load(env(0)(lifecycle.db.View()));
      var r := lifecycle.MarkFatalFailure(m, RowDisappeared, env(1));
      outcome := if r.Moved? then DeadLetter(MessageMissing) else if r.GuardLostRace? then Skipped else Threw;
    }

    /** Reserve, call, and record the answer. */
    method TryProvider(m: MessageId, k: nat, result: SendResult, env: nat -> Db -> Db) returns (turn: Turn)
      requires k < |cfg.providers|
      modifies lifecycle.db
      ensures (lifecycle.db.View(), turn) == TakeTurn(cfg, old(lifecycle.db.View()), m, k, result, env)
      ensures turn.Ended? ==> turn.calls <= k + 1
    {
      lifecycle.db.Load(env(2 * k)(lifecycle.db.View()));
      var reservation := lifecycle.ReserveProviderAttempt(m, cfg.providers[k]);
      if reservation.NotReservable? {
        return Ended(Skipped, k);
      }
      // The provider is called here; other transactions may commit while it works.
      lifecycle.db.Load(env(2 * k + 1)(lifecycle.db.View()));
      if result.success && HasUsableId(result) {
        var sent := lifecycle.FinalizeProviderAttempt(m, reservation.attempt, AcceptedWith(result.providerMessageId.value));
        return Ended(if sent.Finalized? then SentBy(cfg.providers[k]) else Threw, k + 1);
      }
      var c := Classify(result);
      var expiryMs := if c.isAmbiguous then Some(cfg.expiryMs) else None;
      var noted := lifecycle.FinalizeProviderAttempt(m, reservation.attempt,
        FailedWith(c.isAmbiguous, c.isRetryable, c.errorMessage, expiryMs));
      if !noted.Finalized? {
        return Ended(Threw, k + 1);
      }
      turn := if c.isAmbiguous then Ended(AwaitingResult, k + 1) else FailedTurn(c.isRetryable);
    }

    /** A lost race is benign; every other error is rethrown. */
    method GuardConcurrency(m: MessageId, round: nat, failures: seq<bool>, env: nat -> Db -> Db) returns (outcome: Outcome)
      requires |failures| == |cfg.providers|
      modifies lifecycle.db
      ensures (lifecycle.db.View(), outcome)
           == DecideRound(cfg, old(lifecycle.db.View()), Protocol.Worker(m, round, failures, Protocol.Ready), env)
    {
      var n := |cfg.providers|;
      lifecycle.db.Load(env(2 * n)(lifecycle.db.View()));
      var allRetryable := failures != [] && AllTrue(failures);
      var summary := SummarizeFailures(cfg.providers[..|failures|]);
      if allRetryable && round < cfg.maxRounds {
        var r := lifecycle.ScheduleRetry(m, true, BackoffDelayMs(round, cfg.backoffBase), Some(summary), env(2 * n + 1));
        outcome := if r.Moved? then RetryIsScheduled else if r.GuardLostRace? then Skipped else Threw;
      } else {
        var r := lifecycle.MarkFatalFailure(m, summary, env(2 * n + 1));
        outcome := if r.Moved? then DeadLetter(if allRetryable then RoundsExhausted else Permanent)
                   else if r.GuardLostRace? then Skipped else Threw;
      }
    }
  }
}
