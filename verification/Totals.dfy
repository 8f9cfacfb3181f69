// The counting theorems over whole runs, stated over the tables: how many claims, attempts, retries and
// provider calls a message has had.
module Totals {
  import opened StateMachine
  import opened Tables
  import opened Providers
  import opened Protocol
  import opened SafetyTheorems
  import opened Dispatch
  import opened Accounting
  import opened Bounds
  import opened Rounds

  /** The rounds and delays of `m` that the whole outbox tells. */
  function RoundsOf(db: Db, m: MessageId): nat {
    |RetriesSince(db.outbox, m, db.nextEvent)|
  }

  function DelaysOf(db: Db, m: MessageId): nat {
    DelaySum(db.outbox, RetriesSince(db.outbox, m, db.nextEvent), db.nextEvent)
  }

  ghost predicate BooksAgree(w: World, m: MessageId)
    requires m in w.db.messages
  {
    var tally := TallyOf(w.db.outbox, m);
    var row := w.db.messages[m];
    && m in w.ledger
    && tally.queued == 1
    && tally.queued + tally.retries + tally.recovered + tally.requeued == w.ledger[m].claims + One(IsWaiting(w.db, m))
    && tally.deadLettered == tally.requeued + One(row.status == FatalFailure)
    && row.deliveryAttempts == |AttemptsOf(w.db.attempts, m)| + tally.retries
    && row.retryRounds == RoundsOf(w.db, m)
  }

  lemma BooksAgreeHere(w: World, m: MessageId)
    requires Accounts(w) && RoundsTold(w) && m in w.db.messages
    ensures BooksAgree(w, m)
  {
    assert Balanced(w.db, m, w.ledger[m]);
    assert Tells(w.db, m, w.ledger[m].retriesSinceRequeue, w.ledger[m].delaySinceRequeue);
  }

  /** In every reachable state the books of every message balance: each event that hands it to the workers
      was answered by one claim, except the last while it waits; each dead letter was requeued, except the
      last while it is fatal; the attempt counter is the attempts and retry events, and the round counter the
      retry events since the last requeue event. */
  lemma BooksBalance(cfg: Config, clock: Time, acts: seq<Action>, m: MessageId)
    requires IsRun(cfg, Init(clock), acts) && m in After(cfg, Init(clock), acts).db.messages
    ensures BooksAgree(After(cfg, Init(clock), acts), m)
  {
    InitIsSafe(clock);
    RunKeepsAccounts(cfg, Init(clock), acts);
    RunKeepsRounds(cfg, Init(clock), acts);
    BooksAgreeHere(After(cfg, Init(clock), acts), m);
  }

  /** The bound on the calls, for every message ever created; and for a message that is still stored, with
      its requeues, recoveries, rounds and delays read off its events. */
  ghost predicate WorkIsBounded(cfg: Config, w: World, m: MessageId)
    requires m in w.ledger
  {
    var calls := CountCalls(w.calls, m);
    && calls <= MostCalls(cfg, w.ledger[m].requeues, w.ledger[m].recoveries)
    && (m in w.db.messages ==>
          var tally := TallyOf(w.db.outbox, m);
          var row := w.db.messages[m];
          && calls <= MostCalls(cfg, tally.requeued, tally.recovered)
          && row.retryRounds == RoundsOf(w.db, m) <= cfg.maxRounds
          && DelaysOf(w.db, m) == cfg.backoffBase * (Pow2(row.retryRounds) - 1))
  }

  lemma DelaysDouble(cfg: Config, w: World, m: MessageId)
    requires Bounded(cfg, w) && RoundsTold(w) && m in w.db.messages
    ensures DelaysOf(w.db, m) == cfg.backoffBase * (Pow2(RoundsOf(w.db, m)) - 1)
  {
    assert Tells(w.db, m, w.ledger[m].retriesSinceRequeue, w.ledger[m].delaySinceRequeue);
    assert WithinBudget(cfg, w.ledger[m]);
    DelaysAreSummed(w.db.outbox, m, w.db.nextEvent);
  }

  lemma RoundsAreBounded(cfg: Config, w: World, m: MessageId)
    requires Bounded(cfg, w) && Accounts(w) && RoundsTold(w) && m in w.db.messages
    ensures w.db.messages[m].retryRounds == RoundsOf(w.db, m) <= cfg.maxRounds
    ensures DelaysOf(w.db, m) == cfg.backoffBase * (Pow2(w.db.messages[m].retryRounds) - 1)
  {
    DelaysDouble(cfg, w, m);
    BooksAgreeHere(w, m);
  }

  lemma WorkIsBoundedHere(cfg: Config, w: World, m: MessageId)
    requires Bounded(cfg, w) && Accounts(w) && RoundsTold(w) && m in w.ledger
    ensures WorkIsBounded(cfg, w, m)
  {
    BoundedWorkStep(cfg, w, m);
    if m in w.db.messages {
      RoundsAreBounded(cfg, w, m);
    }
  }

  /** With n providers and at most M retry rounds, a message that was requeued q times and recovered c times
      has had at most n * ((M + 1) * (q + 1) + c) provider calls, whatever else happened; its round counter
      never exceeds M, and the delays in its retry events since the last requeue add up to
      base * (2^rounds - 1). */
  lemma BoundedWork(cfg: Config, clock: Time, acts: seq<Action>, m: MessageId)
    requires IsRun(cfg, Init(clock), acts) && IsPatientRun(cfg, Init(clock), acts)
    requires m in After(cfg, Init(clock), acts).ledger
    ensures WorkIsBounded(cfg, After(cfg, Init(clock), acts), m)
  {
    InitIsSafe(clock);
    RunKeepsBounded(cfg, Init(clock), acts);
    RunKeepsRounds(cfg, Init(clock), acts);
    WorkIsBoundedHere(cfg, After(cfg, Init(clock), acts), m);
  }
}
