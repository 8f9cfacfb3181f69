// The books balance: counters, event counts and claims of every message agree in every reachable state.
module Accounting {
  import opened StateMachine
  import opened Tables
  import opened Lifecycle
  import opened Persistence
  import opened Retention
  import opened Providers
  import opened Protocol
  import opened Safety
  import opened SafetyTheorems
  import opened Dispatch

  // --- Counting rows --------------------------------------------------------------------------

  function EventsOf(outbox: map<EventId, OutboxEvent>, m: MessageId, t: EventType): set<EventId> {
    set e | e in outbox && outbox[e].aggregateId == m && outbox[e].eventType == t
  }

  function AttemptsOf(attempts: map<AttemptId, Attempt>, m: MessageId): set<AttemptId> {
    set a | a in attempts && attempts[a].message == m
  }

  datatype Tally = Tally(queued: nat, retries: nat, recovered: nat, requeued: nat, deadLettered: nat)

  function TallyOf(outbox: map<EventId, OutboxEvent>, m: MessageId): Tally {
    Tally(|EventsOf(outbox, m, MessageQueued)|, |EventsOf(outbox, m, RetryDue)|,
          |EventsOf(outbox, m, ProcessingRecovered)|, |EventsOf(outbox, m, Requeued)|,
          |EventsOf(outbox, m, DeadLettered)|)
  }

  function Counted(tally: Tally, t: EventType): Tally {
    match t
    case MessageQueued => tally.(queued := tally.queued + 1)
    case RetryDue => tally.(retries := tally.retries + 1)
    case ProcessingRecovered => tally.(recovered := tally.recovered + 1)
    case Requeued => tally.(requeued := tally.requeued + 1)
    case DeadLettered => tally.(deadLettered := tally.deadLettered + 1)
    case _ => tally
  }

  lemma EventsAfterAppend(outbox: map<EventId, OutboxEvent>, e: EventId, event: OutboxEvent, m: MessageId, t: EventType)
    requires e !in outbox
    ensures |EventsOf(outbox[e := event], m, t)|
         == |EventsOf(outbox, m, t)| + (if event.aggregateId == m && event.eventType == t then 1 else 0)
  {
    if event.aggregateId == m && event.eventType == t {
      assert EventsOf(outbox[e := event], m, t) == EventsOf(outbox, m, t) + {e};
    } else {
      assert EventsOf(outbox[e := event], m, t) == EventsOf(outbox, m, t);
    }
  }

  /** One appended event is counted once, for its own message and type. */
  lemma TallyAfterAppend(outbox: map<EventId, OutboxEvent>, e: EventId, event: OutboxEvent, m: MessageId)
    requires e !in outbox
    ensures TallyOf(outbox[e := event], m) ==
      if event.aggregateId == m then Counted(TallyOf(outbox, m), event.eventType) else TallyOf(outbox, m)
  {
    EventsAfterAppend(outbox, e, event, m, MessageQueued);
    EventsAfterAppend(outbox, e, event, m, RetryDue);
    EventsAfterAppend(outbox, e, event, m, ProcessingRecovered);
    EventsAfterAppend(outbox, e, event, m, Requeued);
    EventsAfterAppend(outbox, e, event, m, DeadLettered);
  }

  /** Marks do not change the counts, nor does removing other messages' events. */
  lemma TallyOfSameOrigins(before: map<EventId, OutboxEvent>, after: map<EventId, OutboxEvent>, m: MessageId)
    requires forall e :: e in after ==> e in before && OriginOf(after[e]) == OriginOf(before[e])
    requires forall e :: e in before && before[e].aggregateId == m ==> e in after
    ensures TallyOf(after, m) == TallyOf(before, m)
  {
    SameEventsOf(before, after, m, MessageQueued);
    SameEventsOf(before, after, m, RetryDue);
    SameEventsOf(before, after, m, ProcessingRecovered);
    SameEventsOf(before, after, m, Requeued);
    SameEventsOf(before, after, m, DeadLettered);
  }

  lemma SameEventsOf(before: map<EventId, OutboxEvent>, after: map<EventId, OutboxEvent>, m: MessageId, t: EventType)
    requires forall e :: e in after ==> e in before && OriginOf(after[e]) == OriginOf(before[e])
    requires forall e :: e in before && before[e].aggregateId == m ==> e in after
    ensures EventsOf(after, m, t) == EventsOf(before, m, t)
  {
    forall e | e in EventsOf(before, m, t) ensures e in EventsOf(after, m, t) {
      assert OriginOf(after[e]) == OriginOf(before[e]);
    }
    forall e | e in EventsOf(after, m, t) ensures e in EventsOf(before, m, t) {
      assert OriginOf(after[e]) == OriginOf(before[e]);
    }
  }

  // --- The books of one message --------------------------------------------------------------------

  function One(b: bool): nat {
    if b then 1 else 0
  }

  /** The event counts, the conservation of claims and of dead letters, and the two counters of the row. */
  ghost predicate Balanced(db: Db, m: MessageId, book: Ledger)
    requires m in db.messages
  {
    var row := db.messages[m];
    && TallyOf(db.outbox, m) == Tally(1, book.retries, book.recoveries, book.requeues, book.deadLetters)
    && 1 + book.retries + book.recoveries + book.requeues == book.claims + One(IsStartable(row.status))
    && book.deadLetters == book.requeues + One(row.status == FatalFailure)
    && row.deliveryAttempts == |AttemptsOf(db.attempts, m)| + book.retries
    && row.retryRounds == book.retriesSinceRequeue
  }

  ghost predicate Accounts(w: World) {
    forall m :: m in w.db.messages ==> m in w.ledger && Balanced(w.db, m, w.ledger[m])
  }

  /** The parts of a row that the books depend on. */
  predicate SameStanding(was: Message, now: Message) {
    && (IsStartable(now.status) <==> IsStartable(was.status))
    && (now.status == FatalFailure <==> was.status == FatalFailure)
    && now.deliveryAttempts == was.deliveryAttempts
    && now.retryRounds == was.retryRounds
  }

  ghost predicate SameBooks(w: World, v: World, m: MessageId) {
    && m in w.db.messages && m in v.db.messages
    && SameStanding(w.db.messages[m], v.db.messages[m])
    && m in w.ledger && m in v.ledger
    && v.ledger[m] == w.ledger[m].(claimant := v.ledger[m].claimant)
    && TallyOf(v.db.outbox, m) == TallyOf(w.db.outbox, m)
    && AttemptsOf(v.db.attempts, m) == AttemptsOf(w.db.attempts, m)
  }

  lemma SameBooksBalance(w: World, v: World, m: MessageId)
    requires SameBooks(w, v, m) && Balanced(w.db, m, w.ledger[m])
    ensures Balanced(v.db, m, v.ledger[m])
  {
  }

  /** A step on one message `m0` leaves the rows and the ledgers of all others alone. */
  ghost predicate ConcernsOnly(w: World, v: World, m0: MessageId) {
    && (forall m :: m in v.db.messages && m != m0 ==> m in w.db.messages && v.db.messages[m] == w.db.messages[m])
    && (forall m :: m in w.ledger && m != m0 ==> m in v.ledger && v.ledger[m] == w.ledger[m])
  }

  lemma OthersKeepBooks(w: World, v: World, m0: MessageId)
    requires Accounts(w) && ConcernsOnly(w, v, m0)
    requires forall m :: m != m0 ==> TallyOf(v.db.outbox, m) == TallyOf(w.db.outbox, m)
    requires forall m :: m != m0 ==> AttemptsOf(v.db.attempts, m) == AttemptsOf(w.db.attempts, m)
    requires m0 in v.db.messages ==> m0 in v.ledger && Balanced(v.db, m0, v.ledger[m0])
    ensures Accounts(v)
  {
    forall m | m in v.db.messages ensures m in v.ledger && Balanced(v.db, m, v.ledger[m]) {
      if m != m0 {
        assert Balanced(w.db, m, w.ledger[m]);
        SameBooksBalance(w, v, m);
      }
    }
  }

  lemma AppendTallies(db: Db, after: Db, m0: MessageId, t: EventType, payload: Json)
    requires ForeignEvents(db) && Appends(db, after, m0, t, payload)
    ensures forall m :: m != m0 ==> TallyOf(after.outbox, m) == TallyOf(db.outbox, m)
    ensures TallyOf(after.outbox, m0) == Counted(TallyOf(db.outbox, m0), t)
  {
    var event := OutboxEvent(m0, t, payload, false, 0, None);
    assert db.nextEvent !in db.outbox;
    forall m ensures TallyOf(after.outbox, m) == if m == m0 then Counted(TallyOf(db.outbox, m), t) else TallyOf(db.outbox, m) {
      TallyAfterAppend(db.outbox, db.nextEvent, event, m);
    }
  }

  /** A step that writes no counted row: every message keeps its standing. */
  lemma NeutralBooks(w: World, v: World)
    requires Accounts(w)
    requires forall m :: m in v.db.messages ==> m in w.db.messages && SameStanding(w.db.messages[m], v.db.messages[m])
    requires forall m :: m in v.db.messages && m in w.ledger ==> m in v.ledger && v.ledger[m] == w.ledger[m]
    requires forall m :: m in v.db.messages ==> TallyOf(v.db.outbox, m) == TallyOf(w.db.outbox, m)
    requires forall m :: m in v.db.messages ==> AttemptsOf(v.db.attempts, m) == AttemptsOf(w.db.attempts, m)
    ensures Accounts(v)
  {
    forall m | m in v.db.messages ensures m in v.ledger && Balanced(v.db, m, v.ledger[m]) {
      assert Balanced(w.db, m, w.ledger[m]);
      SameBooksBalance(w, v, m);
    }
  }

  // --- Creation, claim, reservation, result ----------------------------------------------------------

  /** A fresh message has no rows yet, so its books open with its one queued event. */
  lemma CreateKeepsAccounts(cfg: Config, w: World, newId: MessageId, key: string, now: Time, owner: Option<KeyOwner>)
    requires Accounts(w) && ForeignKeys(w.db) && Enabled(cfg, w, Create(newId, key, now, owner))
    ensures Accounts(NextCreate(cfg, w, newId, key, now, owner))
  {
    var v := NextCreate(cfg, w, newId, key, now, owner);
    var (after, r) := CreateCommit(w.db, newId, key, now, cfg.ttlMs, owner);
    if r.Created? {
      CreateBooks(w.db, after, newId, r.row);
      CreateOthers(cfg, w, newId, key, now, owner);
      OthersKeepBooks(w, v, newId);
    }
  }

  lemma CreateOthers(cfg: Config, w: World, newId: MessageId, key: string, now: Time, owner: Option<KeyOwner>)
    requires Enabled(cfg, w, Create(newId, key, now, owner))
    requires CreateCommit(w.db, newId, key, now, cfg.ttlMs, owner).1.Created?
    ensures var v := NextCreate(cfg, w, newId, key, now, owner);
      && v.db == CreateCommit(w.db, newId, key, now, cfg.ttlMs, owner).0
      && ConcernsOnly(w, v, newId)
      && v.ledger == w.ledger[newId := EMPTY_LEDGER]
  {
  }

  lemma CreateBooks(db: Db, after: Db, newId: MessageId, row: Message)
    requires ForeignKeys(db) && newId !in db.messages && after.attempts == db.attempts
    requires Appends(db, after, newId, MessageQueued, MessagePayload(newId))
    requires newId in after.messages && after.messages[newId] == row
    requires row.status == Queued && row.deliveryAttempts == 0 && row.retryRounds == 0
    ensures Balanced(after, newId, EMPTY_LEDGER)
    ensures forall m :: m != newId ==> TallyOf(after.outbox, m) == TallyOf(db.outbox, m)
  {
    NoRowsYet(db, newId);
    AppendTallies(db, after, newId, MessageQueued, MessagePayload(newId));
  }

  lemma NoRowsYet(db: Db, m: MessageId)
    requires ForeignKeys(db) && m !in db.messages
    ensures TallyOf(db.outbox, m) == Tally(0, 0, 0, 0, 0) && AttemptsOf(db.attempts, m) == {}
  {
    forall t: EventType ensures EventsOf(db.outbox, m, t) == {} {
    }
  }

  ghost predicate RowsConcernOnly(db: Db, after: Db, m0: MessageId) {
    forall m :: m in after.messages && m != m0 ==> m in db.messages && after.messages[m] == db.messages[m]
  }

  lemma ClaimEffect(w: World, id: WorkerId, job: JobId)
    requires job in w.jobs && id !in w.workers
    ensures var v := NextClaim(w, job, id);
      var m := w.jobs[job].message;
      && v.calls == w.calls && RowsConcernOnly(w.db, v.db, m)
      && (!IsWaiting(w.db, m) ==> v.db == w.db && v.ledger == w.ledger && v.workers == w.workers)
      && (IsWaiting(w.db, m) ==>
            && HasStatus(v.db, m, Processing) && v.db.messages[m].retryRounds == w.db.messages[m].retryRounds
            && v.workers == w.workers[id := Worker(m, w.db.messages[m].retryRounds, [], Ready)]
            && (m in w.ledger ==> v.ledger == w.ledger[m := w.ledger[m].(claims := w.ledger[m].claims + 1, claimant := id)]))
  {
  }

  lemma ClaimBooks(db: Db, m: MessageId, book: Ledger, id: WorkerId)
    requires IsWaiting(db, m) && Balanced(db, m, book)
    ensures var after := BeginProcessing(db, m).0;
      m in after.messages && Balanced(after, m, book.(claims := book.claims + 1, claimant := id))
  {
  }

  lemma ClaimKeepsAccounts(w: World, job: JobId, id: WorkerId)
    requires Accounts(w) && job in w.jobs && id !in w.workers
    ensures Accounts(NextClaim(w, job, id))
  {
    var m := w.jobs[job].message;
    ClaimEffect(w, id, job);
    if IsWaiting(w.db, m) {
      assert Balanced(w.db, m, w.ledger[m]);
      ClaimBooks(w.db, m, w.ledger[m], id);
      OthersKeepBooks(w, NextClaim(w, job, id), m);
    } else {
      UnchangedBooks(w, NextClaim(w, job, id));
    }
  }

  lemma UnchangedBooks(w: World, v: World)
    requires Accounts(w) && v.db == w.db && v.ledger == w.ledger
    ensures Accounts(v)
  {
  }

  lemma AttemptsAfterAppend(attempts: map<AttemptId, Attempt>, a: AttemptId, row: Attempt, m: MessageId)
    requires a !in attempts
    ensures row.message != m ==> AttemptsOf(attempts[a := row], m) == AttemptsOf(attempts, m)
    ensures row.message == m ==> |AttemptsOf(attempts[a := row], m)| == |AttemptsOf(attempts, m)| + 1
  {
    if row.message == m {
      assert AttemptsOf(attempts[a := row], m) == AttemptsOf(attempts, m) + {a};
    } else {
      assert AttemptsOf(attempts[a := row], m) == AttemptsOf(attempts, m);
    }
  }

  lemma ReserveBooks(db: Db, m: MessageId, provider: string, book: Ledger)
    requires ForeignKeys(db) && HasStatus(db, m, Processing) && Balanced(db, m, book)
    ensures var after := ReserveProviderAttempt(db, m, provider).0;
      && m in after.messages && Balanced(after, m, book)
      && forall n :: n != m ==> AttemptsOf(after.attempts, n) == AttemptsOf(db.attempts, n)
  {
    var after := ReserveProviderAttempt(db, m, provider).0;
    var a := db.nextAttempt;
    assert after.attempts == db.attempts[a := after.attempts[a]];
    forall n {
      AttemptsAfterAppend(db.attempts, a, after.attempts[a], n);
    }
  }

  lemma ReserveKeepsAccounts(cfg: Config, w: World, id: WorkerId)
    requires Accounts(w) && ForeignKeys(w.db) && WorkEnabled(cfg, w, id, Reserve)
    ensures Accounts(NextReserve(cfg, w, id))
  {
    var m := w.workers[id].message;
    if HasStatus(w.db, m, Processing) {
      assert Balanced(w.db, m, w.ledger[m]);
      ReserveBooks(w.db, m, cfg.providers[|w.workers[id].failures|], w.ledger[m]);
      OthersKeepBooks(w, NextReserve(cfg, w, id), m);
    }
  }

  /** Recording an answer neither adds an attempt nor hands the message back to the workers. */
  lemma FinalizeStanding(db: Db, m: MessageId, a: AttemptId, input: FinalizeInput)
    ensures var after := FinalizeProviderAttempt(db, m, a, input).0;
      && (forall n :: n in after.messages ==> n in db.messages && SameStanding(db.messages[n], after.messages[n]))
      && (forall n :: AttemptsOf(after.attempts, n) == AttemptsOf(db.attempts, n))
  {
  }

  lemma FinalizeKeepsAccounts(cfg: Config, w: World, id: WorkerId)
    requires Accounts(w) && ForeignKeys(w.db) && WorkEnabled(cfg, w, id, Finalize)
    ensures Accounts(NextFinalize(cfg, w, id))
  {
    var worker := w.workers[id];
    var input := AnswerOf(worker.phase.result, cfg.expiryMs);
    FinalizeStanding(w.db, worker.message, worker.phase.answered, input);
    FinalizeTallies(w.db, worker.message, worker.phase.answered, input);
    NeutralBooks(w, NextFinalize(cfg, w, id));
  }

  lemma FinalizeTallies(db: Db, m: MessageId, a: AttemptId, input: FinalizeInput)
    requires ForeignEvents(db)
    ensures forall n :: TallyOf(FinalizeProviderAttempt(db, m, a, input).0.outbox, n) == TallyOf(db.outbox, n)
  {
    var (after, r) := FinalizeProviderAttempt(db, m, a, input);
    if r.Finalized? && input.FailedWith? && input.isAmbiguous {
      AppendTallies(db, after, m, AmbiguousExpiryScheduled, DelayedPayload(m, input.expiryMs.value));
    }
  }

  // --- Decision, recovery, requeue ----------------------------------------------------------------------

  /** The decided commit books a retry or a dead letter; both start from `Processing`. */
  ghost predicate BooksDecision(cfg: Config, db: Db, worker: Worker, book: Ledger) {
    var after := GuardedCommit(db, worker.message, Processing, DecisionTarget(cfg, worker), DecisionPatch(cfg, worker)).0;
    && worker.message in after.messages
    && Balanced(after, worker.message, DecidedBook(cfg, worker, book))
    && forall n :: n != worker.message ==> TallyOf(after.outbox, n) == TallyOf(db.outbox, n)
  }

  lemma RetryBooks(cfg: Config, db: Db, worker: Worker, book: Ledger)
    requires ForeignEvents(db) && HasStatus(db, worker.message, Processing) && Balanced(db, worker.message, book)
    requires RetriesAgain(cfg, worker)
    ensures BooksDecision(cfg, db, worker, book)
  {
    var m := worker.message;
    var patch := DecisionPatch(cfg, worker);
    var after := GuardedCommit(db, m, Processing, RetryScheduled, patch).0;
    AppendTallies(db, after, m, RetryDue, DelayedPayload(m, patch.delayMs));
  }

  lemma FatalBooks(cfg: Config, db: Db, worker: Worker, book: Ledger)
    requires ForeignEvents(db) && HasStatus(db, worker.message, Processing) && Balanced(db, worker.message, book)
    requires !RetriesAgain(cfg, worker)
    ensures BooksDecision(cfg, db, worker, book)
  {
    var m := worker.message;
    var after := GuardedCommit(db, m, Processing, FatalFailure, DecisionPatch(cfg, worker)).0;
    AppendTallies(db, after, m, DeadLettered, MessagePayload(m));
  }

  lemma DecideKeepsAccounts(cfg: Config, w: World, id: WorkerId)
    requires Accounts(w) && ForeignKeys(w.db) && DecidersAreSound(w) && WorkEnabled(cfg, w, id, Decide)
    ensures Accounts(NextDecide(cfg, w, id))
  {
    var m := w.workers[id].message;
    DecideOthers(cfg, w, id);
    if HasStatus(w.db, m, Processing) {
      assert Balanced(w.db, m, w.ledger[m]);
      if RetriesAgain(cfg, w.workers[id]) {
        RetryBooks(cfg, w.db, w.workers[id], w.ledger[m]);
      } else {
        FatalBooks(cfg, w.db, w.workers[id], w.ledger[m]);
      }
      OthersKeepBooks(w, NextDecide(cfg, w, id), m);
    }
  }

  lemma DecideOthers(cfg: Config, w: World, id: WorkerId)
    requires DecidersAreSound(w) && WorkEnabled(cfg, w, id, Decide)
    ensures var v := NextDecide(cfg, w, id);
      var m := w.workers[id].message;
      && ConcernsOnly(w, v, m) && v.db.attempts == w.db.attempts
      && (!HasStatus(w.db, m, Processing) ==> v.db == w.db && v.ledger == w.ledger)
      && (HasStatus(w.db, m, Processing) ==> m in v.ledger && v.ledger[m] == DecidedBook(cfg, w.workers[id], BookOf(w, m)))
  {
  }

  lemma RecoverBooks(db: Db, m: MessageId, cutoff: Time, book: Ledger)
    requires ForeignEvents(db) && RecoverOne(db, m, cutoff).1 && Balanced(db, m, book)
    ensures var after := RecoverOne(db, m, cutoff).0;
      && Balanced(after, m, book.(recoveries := book.recoveries + 1))
      && forall n :: n != m ==> TallyOf(after.outbox, n) == TallyOf(db.outbox, n)
  {
    AppendTallies(db, RecoverOne(db, m, cutoff).0, m, ProcessingRecovered, MessagePayload(m));
  }

  lemma RecoverKeepsAccounts(w: World, m: MessageId, cutoff: Time)
    requires Accounts(w) && ForeignKeys(w.db)
    ensures Accounts(NextRecover(w, m, cutoff))
  {
    if RecoverOne(w.db, m, cutoff).1 {
      assert Balanced(w.db, m, w.ledger[m]);
      RecoverBooks(w.db, m, cutoff, w.ledger[m]);
      RecoverOthers(w, m, cutoff);
      OthersKeepBooks(w, NextRecover(w, m, cutoff), m);
    }
  }

  lemma RecoverOthers(w: World, m: MessageId, cutoff: Time)
    requires RecoverOne(w.db, m, cutoff).1 && m in w.ledger
    ensures var v := NextRecover(w, m, cutoff);
      var book := w.ledger[m];
      && ConcernsOnly(w, v, m)
      && v.ledger == w.ledger[m := book.(recoveries := book.recoveries + 1)]
  {
  }

  lemma RequeueBooks(db: Db, m: MessageId, book: Ledger)
    requires ForeignEvents(db) && HasStatus(db, m, FatalFailure) && Balanced(db, m, book)
    ensures var after := RequeueCommit(db, m, FatalFailure).0;
      && m in after.messages
      && Balanced(after, m, book.(requeues := book.requeues + 1, retriesSinceRequeue := 0, delaySinceRequeue := 0))
      && forall n :: n != m ==> TallyOf(after.outbox, n) == TallyOf(db.outbox, n)
  {
    AppendTallies(db, RequeueCommit(db, m, FatalFailure).0, m, Requeued, MessagePayload(m));
  }

  lemma RequeueKeepsAccounts(w: World, m: MessageId)
    requires Accounts(w) && ForeignKeys(w.db)
    ensures Accounts(NextRequeue(w, m))
  {
    if HasStatus(w.db, m, FatalFailure) {
      assert Balanced(w.db, m, w.ledger[m]);
      RequeueBooks(w.db, m, w.ledger[m]);
      RequeueOthers(w, m);
      OthersKeepBooks(w, NextRequeue(w, m), m);
    }
  }

  lemma RequeueOthers(w: World, m: MessageId)
    requires HasStatus(w.db, m, FatalFailure) && m in w.ledger
    ensures var v := NextRequeue(w, m);
      var book := w.ledger[m];
      && ConcernsOnly(w, v, m)
      && v.ledger == w.ledger[m := book.(
            requeues := book.requeues + 1, retriesSinceRequeue := 0, delaySinceRequeue := 0)]
  {
  }

  /** Webhooks, resolutions and permanent failures start from a status that no worker may claim. */
  lemma OpStanding(w: World, op: OpId)
    requires OpsAreSound(w) && op in w.ops
    ensures var after := OpEffect(w.db, w.ops[op]);
      forall n :: n in after.messages ==> n in w.db.messages && SameStanding(w.db.messages[n], after.messages[n])
    ensures SameEvents(w.db, OpEffect(w.db, w.ops[op]))
  {
    match w.ops[op]
    case ReportOp(m, seen, terminal) =>
      OneRowStanding(w.db, ReportCommit(w.db, m, seen, terminal).0, m);
    case ResolveOp(m, a, input) =>
      OneRowStanding(w.db, ResolveCommit(w.db, m, a, input).0, m);
    case PermanentOp(m, seen, to, error) =>
      OneRowStanding(w.db, GuardedCommit(w.db, m, seen, to, PermanentPatch(error)).0, m);
  }

  lemma OneRowStanding(db: Db, after: Db, m: MessageId)
    requires OnlyRowOf(db, after, m)
    requires m in db.messages ==> SameStanding(db.messages[m], after.messages[m])
    ensures forall n :: n in after.messages ==> n in db.messages && SameStanding(db.messages[n], after.messages[n])
  {
  }

  lemma OperateKeepsAccounts(w: World, step: OperatorStep)
    requires Accounts(w) && Safe(w) && OperateEnabled(w, step)
    ensures Accounts(NextOperate(w, step))
  {
    match step
    case Recover(m, cutoff) => RecoverKeepsAccounts(w, m, cutoff);
    case Requeue(m) => RequeueKeepsAccounts(w, m);
    case CommitOp(op) => OpStanding(w, op); NeutralBooks(w, NextCommitOp(w, op));
    case _ => NeutralBooks(w, NextOperate(w, step));
  }

  // --- Relays, purge, whole runs ----------------------------------------------------------------------------

  /** Relays rewrite marks only. */
  lemma PublishSameOrigins(w: World, r: RelayId, step: RelayStep)
    requires PublishEnabled(w, r, step)
    ensures SameOrigins(w.db, NextPublish(w, r, step).db)
  {
    match step
    case Mark => MarkSameOrigins(w, r);
    case MarkUnseen => MarkUnseenSameOrigins(w, r);
    case NoteFailure(recorded) => FailFirstSameOrigins(w, r, recorded);
    case _ =>
  }

  ghost predicate SameOrigins(db: Db, after: Db) {
    && (forall e :: e in after.outbox <==> e in db.outbox)
    && (forall e :: e in db.outbox ==>
          OriginOf(after.outbox[e]) == OriginOf(db.outbox[e]) && after.outbox[e].payload == db.outbox[e].payload)
  }

  lemma MarkUnseenSameOrigins(w: World, r: RelayId)
    requires IsRelaying(w, r)
    ensures SameOrigins(w.db, NextMarkUnseen(w, r).db)
  {
  }

  lemma MarkSameOrigins(w: World, r: RelayId)
    requires PublishEnabled(w, r, Mark)
    ensures SameOrigins(w.db, NextMark(w, r).db)
  {
  }

  lemma FailFirstSameOrigins(w: World, r: RelayId, recorded: bool)
    requires IsRelaying(w, r)
    ensures SameOrigins(w.db, FailFirst(w, r, recorded).db)
  {
  }

  lemma PublishKeepsAccounts(w: World, r: RelayId, step: RelayStep)
    requires Accounts(w) && PublishEnabled(w, r, step)
    ensures Accounts(NextPublish(w, r, step))
  {
    var v := NextPublish(w, r, step);
    PublishSameOrigins(w, r, step);
    forall m {
      TallyOfSameOrigins(w.db.outbox, v.db.outbox, m);
    }
    NeutralBooks(w, v);
  }

  lemma PurgeKeepsAccounts(w: World, ids: set<MessageId>, now: Time)
    requires Accounts(w)
    ensures Accounts(NextPurge(w, ids, now))
  {
    var v := NextPurge(w, ids, now);
    PurgeIsExact(w.db, ids);
    forall m | m in v.db.messages
      ensures TallyOf(v.db.outbox, m) == TallyOf(w.db.outbox, m)
      ensures AttemptsOf(v.db.attempts, m) == AttemptsOf(w.db.attempts, m)
    {
      TallyOfSameOrigins(w.db.outbox, v.db.outbox, m);
    }
    NeutralBooks(w, v);
  }

  lemma WorkKeepsAccounts(cfg: Config, w: World, id: WorkerId, step: WorkerStep)
    requires Accounts(w) && Safe(w) && WorkEnabled(cfg, w, id, step)
    ensures Accounts(NextWork(cfg, w, id, step))
  {
    match step
    case Claim(job) => ClaimKeepsAccounts(w, job, id);
    case Reserve => ReserveKeepsAccounts(cfg, w, id);
    case Finalize => FinalizeKeepsAccounts(cfg, w, id);
    case Decide => DecideKeepsAccounts(cfg, w, id);
    case _ => NeutralBooks(w, NextWork(cfg, w, id, step));
  }

  lemma MaintenanceKeepsAccounts(w: World, job: JobId, effective: bool)
    requires Accounts(w) && job in w.jobs
    ensures Accounts(NextMaintenance(w, job, effective))
  {
    ExpireStanding(w.db, w.jobs[job].message);
    NeutralBooks(w, NextMaintenance(w, job, effective));
  }

  lemma ExpireStanding(db: Db, m: MessageId)
    ensures var after := ExpireAmbiguousOutcome(db, m).0;
      forall n :: n in after.messages ==> n in db.messages && SameStanding(db.messages[n], after.messages[n])
  {
    OneRowStanding(db, ExpireAmbiguousOutcome(db, m).0, m);
  }

  lemma NextKeepsAccounts(cfg: Config, w: World, act: Action)
    requires Accounts(w) && Safe(w) && Enabled(cfg, w, act)
    ensures Accounts(Next(cfg, w, act))
  {
    match act
    case Create(newId, key, now, owner) => CreateKeepsAccounts(cfg, w, newId, key, now, owner);
    case Work(id, step) => WorkKeepsAccounts(cfg, w, id, step);
    case Operate(step) => OperateKeepsAccounts(w, step);
    case Publish(r, step) => PublishKeepsAccounts(w, r, step);
    case PurgeBatch(ids, now) => PurgeKeepsAccounts(w, ids, now);
    case RunMaintenance(job, effective) => MaintenanceKeepsAccounts(w, job, effective);
    case RemoveJob(job) => NeutralBooks(w, Next(cfg, w, act));
    case Tick(ms) => NeutralBooks(w, Next(cfg, w, act));
  }

  lemma {:induction false} RunKeepsAccounts(cfg: Config, w: World, acts: seq<Action>)
    requires Accounts(w) && Safe(w) && IsRun(cfg, w, acts)
    ensures Accounts(After(cfg, w, acts))
    decreases |acts|
  {
    if acts != [] {
      NextKeepsSafe(cfg, w, acts[0]);
      NextKeepsAccounts(cfg, w, acts[0]);
      RunKeepsAccounts(cfg, Next(cfg, w, acts[0]), acts[1..]);
    }
  }
}
