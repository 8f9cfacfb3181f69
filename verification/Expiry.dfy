// Expiry intents: an ambiguous result and its expiry event are committed together, so a parked message
// has an expiry event exactly when its worker lived to record the ambiguous result.
module Expiry {
  import opened StateMachine
  import opened Tables
  import opened Lifecycle
  import opened Persistence
  import opened Retention
  import opened Providers
  import opened Protocol
  import opened Safety
  import opened SafetyTheorems
  import opened Dispatch
  import opened Accounting
  import opened Reachability

  /** The attempts of `m` that were recorded as ambiguous. */
  function ParkedAttempts(attempts: map<AttemptId, Attempt>, m: MessageId): set<AttemptId> {
    set a | a in attempts && attempts[a].message == m && attempts[a].outcome == Failed && attempts[a].isAmbiguous
  }

  function ExpiryEvents(outbox: map<EventId, OutboxEvent>, m: MessageId): set<EventId> {
    EventsOf(outbox, m, AmbiguousExpiryScheduled)
  }

  ghost predicate OneExpiryEach(db: Db) {
    forall m :: m in db.messages ==> |ExpiryEvents(db.outbox, m)| == |ParkedAttempts(db.attempts, m)|
  }

  /** No message's parked attempts or expiry events change in number. */
  lemma SameNumbers(db: Db, after: Db)
    requires OneExpiryEach(db)
    requires forall m :: m in after.messages ==>
      && m in db.messages
      && ParkedAttempts(after.attempts, m) == ParkedAttempts(db.attempts, m)
      && |ExpiryEvents(after.outbox, m)| == |ExpiryEvents(db.outbox, m)|
    ensures OneExpiryEach(after)
  {
  }

  lemma OtherEvent(db: Db, after: Db, m0: MessageId, t: EventType, payload: Json)
    requires ForeignEvents(db) && Appends(db, after, m0, t, payload) && t != AmbiguousExpiryScheduled
    ensures forall m :: |ExpiryEvents(after.outbox, m)| == |ExpiryEvents(db.outbox, m)|
  {
    assert db.nextEvent !in db.outbox;
    forall m ensures |ExpiryEvents(after.outbox, m)| == |ExpiryEvents(db.outbox, m)| {
      EventsAfterAppend(db.outbox, db.nextEvent, OutboxEvent(m0, t, payload, false, 0, None), m, AmbiguousExpiryScheduled);
    }
  }

  // --- Each transaction ---------------------------------------------------------------------------------

  lemma CreateKeepsExpiry(db: Db, newId: MessageId, key: string, now: Time, ttlMs: int, owner: Option<KeyOwner>)
    requires ForeignKeys(db) && OneExpiryEach(db) && newId !in db.messages && !IsLive(owner, now)
    ensures OneExpiryEach(CreateCommit(db, newId, key, now, ttlMs, owner).0)
  {
    var (after, r) := CreateCommit(db, newId, key, now, ttlMs, owner);
    if r.Created? {
      OtherEvent(db, after, newId, MessageQueued, MessagePayload(newId));
      assert ExpiryEvents(db.outbox, newId) == {} && ParkedAttempts(db.attempts, newId) == {};
    }
  }

  /** A transaction that appends at most one event of another type and no attempt. */
  lemma WriteKeepsExpiry(db: Db, after: Db, m: MessageId, t: EventType, payload: Json)
    requires ForeignEvents(db) && OneExpiryEach(db) && after.attempts == db.attempts
    requires SameEvents(db, after) || (t != AmbiguousExpiryScheduled && Appends(db, after, m, t, payload))
    requires forall n :: n in after.messages ==> n in db.messages
    ensures OneExpiryEach(after)
  {
    if !SameEvents(db, after) {
      OtherEvent(db, after, m, t, payload);
    }
    SameNumbers(db, after);
  }

  lemma GuardedCommitKeepsExpiry(db: Db, m: MessageId, seen: SmsStatus, to: SmsStatus, patch: Patch)
    requires ForeignEvents(db) && OneExpiryEach(db)
    ensures OneExpiryEach(GuardedCommit(db, m, seen, to, patch).0)
  {
    var after := GuardedCommit(db, m, seen, to, patch).0;
    match patch
    case RetryPatch(_, _, delayMs) => WriteKeepsExpiry(db, after, m, RetryDue, DelayedPayload(m, delayMs));
    case _ => WriteKeepsExpiry(db, after, m, DeadLettered, MessagePayload(m));
  }

  /** A reservation is in doubt but not parked. */
  lemma ReserveKeepsExpiry(db: Db, m: MessageId, provider: string)
    requires ForeignKeys(db) && OneExpiryEach(db)
    ensures OneExpiryEach(ReserveProviderAttempt(db, m, provider).0)
  {
    ReserveParksNothing(db, m, provider);
    SameNumbers(db, ReserveProviderAttempt(db, m, provider).0);
  }

  lemma ReserveParksNothing(db: Db, m: MessageId, provider: string)
    requires ForeignKeys(db)
    ensures forall n :: ParkedAttempts(ReserveProviderAttempt(db, m, provider).0.attempts, n) == ParkedAttempts(db.attempts, n)
  {
    assert db.nextAttempt !in db.attempts;
  }

  lemma ParkedAfterFinalize(db: Db, m: MessageId, a: AttemptId, row: Attempt, n: MessageId)
    requires IsReservedFor(db, m, a) && row.message == m
    ensures var parked := ParkedAttempts(db.attempts[a := row], n);
      |parked| == |ParkedAttempts(db.attempts, n)| + One(n == m && row.outcome == Failed && row.isAmbiguous)
  {
    if n == m && row.outcome == Failed && row.isAmbiguous {
      assert ParkedAttempts(db.attempts[a := row], n) == ParkedAttempts(db.attempts, n) + {a};
    } else {
      assert ParkedAttempts(db.attempts[a := row], n) == ParkedAttempts(db.attempts, n);
    }
  }

  /** The ambiguous result and its expiry event come together. */
  lemma FinalizeKeepsExpiry(db: Db, m: MessageId, a: AttemptId, input: FinalizeInput)
    requires ForeignEvents(db) && OneExpiryEach(db)
    ensures OneExpiryEach(FinalizeProviderAttempt(db, m, a, input).0)
  {
    var (after, r) := FinalizeProviderAttempt(db, m, a, input);
    FinalizeEffect(db, m, a, input);
    if r.Finalized? {
      var row := RecordOutcome(db.attempts[a], input);
      forall n ensures |ExpiryEvents(after.outbox, n)| - |ExpiryEvents(db.outbox, n)|
                    == |ParkedAttempts(after.attempts, n)| - |ParkedAttempts(db.attempts, n)| {
        ParkedAfterFinalize(db, m, a, row, n);
        if input.FailedWith? && input.isAmbiguous {
          assert db.nextEvent !in db.outbox;
          EventsAfterAppend(db.outbox, db.nextEvent,
            OutboxEvent(m, AmbiguousExpiryScheduled, DelayedPayload(m, input.expiryMs.value), false, 0, None),
            n, AmbiguousExpiryScheduled);
        }
      }
    }
  }

  lemma WorkKeepsExpiry(cfg: Config, w: World, id: WorkerId, step: WorkerStep)
    requires ForeignKeys(w.db) && OneExpiryEach(w.db) && WorkEnabled(cfg, w, id, step)
    ensures OneExpiryEach(NextWork(cfg, w, id, step).db)
  {
    match step
    case Claim(job) => SameNumbers(w.db, BeginProcessing(w.db, w.jobs[job].message).0);
    case Reserve => ReserveKeepsExpiry(w.db, w.workers[id].message, cfg.providers[|w.workers[id].failures|]);
    case Finalize =>
      FinalizeKeepsExpiry(w.db, w.workers[id].message, w.workers[id].phase.answered,
                          AnswerOf(w.workers[id].phase.result, cfg.expiryMs));
    case Decide =>
      GuardedCommitKeepsExpiry(w.db, w.workers[id].message, w.workers[id].phase.seen,
                               DecisionTarget(cfg, w.workers[id]), DecisionPatch(cfg, w.workers[id]));
    case _ =>
  }

  lemma OpKeepsExpiry(db: Db, op: Op)
    requires ForeignEvents(db) && OneExpiryEach(db)
    ensures OneExpiryEach(OpEffect(db, op))
  {
    match op
    case ReportOp(m, seen, terminal) => SameNumbers(db, ReportCommit(db, m, seen, terminal).0);
    case ResolveOp(m, a, input) => SameNumbers(db, ResolveCommit(db, m, a, input).0);
    case PermanentOp(m, seen, to, error) => GuardedCommitKeepsExpiry(db, m, seen, to, PermanentPatch(error));
  }

  lemma OperateKeepsExpiry(w: World, step: OperatorStep)
    requires ForeignKeys(w.db) && OneExpiryEach(w.db) && OperateEnabled(w, step)
    ensures OneExpiryEach(NextOperate(w, step).db)
  {
    match step
    case Recover(m, cutoff) =>
      WriteKeepsExpiry(w.db, RecoverOne(w.db, m, cutoff).0, m, ProcessingRecovered, MessagePayload(m));
    case Requeue(m) =>
      WriteKeepsExpiry(w.db, RequeueCommit(w.db, m, FatalFailure).0, m, Requeued, MessagePayload(m));
    case CommitOp(op) => OpKeepsExpiry(w.db, w.ops[op]);
    case _ =>
  }

  lemma PublishKeepsExpiry(w: World, r: RelayId, step: RelayStep)
    requires OneExpiryEach(w.db) && PublishEnabled(w, r, step)
    ensures OneExpiryEach(NextPublish(w, r, step).db)
  {
    var v := NextPublish(w, r, step);
    PublishSameOrigins(w, r, step);
    forall m {
      SameEventsOf(w.db.outbox, v.db.outbox, m, AmbiguousExpiryScheduled);
    }
    SameNumbers(w.db, v.db);
  }

  lemma PurgeKeepsExpiry(db: Db, ids: set<MessageId>)
    requires OneExpiryEach(db)
    ensures OneExpiryEach(Purge(db, ids))
  {
    var after := Purge(db, ids);
    PurgeIsExact(db, ids);
    forall m | m in after.messages
      ensures ParkedAttempts(after.attempts, m) == ParkedAttempts(db.attempts, m)
      ensures ExpiryEvents(after.outbox, m) == ExpiryEvents(db.outbox, m)
    {
      SameEventsOf(db.outbox, after.outbox, m, AmbiguousExpiryScheduled);
    }
    SameNumbers(db, after);
  }

  lemma NextKeepsExpiry(cfg: Config, w: World, act: Action)
    requires ForeignKeys(w.db) && OneExpiryEach(w.db) && Enabled(cfg, w, act)
    ensures OneExpiryEach(Next(cfg, w, act).db)
  {
    match act
    case Create(newId, key, now, owner) => CreateKeepsExpiry(w.db, newId, key, now, cfg.ttlMs, owner);
    case Work(id, step) => WorkKeepsExpiry(cfg, w, id, step);
    case Operate(step) => OperateKeepsExpiry(w, step);
    case Publish(r, step) => PublishKeepsExpiry(w, r, step);
    case RunMaintenance(job, effective) => SameNumbers(w.db, Next(cfg, w, act).db);
    case RemoveJob(job) =>
    case PurgeBatch(ids, now) => PurgeKeepsExpiry(w.db, ids);
    case Tick(ms) => SameNumbers(w.db, Next(cfg, w, act).db);
  }

  lemma {:induction false} RunKeepsExpiry(cfg: Config, w: World, acts: seq<Action>)
    requires Safe(w) && OneExpiryEach(w.db) && IsRun(cfg, w, acts)
    ensures OneExpiryEach(After(cfg, w, acts).db)
    decreases |acts|
  {
    if acts != [] {
      NextKeepsSafe(cfg, w, acts[0]);
      NextKeepsExpiry(cfg, w, acts[0]);
      RunKeepsExpiry(cfg, Next(cfg, w, acts[0]), acts[1..]);
    }
  }

  /** In every reachable state a message awaiting its provider has exactly one expiry event if its attempt
      in doubt was recorded as ambiguous, and none if that attempt is still a bare reservation: a worker that
      stops between reservation and result leaves nothing behind that would ever end the wait. */
  lemma ExpiryIffRecorded(cfg: Config, clock: Time, acts: seq<Action>, m: MessageId, a: AttemptId)
    requires IsRun(cfg, Init(clock), acts)
    requires HasStatus(After(cfg, Init(clock), acts).db, m, AwaitingProviderResult)
    requires InDoubt(After(cfg, Init(clock), acts).db, m, a)
    ensures var db := After(cfg, Init(clock), acts).db;
      |ExpiryEvents(db.outbox, m)| == One(db.attempts[a].outcome == Failed)
  {
    InitIsSafe(clock);
    RunKeepsSafe(cfg, Init(clock), acts);
    RunKeepsExpiry(cfg, Init(clock), acts);
    OnlyParkedInDoubt(After(cfg, Init(clock), acts).db, m, a);
  }

  lemma OnlyParkedInDoubt(db: Db, m: MessageId, a: AttemptId)
    requires ValidDb(db) && InDoubt(db, m, a)
    ensures |ParkedAttempts(db.attempts, m)| == One(db.attempts[a].outcome == Failed)
  {
    OneInDoubt(db, m, a);
    forall b | b in ParkedAttempts(db.attempts, m) ensures b == a {
      assert InDoubt(db, m, b);
    }
    if db.attempts[a].outcome == Failed {
      assert ParkedAttempts(db.attempts, m) == {a};
    } else {
      assert ParkedAttempts(db.attempts, m) == {};
    }
  }

  /** Awaiting its provider with no worker left, and nothing scheduled that would end the wait. */
  ghost predicate IsStranded(w: World, m: MessageId) {
    && HasStatus(w.db, m, AwaitingProviderResult)
    && (forall id :: id in w.workers ==> w.workers[id].message != m)
    && ExpiryEvents(w.db.outbox, m) == {}
  }

  /** Such a state is reachable: a worker reserves its provider and stops. */
  lemma StoppedWorkerStrandsMessage(cfg: Config, m: MessageId)
    requires cfg.providers != []
    ensures exists w :: IsReachable(cfg, w) && IsStranded(w, m)
  {
    var w := Published(cfg, m);
    ReachNext(cfg, w, Work(0, Claim(JobId(m, 0))));
    var claimed := NextClaim(w, JobId(m, 0), 0);
    ReservedAndStopped(cfg, claimed, m);
  }

  lemma ReservedAndStopped(cfg: Config, w: World, m: MessageId)
    requires IsReachable(cfg, w) && cfg.providers != [] && HasStatus(w.db, m, Processing)
    requires w.workers == map[0 := Worker(m, 0, [], Ready)] && ExpiryEvents(w.db.outbox, m) == {}
    ensures exists v :: IsReachable(cfg, v) && IsStranded(v, m)
  {
    ReachNext(cfg, w, Work(0, Reserve));
    var reserved := NextReserve(cfg, w, 0);
    ReachNext(cfg, reserved, Work(0, Crash));
    var v := NextWork(cfg, reserved, 0, Crash);
    assert IsStranded(v, m);
  }
}
