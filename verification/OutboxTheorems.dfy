// Writers and reader agree: a transaction writes an event for the dispatch queue exactly when it hands
// its message to the workers, and the relay decodes every event to its own message.
module OutboxTheorems {
  import opened StateMachine
  import opened Tables
  import opened Lifecycle
  import opened Persistence
  import opened Retention
  import opened Providers
  import opened Outbox
  import opened Protocol
  import opened Safety
  import opened SafetyTheorems
  import opened Dispatch
  import opened DispatchTheorems

  /** No event was written and nothing was handed to the workers. */
  ghost predicate WritesNothing(db: Db, after: Db) {
    after.nextEvent == db.nextEvent && forall m :: IsWaiting(after, m) ==> IsWaiting(db, m)
  }

  /** One event was written, for the dispatch queue exactly if its message now waits; no other message
      was handed to the workers. */
  ghost predicate WritesOne(db: Db, after: Db) {
    && after.nextEvent == db.nextEvent + 1 && db.nextEvent in after.outbox
    && Announces(db, after, after.outbox[db.nextEvent])
    && forall n :: n != after.outbox[db.nextEvent].aggregateId && IsWaiting(after, n) ==> IsWaiting(db, n)
  }

  predicate Announces(db: Db, after: Db, event: OutboxEvent) {
    && !event.published && WellFormed(event)
    && !IsWaiting(db, event.aggregateId)
    && (QueueJobFor(event).value.queue == DispatchQueue <==> IsWaiting(after, event.aggregateId))
  }

  lemma AppendingWritesOne(db: Db, after: Db, m: MessageId, t: EventType, payload: Json)
    requires Appends(db, after, m, t, payload) && WellFormed(OutboxEvent(m, t, payload, false, 0, None))
    requires !IsWaiting(db, m) && (IsDispatchType(t) <==> IsWaiting(after, m))
    requires forall n :: n != m && IsWaiting(after, n) ==> IsWaiting(db, n)
    ensures WritesOne(db, after)
  {
  }

  lemma CreateAnnounces(db: Db, newId: MessageId, key: string, now: Time, ttlMs: int, owner: Option<KeyOwner>)
    requires newId !in db.messages && !IsLive(owner, now)
    ensures var after := CreateCommit(db, newId, key, now, ttlMs, owner).0; WritesNothing(db, after) || WritesOne(db, after)
  {
    var (after, r) := CreateCommit(db, newId, key, now, ttlMs, owner);
    CreateWaiting(db, newId, key, now, ttlMs, owner);
    if r.Created? {
      PlainEventDecodes(newId, MessageQueued);
      AppendingWritesOne(db, after, newId, MessageQueued, MessagePayload(newId));
    }
  }

  lemma RecoverAnnounces(db: Db, m: MessageId, cutoff: Time)
    ensures var after := RecoverOne(db, m, cutoff).0; WritesNothing(db, after) || WritesOne(db, after)
  {
    var (after, recovered) := RecoverOne(db, m, cutoff);
    if recovered {
      PlainEventDecodes(m, ProcessingRecovered);
      AppendingWritesOne(db, after, m, ProcessingRecovered, MessagePayload(m));
    }
  }

  lemma RequeueAnnounces(db: Db, m: MessageId)
    ensures var after := RequeueCommit(db, m, FatalFailure).0; WritesNothing(db, after) || WritesOne(db, after)
  {
    var (after, r) := RequeueCommit(db, m, FatalFailure);
    if r.RequeuedAs? {
      PlainEventDecodes(m, Requeued);
      AppendingWritesOne(db, after, m, Requeued, MessagePayload(m));
    }
  }

  /** Retries and dead letters, from any status that the table allows. */
  lemma GuardedCommitAnnounces(db: Db, m: MessageId, seen: SmsStatus, to: SmsStatus, patch: Patch)
    requires IsValidTransition(seen, to) && PatchFits(to, patch)
    ensures var after := GuardedCommit(db, m, seen, to, patch).0; WritesNothing(db, after) || WritesOne(db, after)
  {
    var (after, r) := GuardedCommit(db, m, seen, to, patch);
    GuardedCommitWaiting(db, m, seen, to, patch);
    if r.Moved? {
      match patch
      case RetryPatch(_, _, delayMs) =>
        DelayedEventDecodes(m, RetryDue, delayMs);
        AppendingWritesOne(db, after, m, RetryDue, DelayedPayload(m, delayMs));
      case FatalPatch(_) =>
        PlainEventDecodes(m, DeadLettered);
        AppendingWritesOne(db, after, m, DeadLettered, MessagePayload(m));
      case PermanentPatch(_) =>
    }
  }

  /** An expiry is scheduled only while the message does not wait for a worker. */
  lemma FinalizeAnnounces(db: Db, m: MessageId, a: AttemptId, input: FinalizeInput)
    requires ValidDb(db)
    ensures var after := FinalizeProviderAttempt(db, m, a, input).0; WritesNothing(db, after) || WritesOne(db, after)
  {
    var (after, r) := FinalizeProviderAttempt(db, m, a, input);
    FinalizeWaiting(db, m, a, input);
    if r.Finalized? && input.FailedWith? && input.isAmbiguous {
      DelayedEventDecodes(m, AmbiguousExpiryScheduled, input.expiryMs.value);
      ReservedIsNotWaiting(db, m, a);
      AppendingWritesOne(db, after, m, AmbiguousExpiryScheduled, DelayedPayload(m, input.expiryMs.value));
    }
  }

  lemma ReservedIsNotWaiting(db: Db, m: MessageId, a: AttemptId)
    requires ValidDb(db) && IsReservedFor(db, m, a)
    ensures !IsWaiting(db, m)
  {
    assert !db.attempts[a].Definitive();
  }

  lemma WorkAnnounces(cfg: Config, w: World, id: WorkerId, step: WorkerStep)
    requires Safe(w) && WorkEnabled(cfg, w, id, step)
    ensures var after := NextWork(cfg, w, id, step).db; WritesNothing(w.db, after) || WritesOne(w.db, after)
  {
    match step
    case Claim(job) => ClaimWaiting(w.db, w.jobs[job].message);
    case Reserve => ReserveWaiting(w.db, w.workers[id].message, cfg.providers[|w.workers[id].failures|]);
    case Finalize =>
      FinalizeAnnounces(w.db, w.workers[id].message, w.workers[id].phase.answered,
                        AnswerOf(w.workers[id].phase.result, cfg.expiryMs));
    case Decide =>
      GuardedCommitAnnounces(w.db, w.workers[id].message, Processing, DecisionTarget(cfg, w.workers[id]),
                             DecisionPatch(cfg, w.workers[id]));
    case _ =>
  }

  lemma OperateAnnounces(w: World, step: OperatorStep)
    requires Safe(w) && OperateEnabled(w, step)
    ensures var after := NextOperate(w, step).db; WritesNothing(w.db, after) || WritesOne(w.db, after)
  {
    match step
    case Recover(m, cutoff) => RecoverAnnounces(w.db, m, cutoff);
    case Requeue(m) => RequeueAnnounces(w.db, m);
    case CommitOp(op) => OpEffectWaiting(w, op);
    case _ =>
  }

  /** In every reachable state, each step writes an event for the dispatch queue exactly when it hands a
      message to the workers, and that event decodes to the message itself. */
  lemma EventsFollowTransactions(cfg: Config, w: World, act: Action)
    requires Safe(w) && Enabled(cfg, w, act)
    ensures var after := Next(cfg, w, act).db; WritesNothing(w.db, after) || WritesOne(w.db, after)
  {
    match act
    case Create(newId, key, now, owner) => CreateAnnounces(w.db, newId, key, now, cfg.ttlMs, owner);
    case Work(id, step) => WorkAnnounces(cfg, w, id, step);
    case Operate(step) => OperateAnnounces(w, step);
    case Publish(r, step) => QuietAnnounces(w.db, Next(cfg, w, act).db);
    case RunMaintenance(job, effective) => MaintenanceAnnounces(w, job, effective);
    case RemoveJob(job) => QuietAnnounces(w.db, w.db);
    case PurgeBatch(ids, now) => PurgeIsExact(w.db, ids);
    case Tick(ms) => QuietAnnounces(w.db, Next(cfg, w, act).db);
  }

  lemma QuietAnnounces(db: Db, after: Db)
    requires after.nextEvent == db.nextEvent && after.messages == db.messages
    ensures WritesNothing(db, after)
  {
  }

  lemma MaintenanceAnnounces(w: World, job: JobId, effective: bool)
    requires job in w.jobs
    ensures WritesNothing(w.db, NextMaintenance(w, job, effective).db)
  {
  }

  /** The queue and the name of the job for an event of type `t`. */
  predicate IsRoute(queue: QueueName, name: JobName, t: EventType) {
    match t
    case MessageQueued => queue == DispatchQueue && name == DispatchJob
    case RetryDue => queue == DispatchQueue && name == RetryJob
    case Requeued => queue == DispatchQueue && name == RequeueJob
    case ProcessingRecovered => queue == DispatchQueue && name == RecoveredJob
    case DeadLettered => queue == DeadLetterQueue && name == DeadLetterJob
    case AmbiguousExpiryScheduled => queue == MaintenanceQueue && name == ExpiryJob
    case Unsupported(_) => false
  }

  lemma WellFormedIsRouted(event: OutboxEvent)
    requires WellFormed(event)
    ensures IsRoute(QueueJobFor(event).value.queue, QueueJobFor(event).value.name, event.eventType)
  {
  }

  /** In every reachable state every job is for its own message, on the queue and under the name of the type of
      its event. */
  lemma EveryJobIsRouted(cfg: Config, clock: Time, acts: seq<Action>, id: JobId)
    requires IsRun(cfg, Init(clock), acts) && id in After(cfg, Init(clock), acts).jobs
    ensures var w := After(cfg, Init(clock), acts);
      && w.jobs[id].message == id.message
      && (id.event in w.db.outbox ==>
            && w.db.outbox[id.event].aggregateId == id.message
            && IsRoute(w.jobs[id].queue, w.jobs[id].name, w.db.outbox[id.event].eventType))
  {
    InitIsSafe(clock);
    RunKeepsDispatching(cfg, Init(clock), acts);
    var w := After(cfg, Init(clock), acts);
    assert JobMatchesOrigin(w, id);
    if id.event in w.db.outbox {
      assert WellFormed(w.db.outbox[id.event]);
      JobIsRouted(w.jobs[id], w.db.outbox[id.event].eventType, QueueJobFor(w.db.outbox[id.event]).value.name);
    }
  }

  /** Whoever takes a job takes one meant for it: a claim only follows a hand-over, and maintenance only acts on
      expiries. */
  lemma JobsReachTheirProcessor(cfg: Config, clock: Time, acts: seq<Action>, act: Action, id: JobId)
    requires IsRun(cfg, Init(clock), acts) && Enabled(cfg, After(cfg, Init(clock), acts), act)
    requires id.event in After(cfg, Init(clock), acts).db.outbox
    ensures var t := After(cfg, Init(clock), acts).db.outbox[id.event].eventType;
      && (act.Work? && act.step == Claim(id) ==> t == MessageQueued || t == RetryDue || t == Requeued || t == ProcessingRecovered)
      && (act.RunMaintenance? && act.job == id ==> t == AmbiguousExpiryScheduled)
  {
    if (act.Work? && act.step == Claim(id)) || (act.RunMaintenance? && act.job == id) {
      EveryJobIsRouted(cfg, clock, acts, id);
    }
  }

  lemma JobIsRouted(job: Job, t: EventType, name: JobName)
    requires job.queue == QueueOf(t) && IsNameOf(job.name, t) && IsNameOf(name, t)
    ensures IsRoute(job.queue, job.name, t)
  {
  }

  /** In every reachable state the relay can decode every event of the outbox, to its own message. */
  lemma EveryEventDecodes(cfg: Config, clock: Time, acts: seq<Action>, e: EventId)
    requires IsRun(cfg, Init(clock), acts) && e in After(cfg, Init(clock), acts).db.outbox
    ensures var event := After(cfg, Init(clock), acts).db.outbox[e];
      && QueueJobFor(event).Ok? && QueueJobFor(event).value.message == event.aggregateId
      && IsRoute(QueueJobFor(event).value.queue, QueueJobFor(event).value.name, event.eventType)
  {
    InitIsSafe(clock);
    RunKeepsDispatching(cfg, Init(clock), acts);
    WellFormedIsRouted(After(cfg, Init(clock), acts).db.outbox[e]);
    assert WellFormed(After(cfg, Init(clock), acts).db.outbox[e]);
  }
}
