// No lost message: a message that waits for a worker always has an unpublished dispatch event or a
// live dispatch job whose claim has not yet been tried.
module Dispatch {
  import opened StateMachine
  import opened Tables
  import opened Lifecycle
  import opened Persistence
  import opened Retention
  import opened Providers
  import opened Outbox
  import opened Protocol

  predicate IsWaiting(db: Db, m: MessageId) {
    m in db.messages && IsStartable(db.messages[m].status)
  }

  // --- The invariant ----------------------------------------------------------------------------

  /** Event numbers are bounded, and every row, job and fetched event agrees with its origin. */
  ghost predicate Origins(w: World) {
    && (forall e :: e in w.author ==> e < w.db.nextEvent)
    && (forall e :: e in w.db.outbox ==> e in w.author && w.author[e] == OriginOf(w.db.outbox[e]))
    && (forall id :: id in w.jobs ==> JobMatchesOrigin(w, id))
    && (forall r, k :: r in w.relays && 0 <= k < |w.relays[r].batch| ==> FetchedMatchesOrigin(w, w.relays[r].batch[k]))
  }

  predicate JobMatchesOrigin(w: World, id: JobId) {
    && id in w.jobs && id.event in w.author
    && w.author[id.event].message == id.message && w.jobs[id].message == id.message
    && w.jobs[id].queue == QueueOf(w.author[id.event].eventType)
    && IsNameOf(w.jobs[id].name, w.author[id.event].eventType)
  }

  predicate FetchedMatchesOrigin(w: World, f: Fetched) {
    f.id in w.author && w.author[f.id] == OriginOf(f.event) && WellFormed(f.event)
  }

  /** Dispatch event `e` of `m` still leads to a claim, whatever the relays do: its job is in the queue untried,
      or there is no job yet, the event is unpublished, and no relay is about to mark it. */
  ghost predicate GivesHope(w: World, m: MessageId, e: EventId) {
    && e in w.db.outbox
    && w.db.outbox[e].aggregateId == m && IsDispatchType(w.db.outbox[e].eventType)
    && (JobId(m, e) in w.jobs ==> !w.jobs[JobId(m, e)].begun)
    && (w.db.outbox[e].published ==> JobId(m, e) in w.jobs)
    && (forall r :: r in w.relays && w.relays[r].added && w.relays[r].batch != [] && w.relays[r].batch[0].id == e ==>
          JobId(m, e) in w.jobs)
  }

  ghost predicate HasHope(w: World, m: MessageId) {
    exists e :: GivesHope(w, m, e)
  }

  ghost predicate NothingLost(w: World) {
    forall m :: IsWaiting(w.db, m) ==> HasHope(w, m)
  }

  /** An event is marked published only after a job was enqueued for it. */
  ghost predicate PublishedWasEnqueued(w: World) {
    && (forall e :: e in w.db.outbox && w.db.outbox[e].published ==> e in w.enqueued)
    && (forall r :: r in w.relays && w.relays[r].added && w.relays[r].batch != [] ==> w.relays[r].batch[0].id in w.enqueued)
  }

  ghost predicate Dispatching(w: World) {
    Origins(w) && AllWellFormed(w.db) && NothingLost(w) && PublishedWasEnqueued(w)
  }

  // --- Steps of the lifecycle ----------------------------------------------------------------------

  /** `v` follows `w` with the same queue; old events are kept, a new one is numbered `w.db.nextEvent`,
      well formed and unpublished; and whatever is newly waiting has the new event as its hope. */
  ghost predicate LifecycleStep(w: World, v: World) {
    && SameQueues(w, v)
    && EventsAppended(w.db, v.db)
    && (forall e :: e in w.author ==> e in v.author && v.author[e] == w.author[e])
    && (forall e :: e in v.author && e !in w.author ==> e == w.db.nextEvent < v.db.nextEvent)
    && (w.db.nextEvent in v.db.outbox && w.db.nextEvent !in w.db.outbox ==>
          w.db.nextEvent in v.author && v.author[w.db.nextEvent] == OriginOf(v.db.outbox[w.db.nextEvent]))
    && (forall m :: IsWaiting(v.db, m) ==> IsWaiting(w.db, m) || IsHandedOver(w, v, m))
  }

  ghost predicate EventsAppended(db: Db, after: Db) {
    && db.nextEvent <= after.nextEvent
    && (forall e :: e in db.outbox ==> e in after.outbox && after.outbox[e] == db.outbox[e])
    && (forall e :: e in after.outbox && e !in db.outbox ==>
          e == db.nextEvent < after.nextEvent && !after.outbox[e].published && WellFormed(after.outbox[e]))
  }

  /** The step's event hands `m` over to the workers. */
  predicate IsHandedOver(w: World, v: World, m: MessageId) {
    var e := w.db.nextEvent;
    e in v.db.outbox && v.db.outbox[e].aggregateId == m && IsDispatchType(v.db.outbox[e].eventType)
  }

  lemma SameQueueOrigins(w: World, v: World)
    requires Origins(w) && v.relays == w.relays && v.author == w.author && v.db.nextEvent >= w.db.nextEvent
    requires v.jobs == w.jobs
    requires forall e :: e in v.db.outbox ==> e in w.db.outbox && OriginOf(v.db.outbox[e]) == OriginOf(w.db.outbox[e])
    ensures Origins(v)
  {
    forall id | id in v.jobs ensures JobMatchesOrigin(v, id) {
      assert JobMatchesOrigin(w, id);
    }
    forall r, k | r in v.relays && 0 <= k < |v.relays[r].batch|
      ensures FetchedMatchesOrigin(v, v.relays[r].batch[k])
    {
      assert FetchedMatchesOrigin(w, w.relays[r].batch[k]);
    }
  }

  lemma LifecycleKeepsOrigins(w: World, v: World)
    requires Origins(w) && LifecycleStep(w, v)
    ensures Origins(v)
  {
    forall e | e in v.db.outbox
      ensures e in v.author && v.author[e] == OriginOf(v.db.outbox[e])
    {
      if e in w.db.outbox {
        assert v.db.outbox[e] == w.db.outbox[e];
      }
    }
    forall id | id in v.jobs ensures JobMatchesOrigin(v, id) {
      assert JobMatchesOrigin(w, id);
    }
    forall r, k | r in v.relays && 0 <= k < |v.relays[r].batch|
      ensures FetchedMatchesOrigin(v, v.relays[r].batch[k])
    {
      assert FetchedMatchesOrigin(w, w.relays[r].batch[k]);
    }
  }

  lemma LifecycleKeepsHope(w: World, v: World, m: MessageId)
    requires Origins(w) && NothingLost(w) && LifecycleStep(w, v) && IsWaiting(v.db, m)
    ensures HasHope(v, m)
  {
    if IsWaiting(w.db, m) {
      var e :| GivesHope(w, m, e);
      assert v.db.outbox[e] == w.db.outbox[e];
      assert GivesHope(v, m, e);
    } else {
      var e := w.db.nextEvent;
      assert IsHandedOver(w, v, m);
      assert e !in w.author && e !in w.db.outbox;
      assert JobId(m, e) in w.jobs ==> JobMatchesOrigin(w, JobId(m, e));
      forall r | r in v.relays && v.relays[r].batch != []
        ensures v.relays[r].batch[0].id != e
      {
        assert FetchedMatchesOrigin(w, w.relays[r].batch[0]);
      }
      assert GivesHope(v, m, e);
    }
  }

  lemma LifecycleKeepsDispatching(w: World, v: World)
    requires Dispatching(w) && LifecycleStep(w, v)
    ensures Dispatching(v)
  {
    LifecycleKeepsOrigins(w, v);
    forall m | IsWaiting(v.db, m) ensures HasHope(v, m) {
      LifecycleKeepsHope(w, v, m);
    }
  }

  // --- Every lifecycle action is such a step --------------------------------------------------------

  lemma AppendsIsAppended(db: Db, after: Db, m: MessageId, t: EventType, payload: Json)
    requires ForeignEvents(db) && Appends(db, after, m, t, payload)
    requires WellFormed(OutboxEvent(m, t, payload, false, 0, None))
    ensures EventsAppended(db, after)
  {
  }

  ghost predicate ForeignEvents(db: Db) {
    forall e :: e in db.outbox ==> e < db.nextEvent
  }

  /** A step that writes no event and makes nothing newly waiting. */
  lemma SilentStep(w: World, v: World)
    requires Dispatching(w) && SameQueues(w, v) && SameEvents(w.db, v.db) && v.author == w.author
    requires forall m :: IsWaiting(v.db, m) ==> IsWaiting(w.db, m)
    ensures Dispatching(v)
  {
    assert LifecycleStep(w, v);
    LifecycleKeepsDispatching(w, v);
  }

  /** A step that writes one well-formed event; a message that is newly waiting is handed over by it. */
  lemma WritingStep(w: World, v: World, m: MessageId, t: EventType, payload: Json)
    requires Dispatching(w) && SameQueues(w, v) && Appends(w.db, v.db, m, t, payload)
    requires WellFormed(OutboxEvent(m, t, payload, false, 0, None))
    requires v.author == w.author[w.db.nextEvent := Origin(m, t)]
    requires IsWaiting(v.db, m) ==> IsDispatchType(t) || IsWaiting(w.db, m)
    requires forall n :: IsWaiting(v.db, n) && n != m ==> IsWaiting(w.db, n)
    ensures Dispatching(v)
  {
    assert ForeignEvents(w.db);
    AppendsIsAppended(w.db, v.db, m, t, payload);
    assert LifecycleStep(w, v);
    LifecycleKeepsDispatching(w, v);
  }

  lemma CreateWaiting(db: Db, newId: MessageId, key: string, now: Time, ttlMs: int, owner: Option<KeyOwner>)
    requires newId !in db.messages && !IsLive(owner, now)
    ensures var after := CreateCommit(db, newId, key, now, ttlMs, owner).0;
      forall n :: IsWaiting(after, n) && n != newId ==> IsWaiting(db, n)
  {
  }

  lemma CreateKeepsDispatching(cfg: Config, w: World, newId: MessageId, key: string, now: Time, owner: Option<KeyOwner>)
    requires Dispatching(w) && Enabled(cfg, w, Create(newId, key, now, owner))
    ensures Dispatching(NextCreate(cfg, w, newId, key, now, owner))
  {
    var v := NextCreate(cfg, w, newId, key, now, owner);
    CreateWaiting(w.db, newId, key, now, cfg.ttlMs, owner);
    if CreateCommit(w.db, newId, key, now, cfg.ttlMs, owner).1.Created? {
      PlainEventDecodes(newId, MessageQueued);
      WritingStep(w, v, newId, MessageQueued, MessagePayload(newId));
    }
  }

  lemma RecoverKeepsDispatching(w: World, m: MessageId, cutoff: Time)
    requires Dispatching(w)
    ensures Dispatching(NextRecover(w, m, cutoff))
  {
    var v := NextRecover(w, m, cutoff);
    if RecoverOne(w.db, m, cutoff).1 {
      PlainEventDecodes(m, ProcessingRecovered);
      WritingStep(w, v, m, ProcessingRecovered, MessagePayload(m));
    }
  }

  lemma RequeueKeepsDispatching(w: World, m: MessageId)
    requires Dispatching(w)
    ensures Dispatching(NextRequeue(w, m))
  {
    var v := NextRequeue(w, m);
    if RequeueCommit(w.db, m, FatalFailure).1.RequeuedAs? {
      PlainEventDecodes(m, Requeued);
      WritingStep(w, v, m, Requeued, MessagePayload(m));
    }
  }

  /** What a guarded commit does to the waiting messages. */
  lemma GuardedCommitWaiting(db: Db, m: MessageId, seen: SmsStatus, to: SmsStatus, patch: Patch)
    requires PatchFits(to, patch)
    ensures var (after, r) := GuardedCommit(db, m, seen, to, patch);
      && (forall n :: IsWaiting(after, n) && n != m ==> IsWaiting(db, n))
      && (r.Moved? && to != RetryScheduled ==> !IsWaiting(after, m))
  {
  }

  lemma DecideKeepsDispatching(cfg: Config, w: World, id: WorkerId)
    requires Dispatching(w) && WorkEnabled(cfg, w, id, Decide)
    ensures Dispatching(NextDecide(cfg, w, id))
  {
    var v := NextDecide(cfg, w, id);
    var worker := w.workers[id];
    var patch := DecisionPatch(cfg, worker);
    GuardedCommitWaiting(w.db, worker.message, worker.phase.seen, DecisionTarget(cfg, worker), patch);
    var m := worker.message;
    DecideStep(w, v, m, worker.phase.seen, DecisionTarget(cfg, worker), patch);
  }

  lemma DecideStep(w: World, v: World, m: MessageId, seen: SmsStatus, to: SmsStatus, patch: Patch)
    requires Dispatching(w) && SameQueues(w, v) && v.author == Commit(w, v.db).author
    requires PatchFits(to, patch) && !patch.PermanentPatch?
    requires v.db == GuardedCommit(w.db, m, seen, to, patch).0
    requires forall n :: IsWaiting(v.db, n) && n != m ==> IsWaiting(w.db, n)
    requires GuardedCommit(w.db, m, seen, to, patch).1.Moved? && to != RetryScheduled ==> !IsWaiting(v.db, m)
    ensures Dispatching(v)
  {
    if !GuardedCommit(w.db, m, seen, to, patch).1.Moved? {
      SilentStep(w, v);
    } else if patch.RetryPatch? {
      DelayedEventDecodes(m, RetryDue, patch.delayMs);
      WritingStep(w, v, m, RetryDue, DelayedPayload(m, patch.delayMs));
    } else {
      PlainEventDecodes(m, DeadLettered);
      WritingStep(w, v, m, DeadLettered, MessagePayload(m));
    }
  }

  /** A finalization makes nothing newly waiting. */
  lemma FinalizeWaiting(db: Db, m: MessageId, a: AttemptId, input: FinalizeInput)
    ensures var after := FinalizeProviderAttempt(db, m, a, input).0;
      forall n :: IsWaiting(after, n) ==> IsWaiting(db, n)
  {
  }

  lemma FinalizeKeepsDispatching(cfg: Config, w: World, id: WorkerId)
    requires Dispatching(w) && WorkEnabled(cfg, w, id, Finalize)
    ensures Dispatching(NextFinalize(cfg, w, id))
  {
    var v := NextFinalize(cfg, w, id);
    var worker := w.workers[id];
    var input := AnswerOf(worker.phase.result, cfg.expiryMs);
    FinalizeWaiting(w.db, worker.message, worker.phase.answered, input);
    FinalizeDispatchStep(w, v, worker.message, worker.phase.answered, input);
  }

  lemma FinalizeDispatchStep(w: World, v: World, m: MessageId, a: AttemptId, input: FinalizeInput)
    requires Dispatching(w) && SameQueues(w, v) && v.author == Commit(w, v.db).author
    requires v.db == FinalizeProviderAttempt(w.db, m, a, input).0
    requires forall n :: IsWaiting(v.db, n) ==> IsWaiting(w.db, n)
    ensures Dispatching(v)
  {
    var r := FinalizeProviderAttempt(w.db, m, a, input).1;
    if r.Finalized? && input.FailedWith? && input.isAmbiguous {
      DelayedEventDecodes(m, AmbiguousExpiryScheduled, input.expiryMs.value);
      WritingStep(w, v, m, AmbiguousExpiryScheduled, DelayedPayload(m, input.expiryMs.value));
    } else {
      SilentStep(w, v);
    }
  }

  // --- Claims, queue removals, purge -----------------------------------------------------------------

  /** A committed claim takes its message out of the waiting ones, so its job may be spent. */
  lemma ClaimKeepsDispatching(cfg: Config, w: World, id: WorkerId, job: JobId)
    requires Dispatching(w) && WorkEnabled(cfg, w, id, Claim(job))
    ensures Dispatching(NextClaim(w, job, id))
  {
    var v := NextClaim(w, job, id);
    var m := w.jobs[job].message;
    assert JobMatchesOrigin(w, job);
    ClaimWaiting(w.db, m);
    ClaimStep(w, v, job);
  }

  lemma ClaimWaiting(db: Db, m: MessageId)
    ensures var after := BeginProcessing(db, m).0;
      !IsWaiting(after, m) && (forall n :: IsWaiting(after, n) ==> IsWaiting(db, n))
  {
  }

  lemma ClaimStep(w: World, v: World, job: JobId)
    requires Dispatching(w) && job in w.jobs
    requires v.jobs == w.jobs[job := w.jobs[job].(begun := true)]
    requires v.relays == w.relays && v.enqueued == w.enqueued && v.author == w.author && SameEvents(w.db, v.db)
    requires !IsWaiting(v.db, w.jobs[job].message)
    requires forall n :: IsWaiting(v.db, n) ==> IsWaiting(w.db, n)
    ensures Dispatching(v)
  {
    assert JobMatchesOrigin(w, job);
    forall id | id in v.jobs ensures JobMatchesOrigin(v, id) {
      assert JobMatchesOrigin(w, id);
    }
    forall r, k | r in v.relays && 0 <= k < |v.relays[r].batch|
      ensures FetchedMatchesOrigin(v, v.relays[r].batch[k])
    {
      assert FetchedMatchesOrigin(w, w.relays[r].batch[k]);
    }
    forall n | IsWaiting(v.db, n) ensures HasHope(v, n) {
      assert IsWaiting(w.db, n);
      var e :| GivesHope(w, n, e);
      assert GivesHope(v, n, e);
    }
  }

  /** A job may leave the queue when it is no dispatch job, or its claim has been tried. */
  lemma RemovalKeepsDispatching(w: World, v: World, job: JobId)
    requires Dispatching(w) && job in w.jobs && (w.jobs[job].queue == DispatchQueue ==> w.jobs[job].begun)
    requires v.jobs == w.jobs - {job}
    requires v.relays == w.relays && v.enqueued == w.enqueued && v.author == w.author && SameEvents(w.db, v.db)
    requires forall n :: IsWaiting(v.db, n) ==> IsWaiting(w.db, n)
    ensures Dispatching(v)
  {
    assert JobMatchesOrigin(w, job);
    forall id | id in v.jobs ensures JobMatchesOrigin(v, id) {
      assert JobMatchesOrigin(w, id);
    }
    forall r, k | r in v.relays && 0 <= k < |v.relays[r].batch|
      ensures FetchedMatchesOrigin(v, v.relays[r].batch[k])
    {
      assert FetchedMatchesOrigin(w, w.relays[r].batch[k]);
    }
    forall n | IsWaiting(v.db, n) ensures HasHope(v, n) {
      assert IsWaiting(w.db, n);
      var e :| GivesHope(w, n, e);
      RemovalKeepsHope(w, v, job, n, e);
    }
  }

  lemma RemovalKeepsHope(w: World, v: World, job: JobId, n: MessageId, e: EventId)
    requires Dispatching(w) && job in w.jobs && (w.jobs[job].queue == DispatchQueue ==> w.jobs[job].begun)
    requires v.jobs == w.jobs - {job} && v.relays == w.relays && SameEvents(w.db, v.db)
    requires GivesHope(w, n, e)
    ensures GivesHope(v, n, e)
  {
    assert JobMatchesOrigin(w, job);
    assert w.author[e] == OriginOf(w.db.outbox[e]);
  }

  lemma PurgeKeepsDispatching(w: World, ids: set<MessageId>, now: Time)
    requires Dispatching(w)
    ensures Dispatching(NextPurge(w, ids, now))
  {
    PurgeIsExact(w.db, ids);
    PurgeStep(w, NextPurge(w, ids, now), ids);
  }

  lemma PurgeStep(w: World, v: World, ids: set<MessageId>)
    requires Dispatching(w) && Survivors(w.db, ids, v.db)
    requires SameQueues(w, v) && v.author == w.author
    ensures Dispatching(v)
  {
    SameQueueOrigins(w, v);
    forall n | IsWaiting(v.db, n) ensures HasHope(v, n) {
      assert IsWaiting(w.db, n);
      var e :| GivesHope(w, n, e);
      assert GivesHope(v, n, e);
    }
  }

  // --- Relay -------------------------------------------------------------------------------------------

  /** A fetched batch holds rows of the outbox as they are. */
  lemma FetchKeepsDispatching(w: World, r: RelayId, limit: nat)
    requires Dispatching(w)
    ensures Dispatching(NextFetch(w, r, limit))
  {
    FetchStep(w, NextFetch(w, r, limit), r);
  }

  lemma FetchStep(w: World, v: World, r: RelayId)
    requires Dispatching(w) && v == w.(relays := v.relays)
    requires r in v.relays && v.relays == w.relays[r := v.relays[r]] && !v.relays[r].added
    requires forall k :: 0 <= k < |v.relays[r].batch| ==>
      && v.relays[r].batch[k].id in w.db.outbox && v.relays[r].batch[k].event == w.db.outbox[v.relays[r].batch[k].id]
    ensures Dispatching(v)
  {
    forall id | id in v.jobs ensures JobMatchesOrigin(v, id) {
      assert JobMatchesOrigin(w, id);
    }
    forall q, k | q in v.relays && 0 <= k < |v.relays[q].batch|
      ensures FetchedMatchesOrigin(v, v.relays[q].batch[k])
    {
      if q != r {
        assert FetchedMatchesOrigin(w, w.relays[q].batch[k]);
      }
    }
    forall n | IsWaiting(v.db, n) ensures HasHope(v, n) {
      assert IsWaiting(w.db, n);
      var e :| GivesHope(w, n, e);
      assert GivesHope(v, n, e);
    }
  }

  /** Enqueueing the job of a fetched event; a live job under the same id stays as it is. */
  lemma AddJobKeepsDispatching(w: World, first: Fetched)
    requires Dispatching(w) && FetchedMatchesOrigin(w, first)
    ensures Dispatching(AddJob(w, first))
    ensures var v := AddJob(w, first); JobId(w.author[first.id].message, first.id) in v.jobs && first.id in v.enqueued
  {
    var spec := QueueJobFor(first.event).value;
    AddJobStep(w, AddJob(w, first), JobId(spec.message, first.id), Job(spec.queue, spec.name, spec.message, false));
  }

  lemma AddJobStep(w: World, v: World, id: JobId, job: Job)
    requires Dispatching(w) && v == w.(jobs := v.jobs, enqueued := w.enqueued + {id.event})
    requires v.jobs == if id in w.jobs then w.jobs else w.jobs[id := job]
    requires id.event in w.author && w.author[id.event].message == id.message == job.message && !job.begun
    requires job.queue == QueueOf(w.author[id.event].eventType) && IsNameOf(job.name, w.author[id.event].eventType)
    ensures Dispatching(v)
  {
    forall other | other in v.jobs ensures JobMatchesOrigin(v, other) {
      if other in w.jobs {
        assert JobMatchesOrigin(w, other);
      }
    }
    forall q, k | q in v.relays && 0 <= k < |v.relays[q].batch|
      ensures FetchedMatchesOrigin(v, v.relays[q].batch[k])
    {
      assert FetchedMatchesOrigin(w, w.relays[q].batch[k]);
    }
    forall n | IsWaiting(v.db, n) ensures HasHope(v, n) {
      assert IsWaiting(w.db, n);
      var e :| GivesHope(w, n, e);
      assert GivesHope(v, n, e);
    }
  }

  lemma AddKeepsDispatching(w: World, r: RelayId)
    requires Dispatching(w) && PublishEnabled(w, r, Add)
    ensures Dispatching(NextAdd(w, r))
  {
    var first := w.relays[r].batch[0];
    assert FetchedMatchesOrigin(w, first);
    AddJobKeepsDispatching(w, first);
    RelayMoves(AddJob(w, first), NextAdd(w, r), r);
  }

  /** A relay turns its `added` flag on once the job is there, or drops events from its batch. */
  lemma RelayMoves(w: World, v: World, r: RelayId)
    requires Dispatching(w) && r in w.relays && v == w.(relays := v.relays)
    requires r in v.relays && v.relays == w.relays[r := v.relays[r]]
    requires v.relays[r].batch == w.relays[r].batch || v.relays[r].batch == []
             || (w.relays[r].batch != [] && v.relays[r].batch == w.relays[r].batch[1..])
    requires v.relays[r].added && v.relays[r].batch != [] ==>
      var e := v.relays[r].batch[0].id;
      && v.relays[r].batch == w.relays[r].batch && e in w.enqueued
      && e in w.author && JobId(w.author[e].message, e) in w.jobs
    ensures Dispatching(v)
  {
    forall id | id in v.jobs ensures JobMatchesOrigin(v, id) {
      assert JobMatchesOrigin(w, id);
    }
    forall q, k | q in v.relays && 0 <= k < |v.relays[q].batch|
      ensures FetchedMatchesOrigin(v, v.relays[q].batch[k])
    {
      if q == r && v.relays[r].batch != w.relays[r].batch {
        assert v.relays[r].batch[k] == w.relays[r].batch[k + 1];
        assert FetchedMatchesOrigin(w, w.relays[r].batch[k + 1]);
      } else {
        assert FetchedMatchesOrigin(w, w.relays[q].batch[k]);
      }
    }
    forall n | IsWaiting(v.db, n) ensures HasHope(v, n) {
      assert IsWaiting(w.db, n);
      var e :| GivesHope(w, n, e);
      assert w.author[e] == OriginOf(w.db.outbox[e]);
      assert GivesHope(v, n, e);
    }
  }

  /** Rewriting the marks of one event keeps it fetchable unless a job was enqueued for it. */
  lemma MarkStep(w: World, v: World, e: EventId, event: OutboxEvent)
    requires Dispatching(w) && e in w.db.outbox && v == w.(db := w.db.(outbox := w.db.outbox[e := event]))
    requires OriginOf(event) == OriginOf(w.db.outbox[e]) && event.payload == w.db.outbox[e].payload
    requires event.published && !w.db.outbox[e].published ==>
      e in w.enqueued && forall m :: GivesHope(w, m, e) ==> JobId(m, e) in w.jobs
    ensures Dispatching(v)
  {
    SameQueueOrigins(w, v);
    MarkedIsWellFormed(w.db, v.db, e, event);
    forall n | IsWaiting(v.db, n) ensures HasHope(v, n) {
      assert IsWaiting(w.db, n);
      var hope :| GivesHope(w, n, hope);
      MarkKeepsHope(w, v, e, event, n, hope);
    }
  }

  lemma MarkKeepsHope(w: World, v: World, e: EventId, event: OutboxEvent, n: MessageId, hope: EventId)
    requires e in w.db.outbox && v == w.(db := w.db.(outbox := w.db.outbox[e := event]))
    requires OriginOf(event) == OriginOf(w.db.outbox[e]) && GivesHope(w, n, hope)
    requires event.published && !w.db.outbox[e].published ==>
      e in w.enqueued && forall m :: GivesHope(w, m, e) ==> JobId(m, e) in w.jobs
    ensures GivesHope(v, n, hope)
  {
  }

  lemma MarkedIsWellFormed(db: Db, after: Db, e: EventId, event: OutboxEvent)
    requires AllWellFormed(db) && e in db.outbox && after.outbox == db.outbox[e := event]
    requires OriginOf(event) == OriginOf(db.outbox[e]) && event.payload == db.outbox[e].payload
    ensures AllWellFormed(after)
  {
    assert QueueJobFor(event) == QueueJobFor(db.outbox[e]);
  }

  lemma FailFirstKeepsDispatching(w: World, r: RelayId, recorded: bool)
    requires Dispatching(w) && IsRelaying(w, r)
    ensures Dispatching(FailFirst(w, r, recorded))
  {
    var e := w.relays[r].batch[0].id;
    var v := FailFirst(w, r, recorded);
    if recorded && e in w.db.outbox {
      var noted := w.(db := RecordFailure(w.db, e, PublishFailed).value);
      MarkStep(w, noted, e, noted.db.outbox[e]);
      RelayMoves(noted, v, r);
    } else {
      RelayMoves(w, v, r);
    }
  }

  /** A mark that commits unseen publishes an event whose job is in the queue. */
  lemma MarkUnseenKeepsDispatching(w: World, r: RelayId)
    requires Dispatching(w) && PublishEnabled(w, r, MarkUnseen)
    ensures Dispatching(NextMarkUnseen(w, r))
  {
    var e := w.relays[r].batch[0].id;
    if e in w.db.outbox {
      var marked := NextMarkUnseen(w, r);
      MarkStep(w, marked, e, marked.db.outbox[e]);
    }
  }

  lemma MarkKeepsDispatching(w: World, r: RelayId)
    requires Dispatching(w) && PublishEnabled(w, r, Mark)
    ensures Dispatching(NextMark(w, r))
  {
    MarkUnseenKeepsDispatching(w, r);
    RelayMoves(NextMarkUnseen(w, r), NextMark(w, r), r);
  }
}
