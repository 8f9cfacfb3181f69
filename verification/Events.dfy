// What each action writes to the outbox and to the other child tables: which event, of which type, with which
// payload; which marks; and which keys and audit records.
module Events {
  import opened StateMachine
  import opened Tables
  import opened Lifecycle
  import opened Persistence
  import opened Providers
  import opened Protocol
  import opened Safety
  import opened Delivery
  import opened Rows

  // --- The table ------------------------------------------------------------------------------------------------

  /** A new event carries the id of its message, and its delay if it has one. */
  function Announcement(m: MessageId, t: EventType, delayMs: Option<int>): OutboxEvent {
    var id := map[MessageIdField := Text(m.text)];
    var fields := if delayMs.Some? then id[DelayMsField := Number(delayMs.value as real)] else id;
    OutboxEvent(m, t, Object(fields), false, 0, None)
  }

  /** The event that a statement of worker `id` writes. */
  function EventOfWork(cfg: Config, w: World, id: WorkerId, step: WorkerStep): Option<OutboxEvent>
    requires WorkEnabled(cfg, w, id, step)
  {
    match step
    case Finalize =>
      var m, result := w.workers[id].message, w.workers[id].phase.result;
      if m in w.db.messages && !Accepts(result) && !Refuses(result)
      then Some(Announcement(m, AmbiguousExpiryScheduled, Some(cfg.expiryMs))) else None
    case Decide =>
      var worker := w.workers[id];
      if worker.message !in w.db.messages || w.db.messages[worker.message].status != Processing then None
      else if |worker.failures| > 0 && worker.round < cfg.maxRounds && (forall i :: 0 <= i < |worker.failures| ==> worker.failures[i])
      then Some(Announcement(worker.message, RetryDue, Some(cfg.backoffBase * Pow2(worker.round))))
      else Some(Announcement(worker.message, DeadLettered, None))
    case _ => None
  }

  function EventOfOperate(w: World, step: OperatorStep): Option<OutboxEvent> {
    match step
    case Recover(m, cutoff) =>
      if m in w.db.messages && w.db.messages[m].status == Processing && w.db.messages[m].updatedAt < cutoff
      then Some(Announcement(m, ProcessingRecovered, None)) else None
    case Requeue(m) =>
      if m in w.db.messages && w.db.messages[m].status == FatalFailure then Some(Announcement(m, Requeued, None)) else None
    case _ => None
  }

  ghost function EventOf(cfg: Config, w: World, act: Action): Option<OutboxEvent>
    requires Enabled(cfg, w, act)
  {
    match act
    case Create(newId, key, now, owner) =>
      // A key that is still there refuses the insert, unless it was seen and has expired.
      if key in w.db.keys && (owner.None? || w.db.keys[key].expiresAt > now) then None
      else Some(Announcement(newId, MessageQueued, None))
    case Work(id, step) => EventOfWork(cfg, w, id, step)
    case Operate(step) => EventOfOperate(w, step)
    case _ => None
  }

  predicate Wrote(db: Db, after: Db, event: Option<OutboxEvent>) {
    match event
    case None => after.outbox == db.outbox && after.nextEvent == db.nextEvent
    case Some(e) => after.outbox == db.outbox[db.nextEvent := e] && after.nextEvent == db.nextEvent + 1
  }

  // --- The state machine writes exactly those -----------------------------------------------------------------------

  lemma PayloadsAreAnnounced(m: MessageId, t: EventType, delayMs: int)
    ensures OutboxEvent(m, t, MessagePayload(m), false, 0, None) == Announcement(m, t, None)
    ensures OutboxEvent(m, t, DelayedPayload(m, delayMs), false, 0, None) == Announcement(m, t, Some(delayMs))
  {
  }

  lemma FinalizeWritesEvent(cfg: Config, w: World, id: WorkerId)
    requires Safe(w) && WorkEnabled(cfg, w, id, Finalize) && cfg.expiryMs > 0
    ensures Wrote(w.db, NextFinalize(cfg, w, id).db, EventOfWork(cfg, w, id, Finalize))
  {
    var worker := w.workers[id];
    assert worker.Held() == Some(worker.phase.answered) && HoldsReservation(w.db, worker.message, worker.phase.answered);
    AcceptsIsSent(worker.phase.result);
    PayloadsAreAnnounced(worker.message, AmbiguousExpiryScheduled, cfg.expiryMs);
  }

  lemma DecideWritesEvent(cfg: Config, w: World, id: WorkerId)
    requires DecidersAreSound(w) && WorkEnabled(cfg, w, id, Decide)
    ensures Wrote(w.db, NextDecide(cfg, w, id).db, EventOfWork(cfg, w, id, Decide))
  {
    var worker := w.workers[id];
    PayloadsAreAnnounced(worker.message, RetryDue, BackoffDelayMs(worker.round, cfg.backoffBase));
    PayloadsAreAnnounced(worker.message, DeadLettered, 0);
    DecisionWritesEvent(cfg, w.db, worker);
  }

  lemma DecisionWritesEvent(cfg: Config, db: Db, worker: Worker)
    ensures var after := GuardedCommit(db, worker.message, Processing, DecisionTarget(cfg, worker), DecisionPatch(cfg, worker)).0;
      var m := worker.message;
      if !HasStatus(db, m, Processing) then after == db
      else if RetriesAgain(cfg, worker) then
        Appends(db, after, m, RetryDue, DelayedPayload(m, cfg.backoffBase * Pow2(worker.round)))
      else
        Appends(db, after, m, DeadLettered, MessagePayload(m))
  {
  }

  lemma WorkWritesEvent(cfg: Config, w: World, id: WorkerId, step: WorkerStep)
    requires Safe(w) && WorkEnabled(cfg, w, id, step) && cfg.expiryMs > 0
    ensures Wrote(w.db, NextWork(cfg, w, id, step).db, EventOfWork(cfg, w, id, step))
  {
    match step
    case Finalize => FinalizeWritesEvent(cfg, w, id);
    case Decide => DecideWritesEvent(cfg, w, id);
    case _ =>
  }

  lemma OperateWritesEvent(w: World, step: OperatorStep)
    requires OperateEnabled(w, step)
    ensures Wrote(w.db, NextOperate(w, step).db, EventOfOperate(w, step))
  {
    match step
    case Recover(m, cutoff) => PayloadsAreAnnounced(m, ProcessingRecovered, 0);
    case Requeue(m) => PayloadsAreAnnounced(m, Requeued, 0);
    case CommitOp(op) => OpWritesNoEvent(w, op);
    case _ =>
  }

  lemma OpWritesNoEvent(w: World, op: OpId)
    requires op in w.ops
    ensures SameEvents(w.db, NextCommitOp(w, op).db)
  {
  }

  lemma CreateWritesEvent(cfg: Config, w: World, newId: MessageId, key: string, now: Time, owner: Option<KeyOwner>)
    requires Enabled(cfg, w, Create(newId, key, now, owner))
    ensures Wrote(w.db, NextCreate(cfg, w, newId, key, now, owner).db, EventOf(cfg, w, Create(newId, key, now, owner)))
  {
    PayloadsAreAnnounced(newId, MessageQueued, 0);
  }

  /** In every reachable state every step but a relay's and a purge writes exactly the event that the table
      names, or none. */
  lemma StepWritesEvent(cfg: Config, w: World, act: Action)
    requires Safe(w) && Enabled(cfg, w, act) && cfg.expiryMs > 0 && !act.Publish? && !act.PurgeBatch?
    ensures Wrote(w.db, Next(cfg, w, act).db, EventOf(cfg, w, act))
  {
    match act
    case Create(newId, key, now, owner) => CreateWritesEvent(cfg, w, newId, key, now, owner);
    case Work(id, step) => WorkWritesEvent(cfg, w, id, step);
    case Operate(step) => OperateWritesEvent(w, step);
    case _ =>
  }

  // --- Marks and failure notes -----------------------------------------------------------------------------------------

  /** What a step of a relay does to the event at the front of its batch. */
  function MarkedBy(step: RelayStep, event: OutboxEvent): OutboxEvent {
    match step
    case Mark => event.(published := true)
    case MarkUnseen => event.(published := true)
    case NoteFailure(recorded) =>
      if recorded then event.(retryCount := event.retryCount + 1, lastError := Some(PublishFailed)) else event
    case _ => event
  }

  /** A relay marks, or notes a failure on, the event at the front of its batch, and touches no other. */
  lemma RelayWritesMarks(w: World, r: RelayId, step: RelayStep, e: EventId)
    requires PublishEnabled(w, r, step)
    ensures IsMarkedBy(w.db, NextPublish(w, r, step).db, IsRelaying(w, r) && w.relays[r].batch[0].id == e, step, e)
  {
    match step
    case Mark => MarkWritesMark(w, r, e);
    case MarkUnseen => MarkUnseenWritesMark(w, r, e);
    case NoteFailure(recorded) => NoteWritesMark(w, r, recorded, e);
    case _ =>
  }

  predicate IsMarkedBy(db: Db, after: Db, isFront: bool, step: RelayStep, e: EventId) {
    && after.nextEvent == db.nextEvent
    && (e in after.outbox <==> e in db.outbox)
    && (e in db.outbox ==> after.outbox[e] == (if isFront then MarkedBy(step, db.outbox[e]) else db.outbox[e]))
  }

  lemma MarkWritesMark(w: World, r: RelayId, e: EventId)
    requires PublishEnabled(w, r, Mark)
    ensures IsMarkedBy(w.db, NextMark(w, r).db, w.relays[r].batch[0].id == e, Mark, e)
  {
  }

  lemma MarkUnseenWritesMark(w: World, r: RelayId, e: EventId)
    requires PublishEnabled(w, r, MarkUnseen)
    ensures IsMarkedBy(w.db, NextMarkUnseen(w, r).db, w.relays[r].batch[0].id == e, MarkUnseen, e)
  {
  }

  lemma NoteWritesMark(w: World, r: RelayId, recorded: bool, e: EventId)
    requires IsRelaying(w, r)
    ensures IsMarkedBy(w.db, FailFirst(w, r, recorded).db, w.relays[r].batch[0].id == e, NoteFailure(recorded), e)
  {
  }

  // --- Keys and audit records --------------------------------------------------------------------------------------------

  /** Keys are written by creations only: the new owner holds the key for the TTL. */
  lemma StepWritesKeys(cfg: Config, w: World, act: Action)
    requires Enabled(cfg, w, act) && !act.PurgeBatch?
    ensures var v := Next(cfg, w, act);
      if act.Create? && EventOf(cfg, w, act).Some? then
        && v.db.keys == w.db.keys[act.key := KeyOwner(act.newId, act.now + cfg.ttlMs)]
        && v.db.messages == w.db.messages[act.newId := FirstRow(act.key, act.now, w.db.clock)]
      else
        v.db.keys == w.db.keys
  {
    match act
    case Create(newId, key, now, owner) => CreateWritesKey(cfg, w, newId, key, now, owner);
    case Operate(step) => OperateWritesNoKey(w, step);
    case Work(id, step) => WorkWritesNoKey(cfg, w, id, step);
    case _ =>
  }

  /** Workers write messages, attempts and events only. */
  lemma WorkWritesNoKey(cfg: Config, w: World, id: WorkerId, step: WorkerStep)
    requires WorkEnabled(cfg, w, id, step)
    ensures NextWork(cfg, w, id, step).db.keys == w.db.keys
    ensures NextWork(cfg, w, id, step).db.resolutions == w.db.resolutions
  {
  }

  lemma CreateWritesKey(cfg: Config, w: World, newId: MessageId, key: string, now: Time, owner: Option<KeyOwner>)
    requires Enabled(cfg, w, Create(newId, key, now, owner))
    ensures var v := NextCreate(cfg, w, newId, key, now, owner);
      if EventOf(cfg, w, Create(newId, key, now, owner)).Some? then
        && v.db.keys == w.db.keys[key := KeyOwner(newId, now + cfg.ttlMs)]
        && v.db.messages == w.db.messages[newId := FirstRow(key, now, w.db.clock)]
      else
        v.db == w.db
  {
    CreateWritesKeys(w.db, newId, key, now, cfg.ttlMs, owner);
  }

  lemma CreateWritesKeys(db: Db, newId: MessageId, key: string, now: Time, ttlMs: int, owner: Option<KeyOwner>)
    requires newId !in db.messages && !IsLive(owner, now)
    ensures var after := CreateCommit(db, newId, key, now, ttlMs, owner).0;
      if key in db.keys && (owner.None? || db.keys[key].expiresAt > now) then after == db
      else
        && after.keys == db.keys[key := KeyOwner(newId, now + ttlMs)]
        && after.messages == db.messages[newId := FirstRow(key, now, db.clock)]
  {
    CreateWritesFirstRow(db, newId, key, now, ttlMs, owner);
  }

  lemma OperateWritesNoKey(w: World, step: OperatorStep)
    requires OperateEnabled(w, step)
    ensures NextOperate(w, step).db.keys == w.db.keys
  {
  }

  /** An audit record is written by the commit of a resolution that settles its message, and says what it decided. */
  lemma StepWritesResolutions(cfg: Config, w: World, act: Action)
    requires Enabled(cfg, w, act) && !act.PurgeBatch?
    ensures var v := Next(cfg, w, act);
      if act.Operate? && act.operation.CommitOp? && w.ops[act.operation.op].ResolveOp? then
        ResolutionWritten(w.db, v.db, w.ops[act.operation.op])
      else
        v.db.resolutions == w.db.resolutions
  {
    match act
    case Operate(step) => OperateWritesResolution(w, step);
    case Work(id, step) => WorkWritesNoKey(cfg, w, id, step);
    case Publish(r, step) => PublishWritesNoResolution(w, r, step);
    case _ =>
  }

  lemma PublishWritesNoResolution(w: World, r: RelayId, step: RelayStep)
    requires PublishEnabled(w, r, step)
    ensures NextPublish(w, r, step).db.resolutions == w.db.resolutions
  {
  }

  predicate ResolutionWritten(db: Db, after: Db, op: Op)
    requires op.ResolveOp?
  {
    var m, a := op.message, op.attempt;
    if m in db.messages && db.messages[m].status == AwaitingProviderResult && a in db.attempts && a !in db.resolutions then
      after.resolutions == db.resolutions[a :=
        match op.input
        case KnownSidIs(sid) => Resolution(m, KnownSid, Some(sid), None)
        case UndeliveredBy(code) => Resolution(m, ConfirmedUndelivered, None, Some(code))]
    else
      after.resolutions == db.resolutions
  }

  lemma OperateWritesResolution(w: World, step: OperatorStep)
    requires OperateEnabled(w, step)
    ensures var v := NextOperate(w, step);
      if step.CommitOp? && w.ops[step.op].ResolveOp? then ResolutionWritten(w.db, v.db, w.ops[step.op])
      else v.db.resolutions == w.db.resolutions
  {
    match step
    case CommitOp(op) => OpWritesResolution(w.db, w.ops[op]);
    case _ =>
  }

  lemma OpWritesResolution(db: Db, op: Op)
    ensures if op.ResolveOp? then ResolutionWritten(db, OpEffect(db, op), op) else OpEffect(db, op).resolutions == db.resolutions
  {
  }
}
