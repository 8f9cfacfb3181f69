// The safety invariant over whole runs, and the theorems that follow from it.
module SafetyTheorems {
  import opened StateMachine
  import opened Tables
  import opened Lifecycle
  import opened LifecycleInvariant
  import opened Persistence
  import opened Retention
  import opened Providers
  import opened Protocol
  import opened Safety

  // --- Every action keeps the database valid --------------------------------------------------

  lemma OpEffectKeepsValid(w: World, op: OpId)
    requires Safe(w) && op in w.ops
    ensures ValidDb(OpEffect(w.db, w.ops[op]))
  {
    match w.ops[op]
    case ReportOp(m, seen, terminal) => ReportCommitKeepsValid(w.db, m, seen, terminal);
    case ResolveOp(m, a, input) => ResolveCommitKeepsValid(w.db, m, a, input);
    case PermanentOp(m, seen, to, error) => GuardedCommitKeepsValid(w.db, m, seen, to, PermanentPatch(error));
  }

  lemma FailFirstKeepsValid(w: World, r: RelayId, recorded: bool)
    requires ValidDb(w.db) && IsRelaying(w, r)
    ensures ValidDb(FailFirst(w, r, recorded).db)
  {
    var e := w.relays[r].batch[0].id;
    if e in w.db.outbox {
      var noted := RecordFailure(w.db, e, PublishFailed).value;
      OutboxMarkKeepsValid(w.db, noted, e, noted.outbox[e]);
    }
  }

  lemma MarkKeepsValid(w: World, r: RelayId)
    requires ValidDb(w.db) && PublishEnabled(w, r, Mark)
    ensures ValidDb(NextMark(w, r).db)
  {
    var e := w.relays[r].batch[0].id;
    var marked := MarkPublished(w.db, e).value;
    OutboxMarkKeepsValid(w.db, marked, e, marked.outbox[e]);
  }

  lemma MarkUnseenKeepsValid(w: World, r: RelayId)
    requires ValidDb(w.db) && IsRelaying(w, r)
    ensures ValidDb(NextMarkUnseen(w, r).db)
  {
    var e := w.relays[r].batch[0].id;
    if e in w.db.outbox {
      var marked := MarkPublished(w.db, e).value;
      OutboxMarkKeepsValid(w.db, marked, e, marked.outbox[e]);
    }
  }

  lemma TickKeepsValid(db: Db, clock: Time)
    requires ValidDb(db)
    ensures ValidDb(db.(clock := clock))
  {
    var after := db.(clock := clock);
    SameAttemptsKeepDoubt(db, after);
  }

  lemma WorkKeepsValidDb(cfg: Config, w: World, id: WorkerId, step: WorkerStep)
    requires Safe(w) && WorkEnabled(cfg, w, id, step)
    ensures ValidDb(NextWork(cfg, w, id, step).db)
  {
    match step
    case Claim(job) => BeginKeepsValid(w.db, w.jobs[job].message);
    case Reserve => ReserveKeepsValid(w.db, w.workers[id].message, cfg.providers[|w.workers[id].failures|]);
    case Finalize =>
      FinalizeShape(cfg, w, id);
      var worker := w.workers[id];
      FinalizeKeepsValid(w.db, worker.message, worker.phase.answered, AnswerOf(worker.phase.result, cfg.expiryMs));
    case Decide =>
      var worker := w.workers[id];
      GuardedCommitKeepsValid(w.db, worker.message, worker.phase.seen, DecisionTarget(cfg, worker), DecisionPatch(cfg, worker));
    case _ =>
  }

  lemma OperateKeepsValidDb(w: World, step: OperatorStep)
    requires Safe(w) && OperateEnabled(w, step)
    ensures ValidDb(NextOperate(w, step).db)
  {
    match step
    case Recover(m, cutoff) => RecoverKeepsValid(w.db, m, cutoff);
    case Requeue(m) => RequeueCommitKeepsValid(w.db, m, FatalFailure);
    case CommitOp(op) => OpEffectKeepsValid(w, op);
    case _ =>
  }

  lemma PublishKeepsValidDb(w: World, r: RelayId, step: RelayStep)
    requires ValidDb(w.db) && PublishEnabled(w, r, step)
    ensures ValidDb(NextPublish(w, r, step).db)
  {
    match step
    case Mark => MarkKeepsValid(w, r);
    case MarkUnseen => MarkUnseenKeepsValid(w, r);
    case NoteFailure(recorded) => FailFirstKeepsValid(w, r, recorded);
    case _ =>
  }

  lemma MaintenanceKeepsValid(w: World, job: JobId, effective: bool)
    requires ValidDb(w.db) && job in w.jobs
    ensures ValidDb(NextMaintenance(w, job, effective).db)
  {
    ExpireKeepsValid(w.db, w.jobs[job].message);
  }

  lemma CreateKeepsValid(cfg: Config, w: World, newId: MessageId, key: string, now: Time, owner: Option<KeyOwner>)
    requires ValidDb(w.db) && newId !in w.db.messages && !IsLive(owner, now)
    ensures ValidDb(NextCreate(cfg, w, newId, key, now, owner).db)
  {
    CreateCommitKeepsValid(w.db, newId, key, now, cfg.ttlMs, owner);
  }

  lemma SystemKeepsValidDb(cfg: Config, w: World, act: Action)
    requires ValidDb(w.db) && Enabled(cfg, w, act) && !act.Work? && !act.Operate?
    ensures ValidDb(Next(cfg, w, act).db)
  {
    match act
    case Create(newId, key, now, owner) => CreateKeepsValid(cfg, w, newId, key, now, owner);
    case Publish(r, step) => PublishKeepsValidDb(w, r, step);
    case RunMaintenance(job, effective) => MaintenanceKeepsValid(w, job, effective);
    case RemoveJob(job) =>
    case PurgeBatch(ids, now) => PurgeKeepsValid(w.db, ids);
    case Tick(ms) => TickKeepsValid(w.db, w.db.clock + ms);
  }

  lemma NextKeepsValidDb(cfg: Config, w: World, act: Action)
    requires Safe(w) && Enabled(cfg, w, act)
    ensures ValidDb(Next(cfg, w, act).db)
  {
    match act
    case Work(id, step) => WorkKeepsValidDb(cfg, w, id, step);
    case Operate(step) => OperateKeepsValidDb(w, step);
    case _ => SystemKeepsValidDb(cfg, w, act);
  }

  // --- Every action keeps the calls safe --------------------------------------------------------

  lemma OpEffectSameRows(db: Db, op: Op)
    ensures var after := OpEffect(db, op);
      after.attempts == db.attempts && after.nextAttempt == db.nextAttempt && (forall m :: m in after.messages <==> m in db.messages)
  {
  }

  lemma RecoverSameCallers(w: World, m: MessageId, cutoff: Time)
    ensures SameCallers(w, NextRecover(w, m, cutoff))
  {
  }

  lemma RequeueSameCallers(w: World, m: MessageId)
    ensures SameCallers(w, NextRequeue(w, m))
  {
  }

  lemma CommitOpSameCallers(w: World, op: OpId)
    requires op in w.ops
    ensures SameCallers(w, NextCommitOp(w, op))
  {
    OpEffectSameRows(w.db, w.ops[op]);
  }

  lemma OperateSameCallers(w: World, step: OperatorStep)
    requires OperateEnabled(w, step)
    ensures SameCallers(w, NextOperate(w, step))
  {
    match step
    case Recover(m, cutoff) => RecoverSameCallers(w, m, cutoff);
    case Requeue(m) => RequeueSameCallers(w, m);
    case CommitOp(op) => CommitOpSameCallers(w, op);
    case _ =>
  }

  lemma FailFirstSameCallers(w: World, r: RelayId, recorded: bool)
    requires IsRelaying(w, r)
    ensures SameCallers(w, FailFirst(w, r, recorded))
  {
  }

  lemma PublishSameCallers(w: World, r: RelayId, step: RelayStep)
    requires PublishEnabled(w, r, step)
    ensures SameCallers(w, NextPublish(w, r, step))
  {
    match step
    case NoteFailure(recorded) => FailFirstSameCallers(w, r, recorded);
    case _ =>
  }

  /** One worker starts, stops or moves between phases that hold no reservation. */
  ghost predicate OneWorkerMoves(w: World, v: World, id: WorkerId) {
    && v.calls == w.calls
    && v.db.attempts == w.db.attempts
    && v.db.nextAttempt == w.db.nextAttempt
    && (forall m :: m in v.db.messages <==> m in w.db.messages)
    && (forall m :: m in w.ledger ==> m in v.ledger)
    && (forall other :: other in v.workers && other != id ==> other in w.workers && v.workers[other] == w.workers[other])
    && (id in v.workers ==> v.workers[id].Held().None? && v.workers[id].message in v.ledger)
  }

  lemma OneWorkerMovesIsQuiet(w: World, v: World, id: WorkerId)
    requires CallsSafe(w) && OneWorkerMoves(w, v, id)
    ensures CallsSafe(v)
  {
    QuietKeepsCallsSafe(w, v);
  }

  lemma ClaimMovesOne(cfg: Config, w: World, id: WorkerId, job: JobId)
    requires WorkEnabled(cfg, w, id, Claim(job))
    ensures OneWorkerMoves(w, NextClaim(w, job, id), id)
  {
    var v := NextClaim(w, job, id);
  }

  lemma DecideMovesOne(cfg: Config, w: World, id: WorkerId)
    requires WorkEnabled(cfg, w, id, Decide)
    ensures OneWorkerMoves(w, NextDecide(cfg, w, id), id)
  {
    var v := NextDecide(cfg, w, id);
  }

  lemma ReadForDecisionMovesOne(cfg: Config, w: World, id: WorkerId)
    requires WorkEnabled(cfg, w, id, ReadForDecision) && Known(w)
    ensures OneWorkerMoves(w, NextReadForDecision(cfg, w, id), id)
  {
  }

  lemma WorkKeepsCallsSafe(cfg: Config, w: World, id: WorkerId, step: WorkerStep)
    requires Safe(w) && WorkEnabled(cfg, w, id, step)
    ensures CallsSafe(NextWork(cfg, w, id, step))
  {
    var v := NextWork(cfg, w, id, step);
    match step
    case Claim(job) => ClaimMovesOne(cfg, w, id, job); OneWorkerMovesIsQuiet(w, v, id);
    case Reserve => ReserveKeepsCallsSafe(cfg, w, id);
    case CallProvider(answer, accepted) => CallKeepsCallsSafe(cfg, w, id, answer, accepted);
    case Finalize => FinalizeKeepsCallsSafe(cfg, w, id);
    case ReadForDecision => ReadForDecisionMovesOne(cfg, w, id); OneWorkerMovesIsQuiet(w, v, id);
    case Decide => DecideMovesOne(cfg, w, id); OneWorkerMovesIsQuiet(w, v, id);
    case Crash => OneWorkerMovesIsQuiet(w, v, id);
  }

  lemma CreateIsQuiet(cfg: Config, w: World, act: Action)
    requires act.Create? && Enabled(cfg, w, act) && Known(w)
    ensures QuietForCalls(w, Next(cfg, w, act))
  {
    var v := Next(cfg, w, act);
    assert forall n :: n in w.ledger || n in v.db.messages ==> n in v.ledger;
  }

  lemma MaintenanceSameCallers(w: World, job: JobId, effective: bool)
    requires job in w.jobs
    ensures SameCallers(w, NextMaintenance(w, job, effective))
  {
  }

  lemma NextKeepsCallsSafe(cfg: Config, w: World, act: Action)
    requires Safe(w) && Enabled(cfg, w, act)
    ensures CallsSafe(Next(cfg, w, act))
  {
    var v := Next(cfg, w, act);
    match act
    case Create(newId, key, now, owner) => CreateIsQuiet(cfg, w, act); QuietKeepsCallsSafe(w, v);
    case Work(id, step) => WorkKeepsCallsSafe(cfg, w, id, step);
    case Operate(step) => OperateSameCallers(w, step); SameCallersKeepCallsSafe(w, v);
    case Publish(r, step) => PublishSameCallers(w, r, step); SameCallersKeepCallsSafe(w, v);
    case RunMaintenance(job, effective) => MaintenanceSameCallers(w, job, effective); SameCallersKeepCallsSafe(w, v);
    case RemoveJob(job) => SameCallersKeepCallsSafe(w, v);
    case PurgeBatch(ids, now) => PurgeKeepsCallsSafe(w, ids, now);
    case Tick(ms) => SameCallersKeepCallsSafe(w, v);
  }

  // --- What pending transactions have read stays true ---------------------------------------------

  /** Attempt rows never change message or provider, and numbers are never reused. */
  ghost predicate SameIdentities(db: Db, after: Db) {
    && db.nextAttempt <= after.nextAttempt
    && (forall a :: a in after.attempts && a < db.nextAttempt ==>
          && a in db.attempts
          && after.attempts[a].message == db.attempts[a].message
          && after.attempts[a].provider == db.attempts[a].provider)
  }

  lemma OpsStaySound(w: World, v: World)
    requires OpsAreSound(w) && SameIdentities(w.db, v.db)
    requires forall op :: op in v.ops ==> op in w.ops && v.ops[op] == w.ops[op]
    ensures OpsAreSound(v)
  {
    forall op | op in v.ops && v.ops[op].ResolveOp?
      ensures v.ops[op].attempt in v.db.attempts ==> v.ops[op].attempt in w.db.attempts
    {
      assert w.ops[op] == v.ops[op];
    }
  }

  lemma ReadsAreSound(w: World, step: OperatorStep)
    requires Safe(w) && OperateEnabled(w, step) && (step.ReadReport? || step.ReadResolve? || step.ReadPermanent?)
    ensures OpsAreSound(NextOperate(w, step))
  {
    match step
    case ReadReport(op, pmid, terminal, found) =>
      if found.Some? {
        assert IsSettled(w.db.messages[found.value].status);
      }
    case ReadResolve(op, m, a, input) =>
    case ReadPermanent(op, m, to, error) =>
  }

  lemma ReserveSameIdentities(db: Db, m: MessageId, provider: string)
    requires ForeignKeys(db)
    ensures SameIdentities(db, ReserveProviderAttempt(db, m, provider).0)
  {
  }

  lemma FinalizeSameIdentities(db: Db, m: MessageId, a: AttemptId, input: FinalizeInput)
    ensures ForeignKeys(db) ==> SameIdentities(db, FinalizeProviderAttempt(db, m, a, input).0)
  {
    FinalizeEffect(db, m, a, input);
  }

  lemma NextKeepsOps(cfg: Config, w: World, act: Action)
    requires Safe(w) && Enabled(cfg, w, act)
    ensures OpsAreSound(Next(cfg, w, act))
  {
    var v := Next(cfg, w, act);
    if act.Operate? && (act.operation.ReadReport? || act.operation.ReadResolve? || act.operation.ReadPermanent?) {
      ReadsAreSound(w, act.operation);
    } else {
      assert SameIdentities(w.db, v.db) by {
        match act
        case Work(id, step) =>
          WorkSameIdentities(cfg, w, id, step);
        case Operate(step) => OperateSameCallers(w, step);
        case Publish(r, step) => PublishSameCallers(w, r, step);
        case PurgeBatch(ids, now) => PurgeIsExact(w.db, ids);
        case _ =>
      }
      OpsOnlyShrink(cfg, w, act);
      OpsStaySound(w, v);
    }
  }

  lemma WorkSameIdentities(cfg: Config, w: World, id: WorkerId, step: WorkerStep)
    requires ForeignKeys(w.db) && WorkEnabled(cfg, w, id, step)
    ensures SameIdentities(w.db, NextWork(cfg, w, id, step).db)
    ensures NextWork(cfg, w, id, step).ops == w.ops
  {
    match step
    case Reserve =>
      ReserveSameIdentities(w.db, w.workers[id].message, cfg.providers[|w.workers[id].failures|]);
    case Finalize =>
      FinalizeSameIdentities(w.db, w.workers[id].message, w.workers[id].phase.answered,
                             AnswerOf(w.workers[id].phase.result, cfg.expiryMs));
    case _ =>
  }

  lemma OpsOnlyShrink(cfg: Config, w: World, act: Action)
    requires ForeignKeys(w.db) && Enabled(cfg, w, act)
    requires act.Operate? ==> !act.operation.ReadReport? && !act.operation.ReadResolve? && !act.operation.ReadPermanent?
    ensures var v := Next(cfg, w, act); forall op :: op in v.ops ==> op in w.ops && v.ops[op] == w.ops[op]
  {
    match act
    case Work(id, step) => WorkSameIdentities(cfg, w, id, step);
    case _ =>
  }

  lemma NextKeepsDeciders(cfg: Config, w: World, act: Action)
    requires DecidersAreSound(w) && Enabled(cfg, w, act)
    ensures DecidersAreSound(Next(cfg, w, act))
  {
    match act
    case Work(id, step) => WorkKeepsDeciders(cfg, w, id, step);
    case Operate(step) => OperateSameCallers(w, step);
    case Publish(r, step) => PublishSameCallers(w, r, step);
    case _ =>
  }

  lemma WorkKeepsDeciders(cfg: Config, w: World, id: WorkerId, step: WorkerStep)
    requires DecidersAreSound(w) && WorkEnabled(cfg, w, id, step)
    ensures DecidersAreSound(NextWork(cfg, w, id, step))
  {
    var v := NextWork(cfg, w, id, step);
    match step
    case Claim(job) => ClaimMovesOne(cfg, w, id, job); OthersKeepDeciding(w, v, id);
    case Finalize => FinalizeShape(cfg, w, id); OthersKeepDeciding(w, v, id);
    case ReadForDecision => ReadsProcessing(cfg, w, id); OthersKeepDeciding(w, v, id);
    case Decide => DecideMovesOne(cfg, w, id); OthersKeepDeciding(w, v, id);
    case _ => OthersKeepDeciding(w, v, id);
  }

  lemma OthersKeepDeciding(w: World, v: World, id: WorkerId)
    requires DecidersAreSound(w)
    requires forall other :: other in v.workers && other != id ==> other in w.workers && v.workers[other] == w.workers[other]
    requires id in v.workers && v.workers[id].phase.Deciding? ==> v.workers[id].phase.seen == Processing
    ensures DecidersAreSound(v)
  {
  }

  /** Only `Processing` may move to `RetryScheduled` or `FatalFailure`. */
  lemma ReadsProcessing(cfg: Config, w: World, id: WorkerId)
    requires WorkEnabled(cfg, w, id, ReadForDecision)
    ensures var v := NextReadForDecision(cfg, w, id);
      && (forall other :: other in v.workers && other != id ==> other in w.workers && v.workers[other] == w.workers[other])
      && (id in v.workers ==> v.workers[id].phase == Deciding(Processing))
  {
  }

  // --- Whole runs ------------------------------------------------------------------------------------

  lemma InitIsSafe(clock: Time)
    ensures Safe(Init(clock))
  {
  }

  lemma NextKeepsSafe(cfg: Config, w: World, act: Action)
    requires Safe(w) && Enabled(cfg, w, act)
    ensures Safe(Next(cfg, w, act))
  {
    NextKeepsValidDb(cfg, w, act);
    NextKeepsCallsSafe(cfg, w, act);
    NextKeepsOps(cfg, w, act);
    NextKeepsDeciders(cfg, w, act);
  }

  lemma {:induction false} RunKeepsSafe(cfg: Config, w: World, acts: seq<Action>)
    requires Safe(w) && IsRun(cfg, w, acts)
    ensures Safe(After(cfg, w, acts))
    decreases |acts|
  {
    if acts != [] {
      NextKeepsSafe(cfg, w, acts[0]);
      RunKeepsSafe(cfg, Next(cfg, w, acts[0]), acts[1..]);
    }
  }

  /** Of two calls of one message, the earlier was cleanly refused and recorded as such; so at most the last
      can have been accepted, be ambiguous, or still wait to be finalized. */
  ghost predicate NoDuplicateSend(w: World) {
    && (forall i, j :: 0 <= i < j < |w.calls| && w.calls[i].message == w.calls[j].message ==>
          && IsDefinitiveFailure(w.calls[i].result)
          && IsRecordedFailure(w.db, w.calls[i].attempt))
    && (forall i, j :: 0 <= i < |w.calls| && 0 <= j < |w.calls| && w.calls[i].accepted && w.calls[j].accepted ==>
          (w.calls[i].message == w.calls[j].message ==> i == j))
  }

  /** In every run of any workers, relays, operators, webhooks, recoveries and purges, with crashes and
      replayed jobs, a provider call is never followed by another call of the same message unless it was
      cleanly refused and that refusal was recorded; so at most one call of a message was really accepted. */
  lemma NoPossibleDuplicateSend(cfg: Config, clock: Time, acts: seq<Action>)
    requires IsRun(cfg, Init(clock), acts)
    ensures NoDuplicateSend(After(cfg, Init(clock), acts))
  {
    InitIsSafe(clock);
    RunKeepsSafe(cfg, Init(clock), acts);
    SafeSendsOnce(After(cfg, Init(clock), acts));
  }

  lemma SafeSendsOnce(w: World)
    requires CallsSafe(w)
    ensures NoDuplicateSend(w)
  {
  }

  predicate InDoubt(db: Db, m: MessageId, a: AttemptId) {
    a in db.attempts && db.attempts[a].message == m && !db.attempts[a].Definitive()
  }

  /** In every reachable state a message has at most one attempt that is reserved, accepted or ambiguous,
      it is the newest, and there is none at all while a worker may still call a provider. */
  lemma AtMostOneInDoubt(cfg: Config, clock: Time, acts: seq<Action>, m: MessageId, a: AttemptId)
    requires IsRun(cfg, Init(clock), acts) && InDoubt(After(cfg, Init(clock), acts).db, m, a)
    ensures var db := After(cfg, Init(clock), acts).db;
      && m in db.messages && !IsOpen(db.messages[m].status)
      && (forall b: AttemptId :: InDoubt(db, m, b) ==> b == a)
      && (forall b: AttemptId :: b in db.attempts && db.attempts[b].message == m ==> b <= a)
  {
    InitIsSafe(clock);
    RunKeepsSafe(cfg, Init(clock), acts);
    OneInDoubt(After(cfg, Init(clock), acts).db, m, a);
  }

  lemma OneInDoubt(db: Db, m: MessageId, a: AttemptId)
    requires ValidDb(db) && InDoubt(db, m, a)
    ensures m in db.messages && !IsOpen(db.messages[m].status)
    ensures forall b: AttemptId :: InDoubt(db, m, b) ==> b == a
    ensures forall b: AttemptId :: b in db.attempts && db.attempts[b].message == m ==> b <= a
  {
    forall b: AttemptId | InDoubt(db, m, b) ensures b == a {
      assert a >= b && b >= a;
    }
    forall b: AttemptId | b in db.attempts && db.attempts[b].message == m ensures b <= a {
      assert a >= b;
    }
  }
}
