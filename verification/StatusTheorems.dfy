// Optimistic concurrency over whole runs: rows only make table moves, provider ids and audit records
// are written once, and final statuses never change.
module StatusTheorems {
  import opened StateMachine
  import opened Tables
  import opened Lifecycle
  import opened Persistence
  import opened Retention
  import opened Providers
  import opened Protocol
  import opened Safety
  import opened SafetyTheorems

  /** One commit makes at most one move of the table, or the administrative override; a provider id stays. */
  predicate LawfulRow(was: Message, now: Message) {
    && (|| now.status == was.status
        || IsValidTransition(was.status, now.status)
        || (was.status == FatalFailure && now.status == RetryScheduled))
    && (was.providerMessageId.Some? ==> now.providerMessageId == was.providerMessageId)
  }

  /** Every surviving row moves lawfully, a new row is queued, and audit records are immutable. */
  ghost predicate Lawful(db: Db, after: Db) {
    && (forall m :: m in db.messages && m in after.messages ==> LawfulRow(db.messages[m], after.messages[m]))
    && (forall m :: m in after.messages && m !in db.messages ==> after.messages[m].status == Queued)
    && (forall a :: a in db.resolutions && db.resolutions[a].message in after.messages ==>
          a in after.resolutions && after.resolutions[a] == db.resolutions[a])
  }

  lemma OneRowLawful(db: Db, after: Db, m: MessageId)
    requires OnlyRowOf(db, after, m)
    requires m in db.messages ==> LawfulRow(db.messages[m], after.messages[m])
    requires forall a :: a in db.resolutions ==> a in after.resolutions && after.resolutions[a] == db.resolutions[a]
    ensures Lawful(db, after)
  {
  }

  lemma SameRowsLawful(db: Db, after: Db)
    requires after.messages == db.messages && after.resolutions == db.resolutions
    ensures Lawful(db, after)
  {
  }

  // --- Each repository method, with any commits between its read and its update -----------------------

  lemma GuardedTransitionIsLawful(db: Db, m: MessageId, to: SmsStatus, patch: Patch, env: Db -> Db)
    requires ValidDb(db) && ValidDb(env(db))
    ensures var (after, r) := GuardedTransition(db, m, to, patch, env);
      match r
      case Moved(row) =>
        && Lawful(env(db), after)
        && HasStatus(env(db), m, db.messages[m].status) && IsValidTransition(db.messages[m].status, to)
        && HasStatus(after, m, to) && after.messages[m] == row
      case GuardLostRace =>
        after == env(db) && !HasStatus(env(db), m, db.messages[m].status)
      case MessageNotFound => after == db && m !in db.messages
      case InvalidTransition(source) => after == db && HasStatus(db, m, source) && !IsValidTransition(source, to)
  {
    var (after, r) := GuardedTransition(db, m, to, patch, env);
    if r.Moved? {
      OneRowLawful(env(db), after, m);
    }
  }

  /** A resolution leaves what others committed as it is, or makes the one move it validated. */
  lemma ResolutionIsLawful(db: Db, m: MessageId, a: AttemptId, input: ResolveInput, env: Db -> Db)
    requires ValidDb(env(db))
    ensures var (after, r) := ResolveTwilioAttempt(db, m, a, input, env);
      if r.Resolved? then
        && HasStatus(env(db), m, AwaitingProviderResult) && Lawful(env(db), after)
        && HasStatus(after, m, if input.KnownSidIs? then Sent else Undelivered)
      else
        after == db || after == env(db)
  {
    if ResolveTwilioAttempt(db, m, a, input, env).1.Resolved? {
      ResolveCommitIsLawful(env(db), m, a, input);
    }
  }

  /** The one move outside the table: a fatal message is requeued with a fresh budget. */
  lemma RequeueOverridesFatalOnly(db: Db, m: MessageId, env: Db -> Db)
    requires ValidDb(env(db))
    ensures var (after, r) := ResetForRequeue(db, m, env);
      if r.RequeuedAs? then
        && HasStatus(env(db), m, FatalFailure) && Lawful(env(db), after)
        && HasStatus(after, m, RetryScheduled) && after.messages[m].retryRounds == 0
        && !IsValidTransition(FatalFailure, RetryScheduled)
      else
        after == db || after == env(db)
  {
    if ResetForRequeue(db, m, env).1.RequeuedAs? {
      RequeueIsLawful(env(db), m);
    }
  }

  /** A delivery report makes a move of the table from the status held at the update, or none. */
  lemma ReportIsLawful(db: Db, pmid: string, terminal: SmsStatus, m: MessageId, env: Db -> Db)
    requires IsFound(db, pmid, Some(m))
    ensures var (after, r) := ApplyDeliveryReport(db, pmid, terminal, Some(m), env);
      if r.Applied? then
        && HasStatus(env(db), m, db.messages[m].status) && Lawful(env(db), after) && HasStatus(after, m, terminal)
      else
        after == db || after == env(db)
  {
    if ApplyDeliveryReport(db, pmid, terminal, Some(m), env).1.Applied? {
      ReportCommitIsLawful(env(db), m, db.messages[m].status, terminal);
    }
  }

  lemma BeginIsLawful(db: Db, m: MessageId)
    ensures Lawful(db, BeginProcessing(db, m).0)
  {
    OneRowLawful(db, BeginProcessing(db, m).0, m);
  }

  lemma RecoverIsLawful(db: Db, m: MessageId, cutoff: Time)
    ensures Lawful(db, RecoverOne(db, m, cutoff).0)
  {
    OneRowLawful(db, RecoverOne(db, m, cutoff).0, m);
  }

  lemma ReserveIsLawful(db: Db, m: MessageId, provider: string)
    ensures Lawful(db, ReserveProviderAttempt(db, m, provider).0)
  {
    OneRowLawful(db, ReserveProviderAttempt(db, m, provider).0, m);
  }

  lemma FinalizeIsLawful(db: Db, m: MessageId, a: AttemptId, input: FinalizeInput)
    requires ValidDb(db)
    ensures Lawful(db, FinalizeProviderAttempt(db, m, a, input).0)
  {
    OneRowLawful(db, FinalizeProviderAttempt(db, m, a, input).0, m);
  }

  lemma GuardedCommitIsLawful(db: Db, m: MessageId, seen: SmsStatus, to: SmsStatus, patch: Patch)
    requires IsValidTransition(seen, to)
    ensures Lawful(db, GuardedCommit(db, m, seen, to, patch).0)
  {
    var (after, r) := GuardedCommit(db, m, seen, to, patch);
    if r.Moved? {
      OneRowLawful(db, after, m);
    } else {
      SameRowsLawful(db, after);
    }
  }

  lemma ResolveCommitIsLawful(db: Db, m: MessageId, a: AttemptId, input: ResolveInput)
    requires ValidDb(db)
    ensures Lawful(db, ResolveCommit(db, m, a, input).0)
  {
    var (after, r) := ResolveCommit(db, m, a, input);
    if r.Resolved? {
      ResolvedRowIsLawful(db, m, a, input);
      OneRowLawful(db, after, m);
    } else {
      SameRowsLawful(db, after);
    }
  }

  lemma ResolvedRowIsLawful(db: Db, m: MessageId, a: AttemptId, input: ResolveInput)
    requires ProviderIdMeansSettled(db) && ResolveCommit(db, m, a, input).1.Resolved?
    ensures var after := ResolveCommit(db, m, a, input).0;
      && m in db.messages && m in after.messages && LawfulRow(db.messages[m], after.messages[m])
      && (forall c :: c in db.resolutions ==> c in after.resolutions && after.resolutions[c] == db.resolutions[c])
  {
  }

  lemma ReportCommitIsLawful(db: Db, m: MessageId, seen: SmsStatus, terminal: SmsStatus)
    requires IsValidTransition(seen, terminal)
    ensures Lawful(db, ReportCommit(db, m, seen, terminal).0)
  {
    OneRowLawful(db, ReportCommit(db, m, seen, terminal).0, m);
  }

  lemma ExpireIsLawful(db: Db, m: MessageId)
    ensures Lawful(db, ExpireAmbiguousOutcome(db, m).0)
  {
    OneRowLawful(db, ExpireAmbiguousOutcome(db, m).0, m);
  }

  lemma RequeueIsLawful(db: Db, m: MessageId)
    ensures Lawful(db, RequeueCommit(db, m, FatalFailure).0)
  {
    OneRowLawful(db, RequeueCommit(db, m, FatalFailure).0, m);
  }

  lemma CreateIsLawful(db: Db, newId: MessageId, key: string, now: Time, ttlMs: int, owner: Option<KeyOwner>)
    requires newId !in db.messages && !IsLive(owner, now)
    ensures Lawful(db, CreateCommit(db, newId, key, now, ttlMs, owner).0)
  {
  }

  lemma OpIsLawful(w: World, op: OpId)
    requires Safe(w) && op in w.ops
    ensures Lawful(w.db, OpEffect(w.db, w.ops[op]))
  {
    match w.ops[op]
    case ReportOp(m, seen, terminal) => ReportCommitIsLawful(w.db, m, seen, terminal);
    case ResolveOp(m, a, input) => ResolveCommitIsLawful(w.db, m, a, input);
    case PermanentOp(m, seen, to, error) => GuardedCommitIsLawful(w.db, m, seen, to, PermanentPatch(error));
  }

  lemma WorkIsLawful(cfg: Config, w: World, id: WorkerId, step: WorkerStep)
    requires Safe(w) && WorkEnabled(cfg, w, id, step)
    ensures Lawful(w.db, NextWork(cfg, w, id, step).db)
  {
    match step
    case Claim(job) => BeginIsLawful(w.db, w.jobs[job].message);
    case Reserve => ReserveIsLawful(w.db, w.workers[id].message, cfg.providers[|w.workers[id].failures|]);
    case Finalize =>
      FinalizeIsLawful(w.db, w.workers[id].message, w.workers[id].phase.answered,
                       AnswerOf(w.workers[id].phase.result, cfg.expiryMs));
    case Decide =>
      var worker := w.workers[id];
      GuardedCommitIsLawful(w.db, worker.message, worker.phase.seen, DecisionTarget(cfg, worker), DecisionPatch(cfg, worker));
    case _ =>
  }

  lemma OperateIsLawful(w: World, step: OperatorStep)
    requires Safe(w) && OperateEnabled(w, step)
    ensures Lawful(w.db, NextOperate(w, step).db)
  {
    match step
    case Recover(m, cutoff) => RecoverIsLawful(w.db, m, cutoff);
    case Requeue(m) => RequeueIsLawful(w.db, m);
    case CommitOp(op) => OpIsLawful(w, op);
    case _ => SameRowsLawful(w.db, w.db);
  }

  lemma MaintenanceIsLawful(w: World, job: JobId, effective: bool)
    requires job in w.jobs
    ensures Lawful(w.db, NextMaintenance(w, job, effective).db)
  {
    if effective {
      ExpireIsLawful(w.db, w.jobs[job].message);
    } else {
      SameRowsLawful(w.db, w.db);
    }
  }

  lemma PurgeIsLawful(db: Db, ids: set<MessageId>)
    requires ForeignKeys(db)
    ensures Lawful(db, Purge(db, ids))
  {
    PurgeIsExact(db, ids);
  }

  /** In every reachable state, whatever step comes next, every row makes at most one lawful move. */
  lemma NextIsLawful(cfg: Config, w: World, act: Action)
    requires Safe(w) && Enabled(cfg, w, act)
    ensures Lawful(w.db, Next(cfg, w, act).db)
  {
    match act
    case Create(newId, key, now, owner) => CreateIsLawful(w.db, newId, key, now, cfg.ttlMs, owner);
    case Work(id, step) => WorkIsLawful(cfg, w, id, step);
    case Operate(step) => OperateIsLawful(w, step);
    case Publish(r, step) => SameRowsLawful(w.db, Next(cfg, w, act).db);
    case RunMaintenance(job, effective) => MaintenanceIsLawful(w, job, effective);
    case RemoveJob(job) => SameRowsLawful(w.db, w.db);
    case PurgeBatch(ids, now) => PurgeIsLawful(w.db, ids);
    case Tick(ms) => SameRowsLawful(w.db, Next(cfg, w, act).db);
  }

  // --- Over whole runs --------------------------------------------------------------------------------

  /** A message id that was ever used is never inserted again. */
  ghost predicate KeepsLedger(w: World, v: World) {
    && (forall m :: m in w.ledger ==> m in v.ledger)
    && (forall m :: m in v.db.messages && m in w.ledger ==> m in w.db.messages)
  }

  lemma WorkKeepsLedger(cfg: Config, w: World, id: WorkerId, step: WorkerStep)
    requires WorkEnabled(cfg, w, id, step)
    ensures KeepsLedger(w, NextWork(cfg, w, id, step))
  {
    match step
    case Claim(job) => ClaimMovesOne(cfg, w, id, job);
    case Decide => DecideMovesOne(cfg, w, id);
    case _ =>
  }

  lemma NextKeepsLedger(cfg: Config, w: World, act: Action)
    requires Safe(w) && Enabled(cfg, w, act)
    ensures KeepsLedger(w, Next(cfg, w, act))
  {
    match act
    case Work(id, step) => WorkKeepsLedger(cfg, w, id, step);
    case Operate(step) => OperateSameCallers(w, step);
    case Publish(r, step) => PublishSameCallers(w, r, step);
    case RunMaintenance(job, effective) => MaintenanceSameCallers(w, job, effective);
    case PurgeBatch(ids, now) => PurgeIsExact(w.db, ids);
    case _ =>
  }

  predicate IsFinal(status: SmsStatus) {
    status == Delivered || status == Undelivered || status == Rejected
  }

  ghost predicate RowKept(db: Db, after: Db, m: MessageId)
    requires m in db.messages && m in after.messages
  {
    && (IsFinal(db.messages[m].status) ==> after.messages[m].status == db.messages[m].status)
    && (db.messages[m].providerMessageId.Some? ==>
          after.messages[m].providerMessageId == db.messages[m].providerMessageId)
  }

  lemma LawfulKeepsRow(db: Db, after: Db, m: MessageId)
    requires Lawful(db, after) && m in db.messages && m in after.messages
    ensures RowKept(db, after, m)
  {
  }

  /** Along any run a delivered, undelivered or rejected message keeps its status, and any message keeps
      its provider id once it has one, until it is purged; a purged id never comes back. */
  lemma {:induction false} FinalStatusAndProviderIdStay(cfg: Config, w: World, acts: seq<Action>, m: MessageId)
    requires Safe(w) && IsRun(cfg, w, acts) && m in w.db.messages
    ensures var v := After(cfg, w, acts);
      m in v.db.messages ==> RowKept(w.db, v.db, m)
    decreases |acts|
  {
    if acts != [] {
      var next := Next(cfg, w, acts[0]);
      NextKeepsSafe(cfg, w, acts[0]);
      NextIsLawful(cfg, w, acts[0]);
      NextKeepsLedger(cfg, w, acts[0]);
      if m in next.db.messages {
        LawfulKeepsRow(w.db, next.db, m);
        FinalStatusAndProviderIdStay(cfg, next, acts[1..], m);
      } else {
        GoneForGood(cfg, next, acts[1..], m);
      }
    }
  }

  lemma {:induction false} GoneForGood(cfg: Config, w: World, acts: seq<Action>, m: MessageId)
    requires Safe(w) && IsRun(cfg, w, acts) && m in w.ledger && m !in w.db.messages
    ensures m !in After(cfg, w, acts).db.messages
    decreases |acts|
  {
    if acts != [] {
      NextKeepsSafe(cfg, w, acts[0]);
      NextKeepsLedger(cfg, w, acts[0]);
      GoneForGood(cfg, Next(cfg, w, acts[0]), acts[1..], m);
    }
  }

  /** Along any run an audit record stays as written while its message is kept, and agrees with it:
      a known SID is the message's provider id, a confirmed non-delivery its final status. */
  lemma {:induction false} AuditIsImmutable(cfg: Config, w: World, acts: seq<Action>, a: AttemptId)
    requires Safe(w) && IsRun(cfg, w, acts) && a in w.db.resolutions
    ensures var v := After(cfg, w, acts);
      var r := w.db.resolutions[a];
      r.message in v.db.messages ==>
        && a in v.db.resolutions && v.db.resolutions[a] == r
        && IsSettled(v.db.messages[r.message].status)
        && (r.kind == KnownSid ==> v.db.messages[r.message].providerMessageId == r.providerMessageId)
        && (r.kind == ConfirmedUndelivered ==> v.db.messages[r.message].status == Undelivered)
    decreases |acts|
  {
    var m := w.db.resolutions[a].message;
    assert m in w.db.messages;
    if acts != [] {
      var next := Next(cfg, w, acts[0]);
      NextKeepsSafe(cfg, w, acts[0]);
      NextIsLawful(cfg, w, acts[0]);
      NextKeepsLedger(cfg, w, acts[0]);
      if m in next.db.messages {
        AuditIsImmutable(cfg, next, acts[1..], a);
      } else {
        GoneForGood(cfg, next, acts[1..], m);
      }
    }
  }

  /** A worker that finalizes after an audited resolution cannot change the message. */
  lemma LateFinalizeIsHarmless(db: Db, m: MessageId, a: AttemptId, b: AttemptId, input: FinalizeInput)
    requires ValidDb(db) && b in db.resolutions && db.resolutions[b].message == m
    ensures FinalizeProviderAttempt(db, m, a, input).0.messages == db.messages
  {
    assert m in db.messages;
  }
}
