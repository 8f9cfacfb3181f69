// The columns of a message tell the truth about its attempts: the selected provider is that of the newest
// attempt, and an accepted attempt carries the message's provider id.
module Records {
  import opened StateMachine
  import opened Tables
  import opened Lifecycle
  import opened Persistence
  import opened LifecycleInvariant
  import opened Retention
  import opened Providers
  import opened Protocol
  import opened Safety
  import opened SafetyTheorems
  import opened StatusTheorems
  import opened Resolutions

  ghost predicate SelectedIsNewest(db: Db)
    requires ForeignKeys(db)
  {
    && (forall a: AttemptId :: a in db.attempts && IsNewest(db, db.attempts[a].message, a) ==>
          db.messages[db.attempts[a].message].selectedProvider == Some(db.attempts[a].provider))
    && (forall m :: m in db.messages && db.messages[m].selectedProvider.Some? ==> HasAttempt(db, m))
  }

  ghost predicate HasAttempt(db: Db, m: MessageId) {
    exists a :: a in db.attempts && db.attempts[a].message == m
  }

  ghost predicate AcceptedHasId(db: Db)
    requires ForeignKeys(db)
  {
    forall a :: a in db.attempts && db.attempts[a].outcome == Accepted ==>
      && db.attempts[a].providerMessageId.Some?
      && db.messages[db.attempts[a].message].providerMessageId == db.attempts[a].providerMessageId
  }

  ghost predicate RecordsAgree(db: Db) {
    ForeignKeys(db) && SelectedIsNewest(db) && AcceptedHasId(db)
  }

  // --- Steps that write no attempt ------------------------------------------------------------------------

  /** No message changes its selected provider, and a new one has none. */
  ghost predicate KeepsSelected(db: Db, after: Db) {
    forall m :: m in after.messages ==>
      after.messages[m].selectedProvider == if m in db.messages then db.messages[m].selectedProvider else None
  }

  lemma SameAttemptsKeepRecords(db: Db, after: Db)
    requires RecordsAgree(db) && ForeignKeys(after) && Lawful(db, after) && KeepsSelected(db, after)
    requires after.attempts == db.attempts
    ensures RecordsAgree(after)
  {
    forall a: AttemptId | a in after.attempts && IsNewest(after, after.attempts[a].message, a)
      ensures after.messages[after.attempts[a].message].selectedProvider == Some(after.attempts[a].provider)
    {
      assert IsNewest(db, db.attempts[a].message, a);
    }
    forall m | m in after.messages && after.messages[m].selectedProvider.Some? ensures HasAttempt(after, m) {
      assert HasAttempt(db, m);
    }
  }

  // --- Reservation and result -------------------------------------------------------------------------------

  lemma ReserveKeepsRecords(db: Db, m: MessageId, provider: string)
    requires RecordsAgree(db) && ValidDb(db)
    ensures RecordsAgree(ReserveProviderAttempt(db, m, provider).0)
  {
    var (after, r) := ReserveProviderAttempt(db, m, provider);
    if r.ReservedAs? {
      ReserveKeepsValid(db, m, provider);
      ReserveSelects(db, after, m, db.nextAttempt);
    }
  }

  /** The new attempt is the newest, and names the provider that was selected with it. */
  lemma ReserveSelects(db: Db, after: Db, m: MessageId, n: AttemptId)
    requires RecordsAgree(db) && ForeignKeys(after) && n == db.nextAttempt && m in db.messages
    requires n in after.attempts && after.attempts[n].message == m && after.attempts[n].outcome == Reserved
    requires after.attempts == db.attempts[n := after.attempts[n]] && OnlyRowOf(db, after, m)
    requires after.messages[m].selectedProvider == Some(after.attempts[n].provider)
    requires after.messages[m].providerMessageId == db.messages[m].providerMessageId
    ensures RecordsAgree(after)
  {
    forall a: AttemptId | a in after.attempts && IsNewest(after, after.attempts[a].message, a)
      ensures after.messages[after.attempts[a].message].selectedProvider == Some(after.attempts[a].provider)
    {
      if a != n {
        assert after.attempts[a].message != m;
        NewestBefore(db, after, n, a);
      }
    }
    forall k | k in after.messages && after.messages[k].selectedProvider.Some? ensures HasAttempt(after, k) {
      if k != m {
        var a :| a in db.attempts && db.attempts[a].message == k;
        assert a in after.attempts;
      }
    }
  }

  lemma NewestBefore(db: Db, after: Db, n: AttemptId, a: AttemptId)
    requires n !in db.attempts && n in after.attempts && after.attempts == db.attempts[n := after.attempts[n]]
    requires a in db.attempts && a != n && IsNewest(after, db.attempts[a].message, a)
    ensures IsNewest(db, db.attempts[a].message, a)
  {
    forall b | b in db.attempts && db.attempts[b].message == db.attempts[a].message ensures b <= a {
      assert b in after.attempts;
    }
  }

  lemma FinalizeKeepsRecords(db: Db, m: MessageId, a: AttemptId, input: FinalizeInput)
    requires RecordsAgree(db) && ValidDb(db)
    ensures RecordsAgree(FinalizeProviderAttempt(db, m, a, input).0)
  {
    var (after, r) := FinalizeProviderAttempt(db, m, a, input);
    FinalizeKeepsValid(db, m, a, input);
    FinalizeIsLawful(db, m, a, input);
    FinalizeEffect(db, m, a, input);
    if r.Finalized? {
      FinalizeRow(db, m, a, input);
      FinalizeRecords(db, after, m, a);
    }
  }

  /** Only an acceptance writes provider ids: the same one to the attempt and to its message. */
  lemma FinalizeRow(db: Db, m: MessageId, a: AttemptId, input: FinalizeInput)
    requires ForeignKeys(db) && FinalizeProviderAttempt(db, m, a, input).1.Finalized?
    ensures var after := FinalizeProviderAttempt(db, m, a, input).0;
      && KeepsSelected(db, after)
      && after.attempts[a].message == m && after.attempts[a].provider == db.attempts[a].provider
      && (after.attempts[a].outcome == Accepted ==>
            && after.attempts[a].providerMessageId.Some?
            && after.messages[m].providerMessageId == after.attempts[a].providerMessageId)
  {
  }

  lemma FinalizeRecords(db: Db, after: Db, m: MessageId, a: AttemptId)
    requires RecordsAgree(db) && ForeignKeys(after) && Lawful(db, after) && KeepsSelected(db, after)
    requires a in db.attempts && a in after.attempts && after.attempts == db.attempts[a := after.attempts[a]]
    requires after.attempts[a].message == m == db.attempts[a].message && after.attempts[a].provider == db.attempts[a].provider
    requires after.attempts[a].outcome == Accepted ==>
      && after.attempts[a].providerMessageId.Some?
      && after.messages[m].providerMessageId == after.attempts[a].providerMessageId
    requires forall k :: k in after.messages ==> k in db.messages
    ensures RecordsAgree(after)
  {
    forall b: AttemptId | b in after.attempts && IsNewest(after, after.attempts[b].message, b)
      ensures after.messages[after.attempts[b].message].selectedProvider == Some(after.attempts[b].provider)
    {
      assert IsNewest(db, db.attempts[b].message, b) by {
        forall c | c in db.attempts && db.attempts[c].message == db.attempts[b].message ensures c <= b {
          assert c in after.attempts && after.attempts[c].message == after.attempts[b].message;
        }
      }
    }
    forall k | k in after.messages && after.messages[k].selectedProvider.Some? ensures HasAttempt(after, k) {
      var c :| c in db.attempts && db.attempts[c].message == k;
      assert c in after.attempts && after.attempts[c].message == k;
    }
  }

  lemma PurgeKeepsRecords(db: Db, ids: set<MessageId>)
    requires RecordsAgree(db)
    ensures RecordsAgree(Purge(db, ids))
  {
    var after := Purge(db, ids);
    PurgeIsExact(db, ids);
    PurgeKeepsForeignKeys(db, ids, after);
    forall a: AttemptId | a in after.attempts && IsNewest(after, after.attempts[a].message, a)
      ensures after.messages[after.attempts[a].message].selectedProvider == Some(after.attempts[a].provider)
    {
      assert IsNewest(db, db.attempts[a].message, a) by {
        forall b | b in db.attempts && db.attempts[b].message == db.attempts[a].message ensures b <= a {
          assert b in after.attempts;
        }
      }
    }
    forall m | m in after.messages && after.messages[m].selectedProvider.Some? ensures HasAttempt(after, m) {
      var a :| a in db.attempts && db.attempts[a].message == m;
      assert a in after.attempts;
    }
  }

  // --- Every action -------------------------------------------------------------------------------------------

  lemma OneRowKeepsSelected(db: Db, after: Db, m: MessageId)
    requires OnlyRowOf(db, after, m)
    requires m in db.messages ==> after.messages[m].selectedProvider == db.messages[m].selectedProvider
    ensures KeepsSelected(db, after)
  {
  }

  lemma OpKeepsSelected(db: Db, op: Op)
    ensures KeepsSelected(db, OpEffect(db, op))
  {
    match op
    case ReportOp(m, seen, terminal) => OneRowKeepsSelected(db, ReportCommit(db, m, seen, terminal).0, m);
    case ResolveOp(m, a, input) => OneRowKeepsSelected(db, ResolveCommit(db, m, a, input).0, m);
    case PermanentOp(m, seen, to, error) =>
      OneRowKeepsSelected(db, GuardedCommit(db, m, seen, to, PermanentPatch(error)).0, m);
  }

  lemma WorkKeepsSelected(cfg: Config, w: World, id: WorkerId, step: WorkerStep)
    requires WorkEnabled(cfg, w, id, step) && !step.Reserve? && !step.Finalize?
    ensures KeepsSelected(w.db, NextWork(cfg, w, id, step).db)
    ensures NextWork(cfg, w, id, step).db.attempts == w.db.attempts
  {
    match step
    case Claim(job) => OneRowKeepsSelected(w.db, BeginProcessing(w.db, w.jobs[job].message).0, w.jobs[job].message);
    case Decide =>
      var worker := w.workers[id];
      OneRowKeepsSelected(w.db, GuardedCommit(w.db, worker.message, worker.phase.seen, DecisionTarget(cfg, worker),
                                              DecisionPatch(cfg, worker)).0, worker.message);
    case _ =>
  }

  lemma OperateKeepsSelected(w: World, step: OperatorStep)
    requires OperateEnabled(w, step)
    ensures KeepsSelected(w.db, NextOperate(w, step).db)
    ensures NextOperate(w, step).db.attempts == w.db.attempts
  {
    match step
    case Recover(m, cutoff) => OneRowKeepsSelected(w.db, RecoverOne(w.db, m, cutoff).0, m);
    case Requeue(m) => OneRowKeepsSelected(w.db, RequeueCommit(w.db, m, FatalFailure).0, m);
    case CommitOp(op) => OpKeepsSelected(w.db, w.ops[op]);
    case _ =>
  }

  lemma WorkKeepsRecords(cfg: Config, w: World, id: WorkerId, step: WorkerStep)
    requires Safe(w) && RecordsAgree(w.db) && WorkEnabled(cfg, w, id, step) && (step.Reserve? || step.Finalize?)
    ensures RecordsAgree(NextWork(cfg, w, id, step).db)
  {
    var worker := w.workers[id];
    if step.Reserve? {
      ReserveKeepsRecords(w.db, worker.message, cfg.providers[|worker.failures|]);
    } else {
      FinalizeKeepsRecords(w.db, worker.message, worker.phase.answered, AnswerOf(worker.phase.result, cfg.expiryMs));
    }
  }

  lemma OthersKeepSelected(cfg: Config, w: World, act: Action)
    requires Enabled(cfg, w, act) && !act.PurgeBatch?
    requires act.Work? ==> !act.step.Reserve? && !act.step.Finalize?
    ensures KeepsSelected(w.db, Next(cfg, w, act).db)
    ensures Next(cfg, w, act).db.attempts == w.db.attempts
  {
    match act
    case Work(id, step) => WorkKeepsSelected(cfg, w, id, step);
    case Operate(step) => OperateKeepsSelected(w, step);
    case Create(newId, key, now, owner) => CreateKeepsSelected(w.db, newId, key, now, cfg.ttlMs, owner);
    case RunMaintenance(job, effective) => MaintenanceKeepsSelected(w, job, effective);
    case _ =>
  }

  lemma CreateKeepsSelected(db: Db, newId: MessageId, key: string, now: Time, ttlMs: int, owner: Option<KeyOwner>)
    requires newId !in db.messages && !IsLive(owner, now)
    ensures KeepsSelected(db, CreateCommit(db, newId, key, now, ttlMs, owner).0)
  {
  }

  lemma MaintenanceKeepsSelected(w: World, job: JobId, effective: bool)
    requires job in w.jobs
    ensures KeepsSelected(w.db, NextMaintenance(w, job, effective).db)
  {
    OneRowKeepsSelected(w.db, ExpireAmbiguousOutcome(w.db, w.jobs[job].message).0, w.jobs[job].message);
  }

  lemma NextKeepsRecords(cfg: Config, w: World, act: Action)
    requires Safe(w) && RecordsAgree(w.db) && Enabled(cfg, w, act)
    ensures RecordsAgree(Next(cfg, w, act).db)
  {
    if act.PurgeBatch? {
      PurgeKeepsRecords(w.db, act.ids);
    } else if act.Work? && (act.step.Reserve? || act.step.Finalize?) {
      WorkKeepsRecords(cfg, w, act.worker, act.step);
    } else {
      NextKeepsValidDb(cfg, w, act);
      NextIsLawful(cfg, w, act);
      OthersKeepSelected(cfg, w, act);
      SameAttemptsKeepRecords(w.db, Next(cfg, w, act).db);
    }
  }

  lemma {:induction false} RunKeepsRecords(cfg: Config, w: World, acts: seq<Action>)
    requires Safe(w) && RecordsAgree(w.db) && IsRun(cfg, w, acts)
    ensures RecordsAgree(After(cfg, w, acts).db)
    decreases |acts|
  {
    if acts != [] {
      NextKeepsSafe(cfg, w, acts[0]);
      NextKeepsRecords(cfg, w, acts[0]);
      RunKeepsRecords(cfg, Next(cfg, w, acts[0]), acts[1..]);
    }
  }

  /** In every reachable state a message names the provider of its newest attempt, none before the first; and
      the provider id of an accepted attempt is the message's own. */
  lemma ColumnsTellTheTruth(cfg: Config, clock: Time, acts: seq<Action>)
    requires IsRun(cfg, Init(clock), acts)
    ensures RecordsAgree(After(cfg, Init(clock), acts).db)
  {
    InitIsSafe(clock);
    RunKeepsRecords(cfg, Init(clock), acts);
  }
}
