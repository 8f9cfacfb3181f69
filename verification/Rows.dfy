// What each action writes to the rows of the messages table, column by column. The table is told from what the
// documents say of each operation; the state machine is proved to write exactly that.
module Rows {
  import opened StateMachine
  import opened Tables
  import opened Lifecycle
  import opened Persistence
  import opened Providers
  import opened Protocol
  import opened Safety
  import opened SafetyTheorems
  import opened Progress
  import opened WorkerRefinement
  import opened Delivery
  import opened PurgeTheorems
  import opened Retention

  // --- The table ----------------------------------------------------------------------------------------------

  /** The row of `m` after a statement of worker `id`. */
  function RowAfterWork(cfg: Config, w: World, id: WorkerId, step: WorkerStep, m: MessageId): Message
    requires WorkEnabled(cfg, w, id, step) && InPass(cfg, w, id) && m in w.db.messages
  {
    var row := w.db.messages[m];
    var stamped := row.(updatedAt := w.db.clock);
    match step
    case Claim(job) =>
      if m == w.jobs[job].message && (row.status == Queued || row.status == RetryScheduled)
      then stamped.(status := Processing) else row
    case Reserve =>
      if m == w.workers[id].message && row.status == Processing
      then stamped.(status := AwaitingProviderResult, deliveryAttempts := row.deliveryAttempts + 1,
                    selectedProvider := Some(cfg.providers[|w.workers[id].failures|]))
      else row
    case Finalize =>
      var result := w.workers[id].phase.result;
      if m == w.workers[id].message && row.status == AwaitingProviderResult then
        if Accepts(result) then stamped.(status := Sent, providerMessageId := result.providerMessageId)
        else if Refuses(result) then stamped.(status := Processing)
        else row
      else row
    case Decide =>
      var worker := w.workers[id];
      var reason := if cfg.providers == [] then NoProvidersConfigured else ProvidersFailed(cfg.providers);
      if m == worker.message && row.status == Processing then
        if |worker.failures| > 0 && worker.round < cfg.maxRounds && (forall i :: 0 <= i < |worker.failures| ==> worker.failures[i]) then
          stamped.(status := RetryScheduled, deliveryAttempts := row.deliveryAttempts + 1,
                   retryRounds := row.retryRounds + 1, lastError := Some(reason))
        else
          stamped.(status := FatalFailure, lastError := Some(reason))
      else row
    case _ => row
  }

  function RowAfterOp(w: World, op: Op, m: MessageId): Message
    requires m in w.db.messages
  {
    var row := w.db.messages[m];
    var stamped := row.(updatedAt := w.db.clock);
    match op
    case ReportOp(n, seen, terminal) => if m == n && row.status == seen then stamped.(status := terminal) else row
    case ResolveOp(n, a, input) =>
      if m == n && row.status == AwaitingProviderResult && a in w.db.attempts && a !in w.db.resolutions then
        match input
        case KnownSidIs(sid) => stamped.(status := Sent, providerMessageId := Some(sid))
        case UndeliveredBy(code) => stamped.(status := Undelivered, lastError := Some(ResolvedUndelivered(code)))
      else row
    case PermanentOp(n, seen, to, error) =>
      if m == n && row.status == seen then stamped.(status := to, lastError := Some(error)) else row
  }

  function RowAfterOperate(w: World, step: OperatorStep, m: MessageId): Message
    requires step.CommitOp? ==> step.op in w.ops
    requires m in w.db.messages
  {
    var row := w.db.messages[m];
    var stamped := row.(updatedAt := w.db.clock);
    match step
    case Recover(n, cutoff) =>
      if m == n && row.status == Processing && row.updatedAt < cutoff then stamped.(status := RetryScheduled) else row
    case Requeue(n) =>
      if m == n && row.status == FatalFailure
      then stamped.(status := RetryScheduled, retryRounds := 0, lastError := None) else row
    case CommitOp(op) => RowAfterOp(w, w.ops[op], m)
    case _ => row
  }

  ghost function RowAfter(cfg: Config, w: World, act: Action, m: MessageId): Message
    requires Enabled(cfg, w, act) && AllInPass(cfg, w) && m in w.db.messages
  {
    var row := w.db.messages[m];
    match act
    case Work(id, step) => RowAfterWork(cfg, w, id, step, m)
    case Operate(step) => RowAfterOperate(w, step, m)
    case RunMaintenance(job, effective) =>
      if effective && m == w.jobs[job].message && row.status == AwaitingProviderResult
      then row.(status := Undelivered, lastError := Some(AmbiguousOutcomeExpired), updatedAt := w.db.clock) else row
    case _ => row
  }

  /** A new message: queued, untried, kept for 90 days from `now` on. */
  function FirstRow(key: string, now: Time, clock: Time): Message {
    Message(key, Queued, None, None, None, 0, 0, now + 90 * 86400000, clock)
  }

  // --- Workers stand where the program can stand ----------------------------------------------------------------

  ghost predicate AllInPass(cfg: Config, w: World) {
    forall id :: InPass(cfg, w, id)
  }

  lemma WorkKeepsInPass(cfg: Config, w: World, id: WorkerId, step: WorkerStep)
    requires WorkEnabled(cfg, w, id, step) && InPass(cfg, w, id)
    ensures InPass(cfg, NextWork(cfg, w, id, step), id)
  {
    match step
    case Reserve => ReserveShape(cfg, w, id);
    case Finalize => FinalizeAlternatives(cfg, w, id);
    case ReadForDecision => ReadShape(cfg, w, id);
    case _ =>
  }

  lemma NextKeepsInPass(cfg: Config, w: World, act: Action)
    requires AllInPass(cfg, w) && Enabled(cfg, w, act)
    ensures AllInPass(cfg, Next(cfg, w, act))
  {
    var v := Next(cfg, w, act);
    forall id ensures InPass(cfg, v, id) {
      assert InPass(cfg, w, id);
      if act.Work? && act.worker == id {
        WorkKeepsInPass(cfg, w, id, act.step);
      } else if id in v.workers {
        OthersStand(cfg, w, act, id);
      }
    }
  }

  lemma OthersStand(cfg: Config, w: World, act: Action, id: WorkerId)
    requires Enabled(cfg, w, act) && !(act.Work? && act.worker == id) && id in Next(cfg, w, act).workers
    ensures id in w.workers && Next(cfg, w, act).workers[id] == w.workers[id]
  {
    match act
    case Work(other, step) => WorkChangesOne(cfg, w, other, step);
    case Operate(step) => OperateSameCallers(w, step);
    case _ =>
  }

  lemma {:induction false} RunKeepsInPass(cfg: Config, w: World, acts: seq<Action>)
    requires AllInPass(cfg, w) && IsRun(cfg, w, acts)
    ensures AllInPass(cfg, After(cfg, w, acts))
    decreases |acts|
  {
    if acts != [] {
      NextKeepsInPass(cfg, w, acts[0]);
      RunKeepsInPass(cfg, Next(cfg, w, acts[0]), acts[1..]);
    }
  }

  // --- The state machine writes exactly that ----------------------------------------------------------------------

  lemma FinalizeWritesRow(cfg: Config, w: World, id: WorkerId, m: MessageId)
    requires Safe(w) && WorkEnabled(cfg, w, id, Finalize) && InPass(cfg, w, id) && m in w.db.messages && cfg.expiryMs > 0
    ensures var v := NextFinalize(cfg, w, id);
      m in v.db.messages && v.db.messages[m] == RowAfterWork(cfg, w, id, Finalize, m)
  {
    var worker := w.workers[id];
    AcceptsIsSent(worker.phase.result);
    assert HoldsReservation(w.db, worker.message, worker.phase.answered);
    AnswerWritesRow(w.db, worker.message, worker.phase.answered, worker.phase.result, cfg.expiryMs, m);
  }

  lemma AnswerWritesRow(db: Db, m: MessageId, a: AttemptId, result: SendResult, expiryMs: int, n: MessageId)
    requires n in db.messages && (m in db.messages ==> IsReservedFor(db, m, a)) && expiryMs > 0
    ensures var after := FinalizeProviderAttempt(db, m, a, AnswerOf(result, expiryMs)).0;
      var row := db.messages[n];
      n in after.messages && after.messages[n] ==
        if n != m || row.status != AwaitingProviderResult then row
        else if Accepts(result) then row.(status := Sent, providerMessageId := result.providerMessageId, updatedAt := db.clock)
        else if Refuses(result) then row.(status := Processing, updatedAt := db.clock)
        else row
  {
    AcceptsIsSent(result);
  }

  lemma DecideWritesRow(cfg: Config, w: World, id: WorkerId, m: MessageId)
    requires DecidersAreSound(w) && WorkEnabled(cfg, w, id, Decide) && InPass(cfg, w, id) && m in w.db.messages
    ensures var v := NextDecide(cfg, w, id);
      m in v.db.messages && v.db.messages[m] == RowAfterWork(cfg, w, id, Decide, m)
  {
    DecisionWritesRow(cfg, w.db, w.workers[id], m);
  }

  lemma DecisionWritesRow(cfg: Config, db: Db, worker: Worker, n: MessageId)
    requires worker.phase == Deciding(Processing) && |worker.failures| == |cfg.providers| && n in db.messages
    ensures var after := GuardedCommit(db, worker.message, Processing, DecisionTarget(cfg, worker), DecisionPatch(cfg, worker)).0;
      var row := db.messages[n];
      var reason := if cfg.providers == [] then NoProvidersConfigured else ProvidersFailed(cfg.providers);
      n in after.messages && after.messages[n] ==
        if n != worker.message || row.status != Processing then row
        else if RetriesAgain(cfg, worker) then
          row.(status := RetryScheduled, deliveryAttempts := row.deliveryAttempts + 1, retryRounds := row.retryRounds + 1,
               lastError := Some(reason), updatedAt := db.clock)
        else
          row.(status := FatalFailure, lastError := Some(reason), updatedAt := db.clock)
  {
    assert cfg.providers[..|cfg.providers|] == cfg.providers;
  }

  lemma WorkWritesRow(cfg: Config, w: World, id: WorkerId, step: WorkerStep, m: MessageId)
    requires Safe(w) && WorkEnabled(cfg, w, id, step) && InPass(cfg, w, id) && m in w.db.messages && cfg.expiryMs > 0
    ensures var v := NextWork(cfg, w, id, step);
      m in v.db.messages && v.db.messages[m] == RowAfterWork(cfg, w, id, step, m)
  {
    match step
    case Claim(job) => ClaimWritesRow(cfg, w, id, job, m);
    case Reserve => ReserveWritesRow(cfg, w, id, m);
    case Finalize => FinalizeWritesRow(cfg, w, id, m);
    case Decide => DecideWritesRow(cfg, w, id, m);
    case _ =>
  }

  lemma ClaimWritesRow(cfg: Config, w: World, id: WorkerId, job: JobId, m: MessageId)
    requires WorkEnabled(cfg, w, id, Claim(job)) && m in w.db.messages
    ensures var v := NextClaim(w, job, id);
      m in v.db.messages && v.db.messages[m] == RowAfterWork(cfg, w, id, Claim(job), m)
  {
  }

  lemma ReserveWritesRow(cfg: Config, w: World, id: WorkerId, m: MessageId)
    requires WorkEnabled(cfg, w, id, Reserve) && InPass(cfg, w, id) && m in w.db.messages
    ensures var v := NextReserve(cfg, w, id);
      m in v.db.messages && v.db.messages[m] == RowAfterWork(cfg, w, id, Reserve, m)
  {
  }

  lemma OpWritesRow(w: World, op: OpId, m: MessageId)
    requires op in w.ops && m in w.db.messages
    ensures var v := NextCommitOp(w, op); m in v.db.messages && v.db.messages[m] == RowAfterOp(w, w.ops[op], m)
  {
    match w.ops[op]
    case ReportOp(n, seen, terminal) => ReportWritesRow(w.db, n, seen, terminal, m);
    case ResolveOp(n, a, input) => ResolutionWritesRow(w.db, n, a, input, m);
    case PermanentOp(n, seen, to, error) => PermanentWritesRow(w.db, n, seen, to, error, m);
  }

  lemma ReportWritesRow(db: Db, m: MessageId, seen: SmsStatus, terminal: SmsStatus, n: MessageId)
    requires n in db.messages
    ensures var after := ReportCommit(db, m, seen, terminal).0;
      var row := db.messages[n];
      n in after.messages && after.messages[n] ==
        if n == m && row.status == seen then row.(status := terminal, updatedAt := db.clock) else row
  {
  }

  lemma PermanentWritesRow(db: Db, m: MessageId, seen: SmsStatus, to: SmsStatus, error: Note, n: MessageId)
    requires n in db.messages
    ensures var after := GuardedCommit(db, m, seen, to, PermanentPatch(error)).0;
      var row := db.messages[n];
      n in after.messages && after.messages[n] ==
        if n == m && row.status == seen then row.(status := to, lastError := Some(error), updatedAt := db.clock) else row
  {
  }

  lemma ResolutionWritesRow(db: Db, m: MessageId, a: AttemptId, input: ResolveInput, n: MessageId)
    requires n in db.messages
    ensures var after := ResolveCommit(db, m, a, input).0;
      var row := db.messages[n];
      n in after.messages && after.messages[n] ==
        if n != m || row.status != AwaitingProviderResult || a !in db.attempts || a in db.resolutions then row
        else match input
          case KnownSidIs(sid) => row.(status := Sent, providerMessageId := Some(sid), updatedAt := db.clock)
          case UndeliveredBy(code) =>
            row.(status := Undelivered, lastError := Some(ResolvedUndelivered(code)), updatedAt := db.clock)
  {
  }

  lemma OperateWritesRow(w: World, step: OperatorStep, m: MessageId)
    requires OperateEnabled(w, step) && m in w.db.messages
    ensures var v := NextOperate(w, step); m in v.db.messages && v.db.messages[m] == RowAfterOperate(w, step, m)
  {
    match step
    case CommitOp(op) => OpWritesRow(w, op, m);
    case _ =>
  }

  /** In every reachable state: every step leaves each row that it does not delete exactly as the table says. */
  lemma StepWritesRow(cfg: Config, w: World, act: Action, m: MessageId)
    requires Safe(w) && AllInPass(cfg, w) && Enabled(cfg, w, act) && cfg.expiryMs > 0
    requires m in w.db.messages && m in Next(cfg, w, act).db.messages
    ensures Next(cfg, w, act).db.messages[m] == RowAfter(cfg, w, act, m)
  {
    match act
    case Work(id, step) => assert InPass(cfg, w, id); WorkWritesRow(cfg, w, id, step, m);
    case Operate(step) => OperateWritesRow(w, step, m);
    case _ => SystemWritesRow(cfg, w, act, m);
  }

  lemma SystemWritesRow(cfg: Config, w: World, act: Action, m: MessageId)
    requires AllInPass(cfg, w) && Enabled(cfg, w, act) && !act.Work? && !act.Operate?
    requires m in w.db.messages && m in Next(cfg, w, act).db.messages
    ensures Next(cfg, w, act).db.messages[m] == RowAfter(cfg, w, act, m)
  {
    match act
    case PurgeBatch(ids, now) => PurgeIsExact(w.db, ids);
    case _ =>
  }

  /** A new row is that of a creation. */
  lemma StepWritesFirstRow(cfg: Config, w: World, act: Action, m: MessageId)
    requires Enabled(cfg, w, act) && m !in w.db.messages && m in Next(cfg, w, act).db.messages
    ensures act.Create? && act.newId == m && Next(cfg, w, act).db.messages[m] == FirstRow(act.key, act.now, w.db.clock)
  {
    match act
    case Create(newId, key, now, owner) => CreateWritesFirstRow(w.db, newId, key, now, cfg.ttlMs, owner);
    case Work(id, step) => WorkKeepsMessage(cfg, w, id, step, m);
    case Operate(step) => OperateKeepsMessage(w, step, m);
    case PurgeBatch(ids, now) => PurgeIsExact(w.db, ids);
    case _ =>
  }

  lemma CreateWritesFirstRow(db: Db, newId: MessageId, key: string, now: Time, ttlMs: int, owner: Option<KeyOwner>)
    requires newId !in db.messages && !IsLive(owner, now)
    ensures var (after, r) := CreateCommit(db, newId, key, now, ttlMs, owner);
      if r.Created? then
        && after.messages == db.messages[newId := FirstRow(key, now, db.clock)]
        && key in after.keys && after.keys[key] == KeyOwner(newId, now + ttlMs)
        && (forall k :: k in db.keys && k != key ==> k in after.keys && after.keys[k] == db.keys[k])
        && after.keys.Keys == db.keys.Keys + {key}
      else
        after == db
  {
  }
}
