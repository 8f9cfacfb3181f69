// The lifecycle runs down: without recovery or requeue of a message, every step of its worker lowers
// a rank made of the rounds left, the providers left in the pass, and the worker's phase.
module Progress {
  import opened StateMachine
  import opened Tables
  import opened Lifecycle
  import opened Retention
  import opened Providers
  import opened Protocol
  import opened Safety
  import opened SafetyTheorems
  import opened Dispatch
  import opened Accounting
  import opened Bounds

  function PhaseRank(phase: Phase): nat {
    match phase
    case Ready => 4
    case InFlight(_) => 3
    case Answered(_, _, _) => 2
    case Deciding(_) => 1
  }

  /** More than any rank within one round. */
  function Span(cfg: Config): nat {
    5 * (|cfg.providers| + 2)
  }

  /** Rounds left, then providers left, then phase, in one number. */
  function WorkerRank(cfg: Config, worker: Worker): int {
    (cfg.maxRounds - worker.round) * Span(cfg) + 5 * (|cfg.providers| - |worker.failures|) + PhaseRank(worker.phase)
  }

  function WaitingRank(cfg: Config, row: Message): int {
    (cfg.maxRounds - row.retryRounds) * Span(cfg) + 5 * (|cfg.providers| + 1)
  }

  function Rank(cfg: Config, w: World, m: MessageId): int {
    if HasWorker(w, m) then WorkerRank(cfg, w.workers[w.ledger[m].claimant])
    else if IsWaiting(w.db, m) then WaitingRank(cfg, w.db.messages[m])
    else 0
  }

  /** A step of the worker of `m`, or the claim that starts one. */
  predicate StepsOn(cfg: Config, w: World, act: Action, m: MessageId)
    requires act.Work? ==> WorkEnabled(cfg, w, act.worker, act.step)
  {
    act.Work? &&
    match act.step
    case Claim(job) => w.jobs[job].message == m && IsWaiting(w.db, m)
    case _ => w.workers[act.worker].message == m
  }

  /** A recovery or requeue of `m` that takes effect. */
  predicate Restarts(w: World, act: Action, m: MessageId) {
    act.Operate? &&
    match act.operation
    case Recover(n, cutoff) => n == m && RecoverOne(w.db, m, cutoff).1
    case Requeue(n) => n == m && HasStatus(w.db, m, FatalFailure)
    case _ => false
  }

  lemma RankIsNatural(cfg: Config, w: World, m: MessageId)
    requires Bounded(cfg, w) && Accounts(w) && m in w.ledger
    ensures Rank(cfg, w, m) >= 0
    ensures HasWorker(w, m) ==> Rank(cfg, w, m) > 0
  {
    if HasWorker(w, m) {
      WorkerRankIsPositive(cfg, w, w.ledger[m].claimant);
    } else if IsWaiting(w.db, m) {
      WaitingRankIsNatural(cfg, w, m);
    }
  }

  lemma WorkerRankIsPositive(cfg: Config, w: World, id: WorkerId)
    requires Bounded(cfg, w) && id in w.workers
    ensures WorkerRank(cfg, w.workers[id]) > 0
  {
    assert WorkerFits(cfg, w, id);
    ProductIsNatural(cfg.maxRounds - w.workers[id].round, Span(cfg));
  }

  lemma WaitingRankIsNatural(cfg: Config, w: World, m: MessageId)
    requires Bounded(cfg, w) && Accounts(w) && IsWaiting(w.db, m)
    ensures WaitingRank(cfg, w.db.messages[m]) >= 0
  {
    RoundsWithinLimit(cfg, w, m);
    ProductIsNatural(cfg.maxRounds - w.db.messages[m].retryRounds, Span(cfg));
  }

  lemma RoundsWithinLimit(cfg: Config, w: World, m: MessageId)
    requires Bounded(cfg, w) && Accounts(w) && m in w.db.messages
    ensures w.db.messages[m].retryRounds <= cfg.maxRounds
  {
    assert Balanced(w.db, m, w.ledger[m]) && WithinBudget(cfg, w.ledger[m]);
  }

  lemma ProductIsNatural(x: nat, y: nat)
    ensures x * y >= 0
  {
  }

  // --- Steps that leave the rank alone ---------------------------------------------------------------

  /** The claim on `m`, its footing and its worker are as before, or gone. */
  ghost predicate KeepsStanding(w: World, v: World, m: MessageId) {
    && m in w.ledger && m in v.ledger && v.ledger[m].claimant == w.ledger[m].claimant
    && (m in v.db.messages ==> m in w.db.messages && SameFooting(w.db.messages[m], v.db.messages[m]))
  }

  lemma RankKept(cfg: Config, w: World, v: World, m: MessageId)
    requires Bounded(cfg, w) && Accounts(w) && KeepsStanding(w, v, m)
    requires HasWorker(v, m) <==> HasWorker(w, m)
    requires HasWorker(w, m) ==> v.workers[w.ledger[m].claimant] == w.workers[w.ledger[m].claimant]
    ensures Rank(cfg, v, m) <= Rank(cfg, w, m)
  {
    RankIsNatural(cfg, w, m);
  }

  /** The worker of `m` has moved on within its pass, or ended. */
  lemma RankFallsWithWorker(cfg: Config, w: World, v: World, m: MessageId, id: WorkerId)
    requires Bounded(cfg, w) && Accounts(w) && KeepsStanding(w, v, m)
    requires id in w.workers && w.workers[id].message == m
    requires id in v.workers ==> v.workers[id].message == m && WorkerRank(cfg, v.workers[id]) < WorkerRank(cfg, w.workers[id])
    ensures Rank(cfg, v, m) < Rank(cfg, w, m)
  {
    assert WorkerFits(cfg, w, id);
    RankIsNatural(cfg, w, m);
  }

  lemma WorkKeepsStanding(cfg: Config, w: World, id: WorkerId, step: WorkerStep, m: MessageId)
    requires WorkEnabled(cfg, w, id, step) && m in w.ledger
    requires step.Claim? ==> w.jobs[step.job].message != m || !IsWaiting(w.db, m)
    requires step.Decide? ==> w.workers[id].message != m && DecidersAreSound(w)
    ensures KeepsStanding(w, NextWork(cfg, w, id, step), m)
  {
    match step
    case Claim(job) => ClaimEffect(w, id, job);
    case Reserve => ReserveFooting(w.db, w.workers[id].message, cfg.providers[|w.workers[id].failures|]);
    case Finalize =>
      FinalizeStanding(w.db, w.workers[id].message, w.workers[id].phase.answered,
                       AnswerOf(w.workers[id].phase.result, cfg.expiryMs));
    case Decide => DecideOthers(cfg, w, id);
    case _ =>
  }

  /** A worker's step changes only its own entry. */
  lemma WorkChangesOne(cfg: Config, w: World, id: WorkerId, step: WorkerStep)
    requires WorkEnabled(cfg, w, id, step)
    ensures var v := NextWork(cfg, w, id, step);
      && (forall other :: other != id ==> (other in v.workers <==> other in w.workers))
      && (forall other :: other in w.workers && other != id ==> v.workers[other] == w.workers[other])
      && (id in v.workers ==> v.workers[id].message == (if step.Claim? then w.jobs[step.job].message else w.workers[id].message))
      && (id in v.workers && step.Claim? ==> IsWaiting(w.db, w.jobs[step.job].message))
  {
    match step
    case Claim(job) => ClaimEffect(w, id, job);
    case Finalize => FinalizeOthers(cfg, w, id);
    case _ =>
  }

  lemma FinalizeOthers(cfg: Config, w: World, id: WorkerId)
    requires WorkEnabled(cfg, w, id, Finalize)
    ensures var v := NextFinalize(cfg, w, id);
      && (forall other :: other != id ==> (other in v.workers <==> other in w.workers))
      && (forall other :: other in w.workers && other != id ==> v.workers[other] == w.workers[other])
      && (id in v.workers ==> v.workers[id].message == w.workers[id].message)
  {
  }

  lemma StepsOfOthers(cfg: Config, w: World, id: WorkerId, step: WorkerStep, m: MessageId)
    requires Bounded(cfg, w) && Accounts(w) && DecidersAreSound(w) && m in w.ledger && WorkEnabled(cfg, w, id, step)
    requires !StepsOn(cfg, w, Work(id, step), m)
    ensures Rank(cfg, NextWork(cfg, w, id, step), m) <= Rank(cfg, w, m)
  {
    WorkKeepsStanding(cfg, w, id, step, m);
    WorkChangesOne(cfg, w, id, step);
    RankKept(cfg, w, NextWork(cfg, w, id, step), m);
  }

  // --- Steps of the worker itself -----------------------------------------------------------------------

  lemma ClaimLowersRank(cfg: Config, w: World, id: WorkerId, job: JobId)
    requires Bounded(cfg, w) && Accounts(w) && WorkEnabled(cfg, w, id, Claim(job)) && IsWaiting(w.db, w.jobs[job].message)
    ensures Rank(cfg, NextClaim(w, job, id), w.jobs[job].message) < Rank(cfg, w, w.jobs[job].message)
  {
    ClaimEffect(w, id, job);
    assert w.jobs[job].message in w.ledger;
    ClaimRank(cfg, w, NextClaim(w, job, id), w.jobs[job].message, id);
  }

  lemma ClaimRank(cfg: Config, w: World, v: World, m: MessageId, id: WorkerId)
    requires Bounded(cfg, w) && IsWaiting(w.db, m) && m in w.ledger && m in v.ledger && v.ledger[m].claimant == id
    requires id in v.workers && v.workers[id] == Worker(m, w.db.messages[m].retryRounds, [], Ready)
    ensures Rank(cfg, v, m) < Rank(cfg, w, m)
  {
    WaitingHasNoWorker(cfg, w, m);
  }

  lemma PassLowersRank(cfg: Config, w: World, id: WorkerId, step: WorkerStep)
    requires Bounded(cfg, w) && WorkEnabled(cfg, w, id, step) && !step.Claim? && !step.Decide?
    ensures var v := NextWork(cfg, w, id, step);
      && (id in v.workers ==> v.workers[id].message == w.workers[id].message)
      && (id in v.workers ==> WorkerRank(cfg, v.workers[id]) < WorkerRank(cfg, w.workers[id]))
  {
    var v := NextWork(cfg, w, id, step);
    if step.Finalize? {
      FinalizeProgress(cfg, w, id);
      FinalizeShape(cfg, w, id);
      if id in v.workers { RankFallsByFailure(cfg, w.workers[id], v.workers[id]); }
    } else {
      PhaseFalls(cfg, w, id, step);
      if id in v.workers { RankFallsByPhase(cfg, w.workers[id], v.workers[id]); }
    }
  }

  lemma RankFallsByPhase(cfg: Config, was: Worker, now: Worker)
    requires now == was.(phase := now.phase) && PhaseRank(now.phase) < PhaseRank(was.phase)
    ensures WorkerRank(cfg, now) < WorkerRank(cfg, was)
  {
  }

  lemma RankFallsByFailure(cfg: Config, was: Worker, now: Worker)
    requires now.round == was.round && |now.failures| == |was.failures| + 1
    requires was.phase.Answered? && now.phase.Ready?
    ensures WorkerRank(cfg, now) < WorkerRank(cfg, was)
  {
  }

  lemma PhaseFalls(cfg: Config, w: World, id: WorkerId, step: WorkerStep)
    requires WorkEnabled(cfg, w, id, step) && !step.Claim? && !step.Decide? && !step.Finalize?
    ensures var v := NextWork(cfg, w, id, step);
      id in v.workers ==> PhaseRank(v.workers[id].phase) < PhaseRank(w.workers[id].phase)
                          && v.workers[id] == w.workers[id].(phase := v.workers[id].phase)
  {
  }

  lemma RetryArithmetic(cfg: Config, round: nat)
    ensures (cfg.maxRounds - (round + 1)) * Span(cfg) + 5 * (|cfg.providers| + 1) < (cfg.maxRounds - round) * Span(cfg)
  {
    assert (cfg.maxRounds - (round + 1)) * Span(cfg) == (cfg.maxRounds - round) * Span(cfg) - Span(cfg);
  }

  /** After a decision the message has no worker; if it waits, it is in its next round. */
  lemma DecideRow(cfg: Config, w: World, id: WorkerId)
    requires Bounded(cfg, w) && DecidersAreSound(w) && WorkEnabled(cfg, w, id, Decide)
    ensures var v := NextDecide(cfg, w, id);
      var m := w.workers[id].message;
      && !HasWorker(v, m)
      && (IsWaiting(v.db, m) ==> v.db.messages[m].retryRounds == w.workers[id].round + 1)
  {
    assert WorkerFits(cfg, w, id);
    DecideOthers(cfg, w, id);
    DecideLeavesNoWorker(cfg, w, id);
  }

  lemma DecideLowersRank(cfg: Config, w: World, id: WorkerId)
    requires Bounded(cfg, w) && Accounts(w) && DecidersAreSound(w) && WorkEnabled(cfg, w, id, Decide)
    ensures Rank(cfg, NextDecide(cfg, w, id), w.workers[id].message) < Rank(cfg, w, w.workers[id].message)
  {
    var m := w.workers[id].message;
    DecideRow(cfg, w, id);
    DecideRank(cfg, w, NextDecide(cfg, w, id), m, id);
  }

  lemma DecideRank(cfg: Config, w: World, v: World, m: MessageId, id: WorkerId)
    requires Bounded(cfg, w) && Accounts(w) && id in w.workers && w.workers[id].message == m
    requires !HasWorker(v, m) && (IsWaiting(v.db, m) ==> v.db.messages[m].retryRounds == w.workers[id].round + 1)
    ensures Rank(cfg, v, m) < Rank(cfg, w, m)
  {
    assert WorkerFits(cfg, w, id);
    RankIsNatural(cfg, w, m);
    RetryArithmetic(cfg, w.workers[id].round);
  }

  // --- Every action ----------------------------------------------------------------------------------------

  lemma OperateKeepsStanding(w: World, step: OperatorStep, m: MessageId)
    requires OpsAreSound(w) && OperateEnabled(w, step) && m in w.ledger && !Restarts(w, Operate(step), m)
    requires forall n :: n in w.db.messages ==> n in w.ledger
    ensures KeepsStanding(w, NextOperate(w, step), m)
  {
    match step
    case Recover(n, cutoff) => if RecoverOne(w.db, n, cutoff).1 { RecoverOthers(w, n, cutoff); }
    case Requeue(n) => if HasStatus(w.db, n, FatalFailure) { RequeueOthers(w, n); }
    case CommitOp(op) => OpStanding(w, op);
    case _ =>
  }

  lemma OthersKeepStanding(cfg: Config, w: World, act: Action, m: MessageId)
    requires Accounts(w) && Safe(w) && Enabled(cfg, w, act) && m in w.ledger
    requires !act.Work? && !Restarts(w, act, m)
    ensures KeepsStanding(w, Next(cfg, w, act), m) && Next(cfg, w, act).workers == w.workers
  {
    match act
    case Operate(step) => OperateKeepsStanding(w, step, m); OperateSameCallers(w, step);
    case Create(newId, key, now, owner) => CreateKeepsStanding(cfg, w, act, m);
    case RunMaintenance(job, effective) => MaintenanceKeepsStanding(w, job, effective, m);
    case PurgeBatch(ids, now) => PurgeKeepsStanding(w, ids, now, m);
    case _ =>
  }

  lemma CreateKeepsStanding(cfg: Config, w: World, act: Action, m: MessageId)
    requires act.Create? && Enabled(cfg, w, act) && m in w.ledger
    ensures KeepsStanding(w, Next(cfg, w, act), m)
  {
  }

  lemma MaintenanceKeepsStanding(w: World, job: JobId, effective: bool, m: MessageId)
    requires job in w.jobs && m in w.ledger
    ensures KeepsStanding(w, NextMaintenance(w, job, effective), m)
  {
    ExpireStanding(w.db, w.jobs[job].message);
  }

  lemma PurgeKeepsStanding(w: World, ids: set<MessageId>, now: Time, m: MessageId)
    requires m in w.ledger
    ensures KeepsStanding(w, NextPurge(w, ids, now), m)
  {
    PurgeIsExact(w.db, ids);
  }

  /** Every step of the worker of `m` lowers its rank, and nothing but a recovery or requeue raises it. */
  lemma RankFalls(cfg: Config, w: World, act: Action, m: MessageId)
    requires Bounded(cfg, w) && Accounts(w) && Safe(w) && Enabled(cfg, w, act) && m in w.ledger
    requires !Restarts(w, act, m)
    ensures Rank(cfg, Next(cfg, w, act), m) + One(StepsOn(cfg, w, act, m)) <= Rank(cfg, w, m)
  {
    if !act.Work? {
      OthersKeepStanding(cfg, w, act, m);
      RankKept(cfg, w, Next(cfg, w, act), m);
    } else if !StepsOn(cfg, w, act, m) {
      StepsOfOthers(cfg, w, act.worker, act.step, m);
    } else if act.step.Claim? {
      ClaimLowersRank(cfg, w, act.worker, act.step.job);
    } else if act.step.Decide? {
      DecideLowersRank(cfg, w, act.worker);
    } else {
      WorkKeepsStanding(cfg, w, act.worker, act.step, m);
      PassLowersRank(cfg, w, act.worker, act.step);
      RankFallsWithWorker(cfg, w, Next(cfg, w, act), m, act.worker);
    }
  }

  ghost function StepsOf(cfg: Config, w: World, acts: seq<Action>, m: MessageId): nat
    requires IsRun(cfg, w, acts)
    decreases |acts|
  {
    if acts == [] then 0 else One(StepsOn(cfg, w, acts[0], m)) + StepsOf(cfg, Next(cfg, w, acts[0]), acts[1..], m)
  }

  ghost predicate NeverRestarts(cfg: Config, w: World, acts: seq<Action>, m: MessageId)
    requires IsRun(cfg, w, acts)
    decreases |acts|
  {
    acts == [] || (!Restarts(w, acts[0], m) && NeverRestarts(cfg, Next(cfg, w, acts[0]), acts[1..], m))
  }

  /** So workers can take only finitely many steps for a message between two restarts of it,
      however long the run: no more than its rank. */
  lemma {:induction false} StepsAreBounded(cfg: Config, w: World, acts: seq<Action>, m: MessageId)
    requires Bounded(cfg, w) && Accounts(w) && Safe(w) && m in w.ledger
    requires IsRun(cfg, w, acts) && IsPatientRun(cfg, w, acts) && NeverRestarts(cfg, w, acts, m)
    ensures StepsOf(cfg, w, acts, m) <= Rank(cfg, w, m)
    decreases |acts|
  {
    if acts == [] {
      RankIsNatural(cfg, w, m);
    } else {
      NextKeepsSafe(cfg, w, acts[0]);
      NextKeepsAccounts(cfg, w, acts[0]);
      NextKeepsBounded(cfg, w, acts[0]);
      RankFalls(cfg, w, acts[0], m);
      LedgerGrows(cfg, w, acts[0], m);
      StepsAreBounded(cfg, Next(cfg, w, acts[0]), acts[1..], m);
    }
  }

  lemma LedgerGrows(cfg: Config, w: World, act: Action, m: MessageId)
    requires Accounts(w) && Safe(w) && Enabled(cfg, w, act) && m in w.ledger && !Restarts(w, act, m)
    ensures m in Next(cfg, w, act).ledger
  {
    if act.Work? {
      match act.step
      case Claim(job) => ClaimMovesOne(cfg, w, act.worker, job);
      case Decide => DecideMovesOne(cfg, w, act.worker);
      case _ =>
    } else {
      OthersKeepStanding(cfg, w, act, m);
    }
  }
}
