// The retry limit and recovery: a recovery keeps every later run within the limit exactly when it hits no
// live worker, or when nothing can ever be retried.
module Overshoot {
  import opened StateMachine
  import opened Tables
  import opened Lifecycle
  import opened Providers
  import opened Outbox
  import opened Protocol
  import opened Safety
  import opened SafetyTheorems
  import opened Dispatch
  import opened DispatchTheorems
  import opened Accounting
  import opened Bounds
  import opened Reachability
  import opened RelayRuns
  import opened Progress
  import opened Processor
  import opened PassRefinement
  import opened WorkerRefinement

  predicate IsPastLimit(cfg: Config, w: World, m: MessageId) {
    m in w.db.messages && w.db.messages[m].retryRounds > cfg.maxRounds
  }

  ghost predicate HasLiveWorker(w: World, m: MessageId) {
    exists id :: id in w.workers && w.workers[id].message == m
  }

  /** Every run from here in which later recoveries are patient keeps the retry limit of `m`. */
  ghost predicate KeepsLimit(cfg: Config, w: World, m: MessageId) {
    forall later :: IsRun(cfg, w, later) && IsPatientRun(cfg, w, later) ==> !IsPastLimit(cfg, After(cfg, w, later), m)
  }

  // --- Runs of one worker alone -------------------------------------------------------------------------

  lemma {:induction false} GoAlone(cfg: Config, u: World, w: World, id: WorkerId, answer: nat -> SendResult)
    requires GoesTo(cfg, u, w) && InPass(cfg, w, id)
    ensures GoesTo(cfg, u, RunAlone(cfg, w, id, answer))
    decreases StepsLeft(cfg, w, id)
  {
    if id in w.workers {
      var step := ProgramStep(cfg, w.workers[id], answer);
      ProgramStepEnabled(cfg, w, id, answer);
      GoesNext(cfg, u, w, Work(id, step));
      GoAlone(cfg, u, StepAlone(cfg, w, id, answer), id, answer);
    }
  }

  /** A worker that runs alone leaves the queue and the other workers as they are. */
  lemma {:induction false} AloneLeavesOthers(cfg: Config, w: World, id: WorkerId, answer: nat -> SendResult)
    requires InPass(cfg, w, id)
    ensures var v := RunAlone(cfg, w, id, answer);
      && v.jobs == w.jobs && id !in v.workers
      && (forall other :: other in w.workers && other != id ==> other in v.workers && v.workers[other] == w.workers[other])
    decreases StepsLeft(cfg, w, id)
  {
    if id in w.workers {
      var step := ProgramStep(cfg, w.workers[id], answer);
      ProgramStepEnabled(cfg, w, id, answer);
      WorkChangesOne(cfg, w, id, step);
      ProgramKeepsJobs(cfg, w, id, step);
      AloneLeavesOthers(cfg, StepAlone(cfg, w, id, answer), id, answer);
    }
  }

  lemma ProgramKeepsJobs(cfg: Config, w: World, id: WorkerId, step: WorkerStep)
    requires WorkEnabled(cfg, w, id, step) && !step.Claim?
    ensures NextWork(cfg, w, id, step).jobs == w.jobs
  {
  }

  // --- A pass in which every provider refuses -------------------------------------------------------------

  function Refusal(k: nat): SendResult {
    SendResult(false, None, None, true, None)
  }

  /** The message was scheduled for one more round than the row had. */
  predicate IsRetried(db: Db, after: Db, m: MessageId) {
    && m in db.messages && HasStatus(after, m, RetryScheduled)
    && after.messages[m].retryRounds == db.messages[m].retryRounds + 1
  }

  lemma RetryDecision(cfg: Config, db: Db, worker: Worker)
    requires HasStatus(db, worker.message, Processing) && RetriesAgain(cfg, worker)
    ensures IsRetried(db, DecideRound(cfg, db, worker, Calm).0, worker.message)
  {
  }

  lemma {:induction false} RefusedPass(cfg: Config, db: Db, m: MessageId, round: nat, failures: seq<bool>)
    requires cfg.expiryMs > 0 && HasStatus(db, m, Processing) && round < cfg.maxRounds && cfg.providers != []
    requires |failures| <= |cfg.providers| && AllTrue(failures)
    ensures IsRetried(db, PassFrom(cfg, db, m, round, failures, Refusal, Calm).db, m)
    decreases |cfg.providers| - |failures|
  {
    if |failures| == |cfg.providers| {
      RetryDecision(cfg, db, Worker(m, round, failures, Ready));
    } else {
      TurnAlone(cfg, db, m, |failures|, Refusal(|failures|));
      RefusedPass(cfg, TakeTurn(cfg, db, m, |failures|, Refusal(|failures|), Calm).0, m, round, failures + [true]);
    }
  }

  lemma FatalDecision(cfg: Config, db: Db, worker: Worker)
    requires HasStatus(db, worker.message, Processing) && !RetriesAgain(cfg, worker)
    ensures HasStatus(DecideRound(cfg, db, worker, Calm).0, worker.message, FatalFailure)
  {
  }

  /** When the round is spent or a failure was permanent, the pass ends in a dead letter. */
  lemma {:induction false} SpentPass(cfg: Config, db: Db, m: MessageId, round: nat, failures: seq<bool>)
    requires cfg.expiryMs > 0 && HasStatus(db, m, Processing) && |failures| <= |cfg.providers|
    requires round >= cfg.maxRounds || !AllTrue(failures)
    ensures HasStatus(PassFrom(cfg, db, m, round, failures, Refusal, Calm).db, m, FatalFailure)
    decreases |cfg.providers| - |failures|
  {
    if |failures| == |cfg.providers| {
      FatalDecision(cfg, db, Worker(m, round, failures, Ready));
    } else {
      TurnAlone(cfg, db, m, |failures|, Refusal(|failures|));
      if !AllTrue(failures) {
        var i :| 0 <= i < |failures| && !failures[i];
        assert !(failures + [true])[i];
      }
      SpentPass(cfg, TakeTurn(cfg, db, m, |failures|, Refusal(|failures|), Calm).0, m, round, failures + [true]);
    }
  }

  /** The worker is before a reservation or before its decision. */
  predicate CanDecide(cfg: Config, worker: Worker) {
    || (worker.phase.Ready? && |worker.failures| <= |cfg.providers|)
    || (worker.phase == Deciding(Processing) && |worker.failures| == |cfg.providers|)
  }

  /** Its decision can still be a retry. */
  predicate CanRetry(cfg: Config, worker: Worker) {
    CanDecide(cfg, worker) && cfg.providers != [] && worker.round < cfg.maxRounds && AllTrue(worker.failures)
  }

  /** Left alone with refusing providers it does retry, whatever round the row has reached meanwhile. */
  lemma RefusedRun(cfg: Config, w: World, id: WorkerId)
    requires cfg.expiryMs > 0 && id in w.workers && CanRetry(cfg, w.workers[id])
    requires HasStatus(w.db, w.workers[id].message, Processing)
    ensures InPass(cfg, w, id)
    ensures IsRetried(w.db, RunAlone(cfg, w, id, Refusal).db, w.workers[id].message)
  {
    var worker := w.workers[id];
    if worker.phase.Ready? {
      PassOfWorker(cfg, w, id, Refusal);
      RefusedPass(cfg, w.db, worker.message, worker.round, worker.failures);
    } else {
      var v := StepAlone(cfg, w, id, Refusal);
      assert RunAlone(cfg, v, id, Refusal) == v && RunAlone(cfg, w, id, Refusal) == v;
    }
  }

  /** Otherwise it makes the message fatal. */
  lemma SpentRun(cfg: Config, w: World, id: WorkerId)
    requires cfg.expiryMs > 0 && cfg.providers != [] && id in w.workers
    requires CanDecide(cfg, w.workers[id]) && !CanRetry(cfg, w.workers[id])
    requires HasStatus(w.db, w.workers[id].message, Processing)
    ensures InPass(cfg, w, id)
    ensures HasStatus(RunAlone(cfg, w, id, Refusal).db, w.workers[id].message, FatalFailure)
  {
    var worker := w.workers[id];
    if worker.phase.Ready? {
      PassOfWorker(cfg, w, id, Refusal);
      SpentPass(cfg, w.db, worker.message, worker.round, worker.failures);
    } else {
      var v := StepAlone(cfg, w, id, Refusal);
      assert RunAlone(cfg, v, id, Refusal) == v && RunAlone(cfg, w, id, Refusal) == v;
    }
  }

  // --- Climbing past the limit ------------------------------------------------------------------------------

  /** The message's status and round, and a dispatch job of it, which the queue may replay. */
  predicate Scene(w: World, m: MessageId, status: SmsStatus, rounds: nat, job: JobId) {
    && HasStatus(w.db, m, status) && w.db.messages[m].retryRounds == rounds
    && job in w.jobs && w.jobs[job].queue == DispatchQueue && w.jobs[job].message == m
  }

  /** Worker `id` of `m` is alive. */
  predicate IsLurking(w: World, m: MessageId, id: WorkerId, worker: Worker) {
    id in w.workers && w.workers[id] == worker && worker.message == m
  }

  lemma ClaimScene(cfg: Config, w: World, m: MessageId, rounds: nat, job: JobId, id: WorkerId)
    requires Scene(w, m, RetryScheduled, rounds, job) && id !in w.workers
    ensures WorkEnabled(cfg, w, id, Claim(job))
    ensures var v := NextClaim(w, job, id);
      && Scene(v, m, Processing, rounds, job)
      && v.workers == w.workers[id := Worker(m, rounds, [], Ready)]
  {
  }

  /** The next claim of the message, by a worker with a new id. */
  lemma ClaimAnew(cfg: Config, u: World, w: World, m: MessageId, rounds: nat, job: JobId, lurker: WorkerId, stale: Worker)
    returns (v: World, id: WorkerId)
    requires GoesTo(cfg, u, w) && Scene(w, m, RetryScheduled, rounds, job) && IsLurking(w, m, lurker, stale)
    ensures GoesTo(cfg, u, v) && Scene(v, m, Processing, rounds, job) && IsLurking(v, m, lurker, stale)
    ensures id != lurker && IsLurking(v, m, id, Worker(m, rounds, [], Ready))
  {
    id := UnusedId(w.workers.Keys);
    assert id !in w.workers && lurker in w.workers.Keys;
    ClaimScene(cfg, w, m, rounds, job, id);
    GoesNext(cfg, u, w, Work(id, Claim(job)));
    v := NextClaim(w, job, id);
  }

  /** A worker of the message retries while everyone else stands still. */
  lemma RetryAlone(cfg: Config, u: World, w: World, m: MessageId, rounds: nat, job: JobId, id: WorkerId, worker: Worker) returns (v: World)
    requires GoesTo(cfg, u, w) && cfg.expiryMs > 0 && Scene(w, m, Processing, rounds, job)
    requires IsLurking(w, m, id, worker) && CanRetry(cfg, worker)
    ensures GoesTo(cfg, u, v) && Scene(v, m, RetryScheduled, rounds + 1, job)
    ensures forall other, stale :: other != id && IsLurking(w, m, other, stale) ==> IsLurking(v, m, other, stale)
  {
    RefusedRun(cfg, w, id);
    AloneLeavesOthers(cfg, w, id, Refusal);
    GoAlone(cfg, u, w, id, Refusal);
    v := RunAlone(cfg, w, id, Refusal);
  }

  /** While one worker lurks, others claim and retry round after round; when the limit is reached and the
      message claimed once more, the lurker, which still believes in an early round, retries past it. */
  lemma {:induction false} LurkerBreaksLimit(cfg: Config, u: World, w: World, m: MessageId, rounds: nat, job: JobId,
                                             lurker: WorkerId, stale: Worker)
    requires GoesTo(cfg, u, w) && cfg.expiryMs > 0 && rounds <= cfg.maxRounds
    requires Scene(w, m, RetryScheduled, rounds, job) && IsLurking(w, m, lurker, stale) && CanRetry(cfg, stale)
    ensures exists v :: GoesTo(cfg, u, v) && IsPastLimit(cfg, v, m)
    decreases cfg.maxRounds - rounds
  {
    var claimed, id := ClaimAnew(cfg, u, w, m, rounds, job, lurker, stale);
    if rounds < cfg.maxRounds {
      var retried := RetryAlone(cfg, u, claimed, m, rounds, job, id, Worker(m, rounds, [], Ready));
      LurkerBreaksLimit(cfg, u, retried, m, rounds + 1, job, lurker, stale);
    } else {
      var last := RetryAlone(cfg, u, claimed, m, rounds, job, lurker, stale);
      assert IsPastLimit(cfg, last, m);
    }
  }

  lemma RequeueScene(w: World, m: MessageId, job: JobId)
    requires HasStatus(w.db, m, FatalFailure) && job in w.jobs && w.jobs[job].queue == DispatchQueue && w.jobs[job].message == m
    ensures Scene(NextRequeue(w, m), m, RetryScheduled, 0, job)
  {
  }

  /** A lurker that cannot retry makes the message fatal while a successor holds the claim; after a requeue
      that successor lurks behind a row whose rounds start again. */
  lemma Succession(cfg: Config, u: World, w: World, m: MessageId, rounds: nat, job: JobId, lurker: WorkerId, stale: Worker)
    returns (v: World, id: WorkerId)
    requires GoesTo(cfg, u, w) && cfg.expiryMs > 0 && cfg.providers != []
    requires Scene(w, m, RetryScheduled, rounds, job) && IsLurking(w, m, lurker, stale)
    requires CanDecide(cfg, stale) && !CanRetry(cfg, stale)
    ensures GoesTo(cfg, u, v) && Scene(v, m, RetryScheduled, 0, job)
    ensures IsLurking(v, m, id, Worker(m, rounds, [], Ready))
  {
    var claimed;
    claimed, id := ClaimAnew(cfg, u, w, m, rounds, job, lurker, stale);
    SpentRun(cfg, claimed, lurker);
    AloneLeavesOthers(cfg, claimed, lurker, Refusal);
    GoAlone(cfg, u, claimed, lurker, Refusal);
    var fatal := RunAlone(cfg, claimed, lurker, Refusal);
    RequeueScene(fatal, m, job);
    GoesNext(cfg, u, fatal, Operate(Requeue(m)));
    v := NextRequeue(fatal, m);
  }

  /** So any lurker leads past the limit, after at most two requeues. */
  lemma AnyLurkerBreaksLimit(cfg: Config, u: World, w: World, m: MessageId, rounds: nat, job: JobId, lurker: WorkerId, stale: Worker)
    requires GoesTo(cfg, u, w) && cfg.expiryMs > 0 && cfg.providers != [] && rounds <= cfg.maxRounds && cfg.maxRounds > 0
    requires Scene(w, m, RetryScheduled, rounds, job) && IsLurking(w, m, lurker, stale) && CanDecide(cfg, stale)
    ensures exists v :: GoesTo(cfg, u, v) && IsPastLimit(cfg, v, m)
  {
    if CanRetry(cfg, stale) {
      LurkerBreaksLimit(cfg, u, w, m, rounds, job, lurker, stale);
    } else {
      var v, id := Succession(cfg, u, w, m, rounds, job, lurker, stale);
      if rounds < cfg.maxRounds {
        LurkerBreaksLimit(cfg, u, v, m, 0, job, id, Worker(m, rounds, [], Ready));
      } else {
        var last, heir := Succession(cfg, u, v, m, 0, job, id, Worker(m, rounds, [], Ready));
        LurkerBreaksLimit(cfg, u, last, m, 0, job, heir, Worker(m, 0, [], Ready));
      }
    }
  }

  // --- A recovery that hits a live worker ----------------------------------------------------------------------

  /** A live worker whose message is being processed holds no reservation. */
  lemma LiveWorkerCanDecide(cfg: Config, w: World, id: WorkerId)
    requires Safe(w) && Bounded(cfg, w) && id in w.workers && HasStatus(w.db, w.workers[id].message, Processing)
    ensures CanDecide(cfg, w.workers[id])
  {
    assert WorkerFits(cfg, w, id);
    if w.workers[id].Held().Some? {
      HolderIsNotProcessing(w, id);
    }
  }

  lemma HolderIsNotProcessing(w: World, id: WorkerId)
    requires Safe(w) && id in w.workers && w.workers[id].Held().Some?
    ensures !HasStatus(w.db, w.workers[id].message, Processing)
  {
    assert HoldsReservation(w.db, w.workers[id].message, w.workers[id].Held().value);
  }

  /** The recovery's own event becomes a job that anyone may claim. */
  lemma RecoveredJob(cfg: Config, w: World, m: MessageId, cutoff: Time) returns (v: World, job: JobId)
    requires Dispatching(w) && RecoverOne(w.db, m, cutoff).1
    ensures var u := NextRecover(w, m, cutoff);
      && GoesTo(cfg, u, v) && v.workers == w.workers
      && Scene(v, m, RetryScheduled, w.db.messages[m].retryRounds, job)
  {
    var u := NextRecover(w, m, cutoff);
    var e := w.db.nextEvent;
    RecoverKeepsDispatching(w, m, cutoff);
    GoesNowhere(cfg, u);
    var front, r := BringToFront(cfg, u, u, e);
    AddAtFront(u, front, r, e);
    GoesNext(cfg, u, front, Publish(r, Add));
    v := NextAdd(front, r);
    job := JobId(m, e);
    NewEventHasNoJob(w, job);
  }

  lemma NewEventHasNoJob(w: World, id: JobId)
    requires Origins(w) && id.event == w.db.nextEvent
    ensures id !in w.jobs
  {
    assert id in w.jobs ==> JobMatchesOrigin(w, id);
  }

  lemma ImpatientRecoveryBreaksLimit(cfg: Config, w: World, m: MessageId, cutoff: Time)
    requires Safe(w) && Bounded(cfg, w) && Accounts(w) && Dispatching(w) && RecoverOne(w.db, m, cutoff).1
    requires cfg.expiryMs > 0 && cfg.providers != [] && cfg.maxRounds > 0 && HasLiveWorker(w, m)
    ensures exists v :: GoesTo(cfg, NextRecover(w, m, cutoff), v) && IsPastLimit(cfg, v, m)
  {
    var id :| id in w.workers && w.workers[id].message == m;
    LiveWorkerCanDecide(cfg, w, id);
    assert WorkerFits(cfg, w, id);
    var v, job := RecoveredJob(cfg, w, m, cutoff);
    AnyLurkerBreaksLimit(cfg, NextRecover(w, m, cutoff), v, m, w.db.messages[m].retryRounds, job, id, w.workers[id]);
  }

  lemma {:induction false} NoRecoveryIsPatient(cfg: Config, w: World, acts: seq<Action>)
    requires IsRun(cfg, w, acts) && HasNoRecovery(acts)
    ensures IsPatientRun(cfg, w, acts)
    decreases |acts|
  {
    if acts != [] {
      assert !IsRecovery(acts[0]);
      assert HasNoRecovery(acts[1..]);
      NoRecoveryIsPatient(cfg, Next(cfg, w, acts[0]), acts[1..]);
    }
  }

  // --- When nothing can ever be retried ---------------------------------------------------------------------------

  predicate NeverRetries(cfg: Config) {
    cfg.providers == [] || cfg.maxRounds == 0
  }

  ghost predicate NothingRetried(cfg: Config, w: World) {
    && (forall m :: m in w.ledger ==> w.ledger[m].retriesSinceRequeue == 0)
    && (cfg.providers == [] ==> forall id :: id in w.workers ==> w.workers[id].failures == [] && w.workers[id].Held().None?)
  }

  lemma NextRetriesNothing(cfg: Config, w: World, act: Action)
    requires NeverRetries(cfg) && NothingRetried(cfg, w) && Enabled(cfg, w, act)
    ensures NothingRetried(cfg, Next(cfg, w, act))
  {
    match act
    case Work(id, step) => WorkRetriesNothing(cfg, w, id, step);
    case Operate(step) => OperateRetriesNothing(cfg, w, step);
    case _ =>
  }

  lemma OperateRetriesNothing(cfg: Config, w: World, step: OperatorStep)
    requires NothingRetried(cfg, w) && OperateEnabled(w, step)
    ensures NothingRetried(cfg, NextOperate(w, step))
  {
  }

  lemma WorkRetriesNothing(cfg: Config, w: World, id: WorkerId, step: WorkerStep)
    requires NeverRetries(cfg) && NothingRetried(cfg, w) && WorkEnabled(cfg, w, id, step)
    ensures NothingRetried(cfg, NextWork(cfg, w, id, step))
  {
    match step
    case Claim(job) => ClaimRetriesNothing(cfg, w, id, job);
    case Finalize => FinalizeAlternatives(cfg, w, id);
    case Decide => DecideRetriesNothing(cfg, w, id);
    case _ =>
  }

  lemma ClaimRetriesNothing(cfg: Config, w: World, id: WorkerId, job: JobId)
    requires NothingRetried(cfg, w) && WorkEnabled(cfg, w, id, Claim(job))
    ensures NothingRetried(cfg, NextClaim(w, job, id))
  {
  }

  lemma DecideRetriesNothing(cfg: Config, w: World, id: WorkerId)
    requires NeverRetries(cfg) && NothingRetried(cfg, w) && WorkEnabled(cfg, w, id, Decide)
    ensures NothingRetried(cfg, NextDecide(cfg, w, id))
  {
    assert !RetriesAgain(cfg, w.workers[id]);
    FatalBook(cfg, w, id);
  }

  /** A decision that is no retry leaves the books, or adds a dead letter to that of its message. */
  lemma FatalBook(cfg: Config, w: World, id: WorkerId)
    requires WorkEnabled(cfg, w, id, Decide) && !RetriesAgain(cfg, w.workers[id])
    ensures var v := NextDecide(cfg, w, id);
      var m := w.workers[id].message;
      var book := BookOf(w, m);
      v.ledger == w.ledger || v.ledger == w.ledger[m := book.(deadLetters := book.deadLetters + 1)]
  {
  }

  lemma {:induction false} RunRetriesNothing(cfg: Config, w: World, acts: seq<Action>)
    requires NeverRetries(cfg) && NothingRetried(cfg, w) && Safe(w) && Accounts(w) && IsRun(cfg, w, acts)
    ensures NothingRetried(cfg, After(cfg, w, acts)) && Safe(After(cfg, w, acts)) && Accounts(After(cfg, w, acts))
    decreases |acts|
  {
    if acts != [] {
      NextKeepsSafe(cfg, w, acts[0]);
      NextKeepsAccounts(cfg, w, acts[0]);
      NextRetriesNothing(cfg, w, acts[0]);
      RunRetriesNothing(cfg, Next(cfg, w, acts[0]), acts[1..]);
    }
  }

  lemma UnretriedIsWithinLimit(cfg: Config, w: World, m: MessageId)
    requires NothingRetried(cfg, w) && Accounts(w)
    ensures !IsPastLimit(cfg, w, m)
  {
    if m in w.db.messages {
      BookedEvents(w, m);
    }
  }

  lemma BoundedIsWithinLimit(cfg: Config, w: World, m: MessageId)
    requires Bounded(cfg, w) && Accounts(w)
    ensures !IsPastLimit(cfg, w, m)
  {
    if m in w.db.messages {
      BoundedWorkStep(cfg, w, m);
    }
  }

  // --- The exact condition --------------------------------------------------------------------------------------------

  lemma PatientRecoveryKeepsLimit(cfg: Config, w: World, m: MessageId, cutoff: Time)
    requires Safe(w) && Bounded(cfg, w) && Accounts(w) && !HasLiveWorker(w, m)
    ensures KeepsLimit(cfg, NextRecover(w, m, cutoff), m)
  {
    var u := NextRecover(w, m, cutoff);
    var act := Operate(Recover(m, cutoff));
    assert IsPatient(w, act);
    NextKeepsSafe(cfg, w, act);
    NextKeepsAccounts(cfg, w, act);
    NextKeepsBounded(cfg, w, act);
    forall later | IsRun(cfg, u, later) && IsPatientRun(cfg, u, later) ensures !IsPastLimit(cfg, After(cfg, u, later), m) {
      RunKeepsBounded(cfg, u, later);
      BoundedIsWithinLimit(cfg, After(cfg, u, later), m);
    }
  }

  lemma NeverRetriesKeepsLimit(cfg: Config, w: World, m: MessageId, cutoff: Time)
    requires NeverRetries(cfg) && NothingRetried(cfg, w) && Safe(w) && Accounts(w)
    ensures KeepsLimit(cfg, NextRecover(w, m, cutoff), m)
  {
    var act := Operate(Recover(m, cutoff));
    NextKeepsSafe(cfg, w, act);
    NextKeepsAccounts(cfg, w, act);
    NextRetriesNothing(cfg, w, act);
    UnretriedKeepsLimit(cfg, NextRecover(w, m, cutoff), m);
  }

  lemma UnretriedKeepsLimit(cfg: Config, u: World, m: MessageId)
    requires NeverRetries(cfg) && NothingRetried(cfg, u) && Safe(u) && Accounts(u)
    ensures KeepsLimit(cfg, u, m)
  {
    forall later | IsRun(cfg, u, later) && IsPatientRun(cfg, u, later) ensures !IsPastLimit(cfg, After(cfg, u, later), m) {
      RunRetriesNothing(cfg, u, later);
      UnretriedIsWithinLimit(cfg, After(cfg, u, later), m);
    }
  }

  lemma ImpatientRecoveryLosesLimit(cfg: Config, w: World, m: MessageId, cutoff: Time)
    requires Safe(w) && Bounded(cfg, w) && Accounts(w) && Dispatching(w) && RecoverOne(w.db, m, cutoff).1
    requires cfg.expiryMs > 0 && HasLiveWorker(w, m) && !NeverRetries(cfg)
    ensures !KeepsLimit(cfg, NextRecover(w, m, cutoff), m)
  {
    var u := NextRecover(w, m, cutoff);
    ImpatientRecoveryBreaksLimit(cfg, w, m, cutoff);
    forall v | GoesTo(cfg, u, v) && IsPastLimit(cfg, v, m) ensures !KeepsLimit(cfg, u, m) {
      GoesPastLimit(cfg, u, v, m);
    }
  }

  lemma GoesPastLimit(cfg: Config, u: World, v: World, m: MessageId)
    requires GoesTo(cfg, u, v) && IsPastLimit(cfg, v, m)
    ensures !KeepsLimit(cfg, u, m)
  {
    var later :| HasNoRecovery(later) && IsRun(cfg, u, later) && After(cfg, u, later) == v;
    NoRecoveryIsPatient(cfg, u, later);
  }

  lemma RecoveryStep(cfg: Config, w: World, m: MessageId, cutoff: Time)
    requires Safe(w) && Bounded(cfg, w) && Accounts(w) && Dispatching(w) && RecoverOne(w.db, m, cutoff).1
    requires cfg.expiryMs > 0 && (NeverRetries(cfg) ==> NothingRetried(cfg, w))
    ensures KeepsLimit(cfg, NextRecover(w, m, cutoff), m) <==> (!HasLiveWorker(w, m) || NeverRetries(cfg))
  {
    if NeverRetries(cfg) {
      NeverRetriesKeepsLimit(cfg, w, m, cutoff);
    } else if HasLiveWorker(w, m) {
      ImpatientRecoveryLosesLimit(cfg, w, m, cutoff);
    } else {
      PatientRecoveryKeepsLimit(cfg, w, m, cutoff);
    }
  }

  /** What patient runs from the start keep. */
  lemma PatientRunIsBounded(cfg: Config, clock: Time, acts: seq<Action>)
    requires IsRun(cfg, Init(clock), acts) && IsPatientRun(cfg, Init(clock), acts)
    ensures var w := After(cfg, Init(clock), acts); Safe(w) && Bounded(cfg, w) && Accounts(w)
  {
    InitIsSafe(clock);
    RunKeepsBounded(cfg, Init(clock), acts);
  }

  lemma RunDispatches(cfg: Config, clock: Time, acts: seq<Action>)
    requires IsRun(cfg, Init(clock), acts)
    ensures Dispatching(After(cfg, Init(clock), acts))
  {
    InitIsSafe(clock);
    RunKeepsDispatching(cfg, Init(clock), acts);
  }

  lemma StartRetriesNothing(cfg: Config, clock: Time, acts: seq<Action>)
    requires IsRun(cfg, Init(clock), acts) && NeverRetries(cfg)
    ensures NothingRetried(cfg, After(cfg, Init(clock), acts))
  {
    InitIsSafe(clock);
    RunRetriesNothing(cfg, Init(clock), acts);
  }

  /** After any patient run, a recovery of `m` keeps all that follows within the retry limit if and only if
      no worker of `m` is alive, or no provider is configured, or no retry round is allowed. */
  lemma RecoveryKeepsLimitIff(cfg: Config, clock: Time, acts: seq<Action>, m: MessageId, cutoff: Time)
    requires IsRun(cfg, Init(clock), acts) && IsPatientRun(cfg, Init(clock), acts)
    requires cfg.expiryMs > 0 && RecoverOne(After(cfg, Init(clock), acts).db, m, cutoff).1
    ensures var w := After(cfg, Init(clock), acts);
      KeepsLimit(cfg, NextRecover(w, m, cutoff), m) <==>
        (!HasLiveWorker(w, m) || cfg.providers == [] || cfg.maxRounds == 0)
  {
    PatientRunIsBounded(cfg, clock, acts);
    RunDispatches(cfg, clock, acts);
    if NeverRetries(cfg) {
      StartRetriesNothing(cfg, clock, acts);
    }
    RecoveryStep(cfg, After(cfg, Init(clock), acts), m, cutoff);
  }

  /** Such a recovery of a live worker is reachable under every configuration with a provider and a retry
      round: the first worker of a message stalls after its claim. */
  lemma StaleWorkerBreaksRetryLimit(cfg: Config, m: MessageId)
    requires cfg.expiryMs > 0 && cfg.providers != [] && cfg.maxRounds > 0
    ensures exists v :: IsReachable(cfg, v) && IsPastLimit(cfg, v, m)
  {
    var w := Published(cfg, m);
    ReachNext(cfg, w, Work(0, Claim(JobId(m, 0))));
    var claimed := NextClaim(w, JobId(m, 0), 0);
    StalledClaim(cfg, claimed, m);
  }

  lemma StalledClaim(cfg: Config, w: World, m: MessageId)
    requires IsReachable(cfg, w) && cfg.expiryMs > 0 && cfg.providers != [] && cfg.maxRounds > 0
    requires HasStatus(w.db, m, Processing) && w.db.messages[m].updatedAt == w.db.clock && w.db.messages[m].retryRounds == 0
    requires JobId(m, 0) in w.jobs && w.jobs[JobId(m, 0)].queue == DispatchQueue && w.jobs[JobId(m, 0)].message == m
    requires w.workers == map[0 := Worker(m, 0, [], Ready)]
    ensures exists v :: IsReachable(cfg, v) && IsPastLimit(cfg, v, m)
  {
    ReachNext(cfg, w, Tick(1));
    var late := Next(cfg, w, Tick(1));
    ReachNext(cfg, late, Operate(Recover(m, late.db.clock)));
    RecoveredBreaksLimit(cfg, NextRecover(late, m, late.db.clock), m);
  }

  lemma RecoveredBreaksLimit(cfg: Config, u: World, m: MessageId)
    requires IsReachable(cfg, u) && cfg.expiryMs > 0 && cfg.providers != [] && cfg.maxRounds > 0
    requires Scene(u, m, RetryScheduled, 0, JobId(m, 0)) && IsLurking(u, m, 0, Worker(m, 0, [], Ready))
    ensures exists v :: IsReachable(cfg, v) && IsPastLimit(cfg, v, m)
  {
    GoesNowhere(cfg, u);
    LurkerBreaksLimit(cfg, u, u, m, 0, JobId(m, 0), 0, Worker(m, 0, [], Ready));
    var v :| GoesTo(cfg, u, v) && IsPastLimit(cfg, v, m);
    ReachFurther(cfg, u, v);
  }

  /** A retry decision keeps the counter within the limit exactly when the row, which the worker does not
      read again, is still below it; a snapshot that is not stale guarantees that. */
  lemma DecisionKeepsLimitIff(cfg: Config, w: World, id: WorkerId)
    requires WorkEnabled(cfg, w, id, Decide) && w.workers[id].phase.seen == Processing
    requires HasStatus(w.db, w.workers[id].message, Processing) && RetriesAgain(cfg, w.workers[id])
    ensures var m := w.workers[id].message;
      var v := NextDecide(cfg, w, id);
      && HasStatus(v.db, m, RetryScheduled)
      && (v.db.messages[m].retryRounds <= cfg.maxRounds <==> w.db.messages[m].retryRounds < cfg.maxRounds)
      && (w.db.messages[m].retryRounds == w.workers[id].round ==> v.db.messages[m].retryRounds <= cfg.maxRounds)
  {
  }
}
