// Bounded work: when only the messages of stopped workers are recovered, every message gets a bounded
// number of provider calls, its retry rounds stay within the limit, and its lifecycle always runs down.
module Bounds {
  import opened StateMachine
  import opened Tables
  import opened Lifecycle
  import opened Persistence
  import opened Retention
  import opened Providers
  import opened Protocol
  import opened Safety
  import opened SafetyTheorems
  import opened Dispatch
  import opened Accounting

  /** Some worker is between its claim and its last statement for `m`. */
  predicate HasWorker(w: World, m: MessageId) {
    m in w.ledger && w.ledger[m].claimant in w.workers && w.workers[w.ledger[m].claimant].message == m
  }

  /** A recovery that takes effect finds its message without a worker. */
  predicate IsPatient(w: World, act: Action) {
    act.Operate? && act.operation.Recover? && RecoverOne(w.db, act.operation.message, act.operation.cutoff).1 ==>
      !HasWorker(w, act.operation.message)
  }

  ghost predicate IsPatientRun(cfg: Config, w: World, acts: seq<Action>)
    requires IsRun(cfg, w, acts)
    decreases |acts|
  {
    acts == [] || (IsPatient(w, acts[0]) && IsPatientRun(cfg, Next(cfg, w, acts[0]), acts[1..]))
  }

  // --- The invariant ------------------------------------------------------------------------------

  function CountCalls(calls: seq<Call>, m: MessageId): nat {
    if calls == [] then 0
    else CountCalls(calls[..|calls| - 1], m) + One(calls[|calls| - 1].message == m)
  }

  /** How many providers the worker has called since its claim. */
  function Made(worker: Worker): nat {
    |worker.failures| + One(worker.phase.Answered?)
  }

  /** The provider calls that the live worker of `m` may still make. */
  function Unspent(cfg: Config, w: World, m: MessageId): int {
    if HasWorker(w, m) then |cfg.providers| - Made(w.workers[w.ledger[m].claimant]) else 0
  }

  /** The worker is its message's only one, and its round is the message's. */
  predicate WorkerFits(cfg: Config, w: World, id: WorkerId)
    requires id in w.workers
  {
    var worker := w.workers[id];
    && worker.message in w.ledger && w.ledger[worker.message].claimant == id
    && |worker.failures| <= |cfg.providers|
    && (worker.Held().Some? ==> |worker.failures| < |cfg.providers|)
    && (worker.phase.Deciding? ==> |worker.failures| == |cfg.providers|)
    && worker.round <= cfg.maxRounds
    && (worker.message in w.db.messages ==> RowFits(w.db.messages[worker.message], worker.round))
  }

  predicate RowFits(row: Message, round: nat) {
    !IsStartable(row.status) && row.status != FatalFailure && row.retryRounds == round
  }

  /** Claims come from counted events, retries from rounds, and the delays double. */
  predicate WithinBudget(cfg: Config, book: Ledger) {
    && book.claims <= 1 + book.retries + book.recoveries + book.requeues
    && book.retriesSinceRequeue <= cfg.maxRounds
    && book.retries <= cfg.maxRounds * book.requeues + book.retriesSinceRequeue
    && book.delaySinceRequeue == cfg.backoffBase * (Pow2(book.retriesSinceRequeue) - 1)
  }

  ghost predicate CallsWithin(cfg: Config, w: World, m: MessageId) {
    m in w.ledger && CountCalls(w.calls, m) + Unspent(cfg, w, m) <= |cfg.providers| * w.ledger[m].claims
  }

  ghost predicate Bounded(cfg: Config, w: World) {
    && (forall id :: id in w.workers ==> WorkerFits(cfg, w, id))
    && (forall m :: m in w.ledger ==> WithinBudget(cfg, w.ledger[m]))
    && (forall m :: m in w.ledger ==> CallsWithin(cfg, w, m))
  }

  /** An open or waiting message has no worker. */
  lemma WaitingHasNoWorker(cfg: Config, w: World, m: MessageId)
    requires Bounded(cfg, w) && m in w.db.messages
    requires IsStartable(w.db.messages[m].status) || w.db.messages[m].status == FatalFailure
    ensures !HasWorker(w, m)
    ensures forall id :: id in w.workers ==> w.workers[id].message != m
  {
    forall id | id in w.workers ensures w.workers[id].message != m {
      assert WorkerFits(cfg, w, id);
    }
  }

  // --- Steps that make no call -----------------------------------------------------------------------

  predicate SameFooting(was: Message, now: Message) {
    && (IsStartable(now.status) <==> IsStartable(was.status))
    && (now.status == FatalFailure <==> was.status == FatalFailure)
    && now.retryRounds == was.retryRounds
  }

  /** Workers may end, rows keep their footing or go, and the books stay. */
  lemma NeutralBounded(cfg: Config, w: World, v: World)
    requires Bounded(cfg, w) && v.calls == w.calls && v.ledger == w.ledger
    requires forall id :: id in v.workers ==> id in w.workers && v.workers[id] == w.workers[id]
    requires forall m :: m in v.db.messages ==> m in w.db.messages && SameFooting(w.db.messages[m], v.db.messages[m])
    ensures Bounded(cfg, v)
  {
    forall id | id in v.workers ensures WorkerFits(cfg, v, id) {
      assert WorkerFits(cfg, w, id);
    }
    forall m | m in v.ledger ensures CallsWithin(cfg, v, m) {
      assert CallsWithin(cfg, w, m);
      assert HasWorker(w, m) ==> WorkerFits(cfg, w, w.ledger[m].claimant);
    }
  }

  /** One worker moves on; its calls and those of its message grow together. */
  lemma MovingBounded(cfg: Config, w: World, v: World, id: WorkerId)
    requires Bounded(cfg, w) && id in w.workers && id in v.workers && v.ledger == w.ledger
    requires forall other :: other in v.workers && other != id ==> other in w.workers && v.workers[other] == w.workers[other]
    requires v.workers[id].message == w.workers[id].message && WorkerFits(cfg, v, id)
    requires forall m :: m in v.db.messages ==> m in w.db.messages && SameFooting(w.db.messages[m], v.db.messages[m])
    requires forall m :: m != w.workers[id].message ==> CountCalls(v.calls, m) == CountCalls(w.calls, m)
    requires CountCalls(v.calls, w.workers[id].message) - CountCalls(w.calls, w.workers[id].message)
          == Made(v.workers[id]) - Made(w.workers[id])
    ensures Bounded(cfg, v)
  {
    forall other | other in v.workers ensures WorkerFits(cfg, v, other) {
      if other != id {
        assert WorkerFits(cfg, w, other);
      }
    }
    assert WorkerFits(cfg, w, id);
    forall m | m in v.ledger ensures CallsWithin(cfg, v, m) {
      assert CallsWithin(cfg, w, m);
      assert HasWorker(w, m) ==> WorkerFits(cfg, w, w.ledger[m].claimant);
    }
  }

  /** The books and the row of a message without a worker change; its claims do not. */
  lemma BookingBounded(cfg: Config, w: World, v: World, m0: MessageId)
    requires Bounded(cfg, w) && v.calls == w.calls && m0 in w.ledger && m0 in v.ledger
    requires v.ledger == w.ledger[m0 := v.ledger[m0]]
    requires WithinBudget(cfg, v.ledger[m0])
    requires v.ledger[m0].claims == w.ledger[m0].claims && v.ledger[m0].claimant == w.ledger[m0].claimant
    requires forall id :: id in v.workers ==> id in w.workers && v.workers[id] == w.workers[id] && v.workers[id].message != m0
    requires forall m :: m in v.db.messages && m != m0 ==> m in w.db.messages && v.db.messages[m] == w.db.messages[m]
    ensures Bounded(cfg, v)
  {
    forall id | id in v.workers ensures WorkerFits(cfg, v, id) {
      assert WorkerFits(cfg, w, id);
    }
    forall m | m in v.ledger ensures CallsWithin(cfg, v, m) {
      assert CallsWithin(cfg, w, m);
      assert HasWorker(w, m) ==> WorkerFits(cfg, w, w.ledger[m].claimant);
    }
  }

  // --- Creation and claim -------------------------------------------------------------------------------

  lemma {:induction false} NoCallsOf(calls: seq<Call>, m: MessageId)
    requires forall i :: 0 <= i < |calls| ==> calls[i].message != m
    ensures CountCalls(calls, m) == 0
    decreases |calls|
  {
    if calls != [] {
      NoCallsOf(calls[..|calls| - 1], m);
    }
  }

  lemma CreateKeepsBounded(cfg: Config, w: World, newId: MessageId, key: string, now: Time, owner: Option<KeyOwner>)
    requires Bounded(cfg, w) && Known(w) && Enabled(cfg, w, Create(newId, key, now, owner))
    ensures Bounded(cfg, NextCreate(cfg, w, newId, key, now, owner))
  {
    var (after, r) := CreateCommit(w.db, newId, key, now, cfg.ttlMs, owner);
    if r.Created? {
      CreateStep(cfg, w, NextCreate(cfg, w, newId, key, now, owner), newId);
    }
  }

  lemma CreateStep(cfg: Config, w: World, v: World, newId: MessageId)
    requires Bounded(cfg, w) && Known(w) && newId !in w.ledger
    requires v.calls == w.calls && v.workers == w.workers && v.ledger == w.ledger[newId := EMPTY_LEDGER]
    requires forall m :: m in v.db.messages && m != newId ==> m in w.db.messages && v.db.messages[m] == w.db.messages[m]
    ensures Bounded(cfg, v)
  {
    NoCallsOf(w.calls, newId);
    forall id | id in v.workers ensures WorkerFits(cfg, v, id) {
      assert WorkerFits(cfg, w, id);
    }
    forall m | m in v.ledger ensures CallsWithin(cfg, v, m) {
      if m != newId {
        assert CallsWithin(cfg, w, m);
      }
    }
  }

  lemma ClaimKeepsBounded(cfg: Config, w: World, id: WorkerId, job: JobId)
    requires Bounded(cfg, w) && job in w.jobs && id !in w.workers
    requires IsWaiting(w.db, w.jobs[job].message) ==> OneEventAhead(w, w.jobs[job].message)
    ensures Bounded(cfg, NextClaim(w, job, id))
  {
    var m := w.jobs[job].message;
    ClaimEffect(w, id, job);
    if IsWaiting(w.db, m) {
      ClaimStep(cfg, w, NextClaim(w, job, id), id, m);
    } else {
      RefusedClaimKeepsBounded(cfg, w, NextClaim(w, job, id));
    }
  }

  lemma RefusedClaimKeepsBounded(cfg: Config, w: World, v: World)
    requires Bounded(cfg, w) && v.db == w.db && v.ledger == w.ledger && v.workers == w.workers && v.calls == w.calls
    ensures Bounded(cfg, v)
  {
    NeutralBounded(cfg, w, v);
  }

  /** A waiting message has been handed over once more than it was claimed. */
  predicate OneEventAhead(w: World, m: MessageId)
    requires IsWaiting(w.db, m)
  {
    && m in w.ledger
    && w.ledger[m].claims < 1 + w.ledger[m].retries + w.ledger[m].recoveries + w.ledger[m].requeues
    && w.ledger[m].retriesSinceRequeue == w.db.messages[m].retryRounds
  }

  lemma WaitingIsBooked(w: World, m: MessageId)
    requires Accounts(w) && IsWaiting(w.db, m)
    ensures OneEventAhead(w, m)
  {
    assert Balanced(w.db, m, w.ledger[m]);
  }

  lemma ClaimStep(cfg: Config, w: World, v: World, id: WorkerId, m0: MessageId)
    requires Bounded(cfg, w) && id !in w.workers && IsWaiting(w.db, m0) && v.calls == w.calls
    requires OneEventAhead(w, m0)
    requires v.ledger == w.ledger[m0 := w.ledger[m0].(claims := w.ledger[m0].claims + 1, claimant := id)]
    requires v.workers == w.workers[id := Worker(m0, w.db.messages[m0].retryRounds, [], Ready)]
    requires HasStatus(v.db, m0, Processing) && v.db.messages[m0].retryRounds == w.db.messages[m0].retryRounds
    requires RowsConcernOnly(w.db, v.db, m0)
    ensures Bounded(cfg, v)
  {
    WaitingHasNoWorker(cfg, w, m0);
    assert WithinBudget(cfg, w.ledger[m0]);
    forall other | other in v.workers ensures WorkerFits(cfg, v, other) {
      if other != id {
        assert WorkerFits(cfg, w, other);
      }
    }
    ClaimCalls(cfg, w, v, id, m0);
  }

  lemma ClaimCalls(cfg: Config, w: World, v: World, id: WorkerId, m0: MessageId)
    requires Bounded(cfg, w) && id !in w.workers && v.calls == w.calls && m0 in w.ledger && !HasWorker(w, m0)
    requires v.ledger == w.ledger[m0 := w.ledger[m0].(claims := w.ledger[m0].claims + 1, claimant := id)]
    requires exists round :: v.workers == w.workers[id := Worker(m0, round, [], Ready)]
    ensures forall m :: m in v.ledger ==> CallsWithin(cfg, v, m)
  {
    var n := |cfg.providers|;
    var claims := w.ledger[m0].claims;
    assert n * (claims + 1) == n * claims + n;
    forall m | m in v.ledger ensures CallsWithin(cfg, v, m) {
      assert CallsWithin(cfg, w, m);
      assert HasWorker(w, m) ==> WorkerFits(cfg, w, w.ledger[m].claimant);
    }
  }

  // --- The steps of a worker ------------------------------------------------------------------------------

  lemma ReserveFooting(db: Db, m: MessageId, provider: string)
    ensures var after := ReserveProviderAttempt(db, m, provider).0;
      forall n :: n in after.messages ==> n in db.messages && SameFooting(db.messages[n], after.messages[n])
  {
  }

  lemma ReserveKeepsBounded(cfg: Config, w: World, id: WorkerId)
    requires Bounded(cfg, w) && WorkEnabled(cfg, w, id, Reserve)
    ensures Bounded(cfg, NextReserve(cfg, w, id))
  {
    var m := w.workers[id].message;
    assert WorkerFits(cfg, w, id);
    ReserveFooting(w.db, m, cfg.providers[|w.workers[id].failures|]);
    if HasStatus(w.db, m, Processing) {
      MovingBounded(cfg, w, NextReserve(cfg, w, id), id);
    } else {
      NeutralBounded(cfg, w, NextReserve(cfg, w, id));
    }
  }

  lemma CallKeepsBounded(cfg: Config, w: World, id: WorkerId, answer: SendResult, accepted: bool)
    requires Bounded(cfg, w) && WorkEnabled(cfg, w, id, CallProvider(answer, accepted))
    ensures Bounded(cfg, NextCall(w, id, answer, accepted))
  {
    var v := NextCall(w, id, answer, accepted);
    assert WorkerFits(cfg, w, id);
    assert v.calls[..|v.calls| - 1] == w.calls;
    MovingBounded(cfg, w, v, id);
  }

  lemma FinalizeKeepsBounded(cfg: Config, w: World, id: WorkerId)
    requires Bounded(cfg, w) && WorkEnabled(cfg, w, id, Finalize)
    ensures Bounded(cfg, NextFinalize(cfg, w, id))
  {
    var v := NextFinalize(cfg, w, id);
    var worker := w.workers[id];
    assert WorkerFits(cfg, w, id);
    FinalizeStanding(w.db, worker.message, worker.phase.answered, AnswerOf(worker.phase.result, cfg.expiryMs));
    FinalizeShape(cfg, w, id);
    FinalizeProgress(cfg, w, id);
    if id in v.workers {
      MovingBounded(cfg, w, v, id);
    } else {
      NeutralBounded(cfg, w, v);
    }
  }

  /** A worker that goes on has recorded one more failure of the same round. */
  lemma FinalizeProgress(cfg: Config, w: World, id: WorkerId)
    requires WorkEnabled(cfg, w, id, Finalize)
    ensures var v := NextFinalize(cfg, w, id);
      id in v.workers ==> v.workers[id].round == w.workers[id].round && |v.workers[id].failures| == |w.workers[id].failures| + 1
  {
  }

  lemma ReadForDecisionKeepsBounded(cfg: Config, w: World, id: WorkerId)
    requires Bounded(cfg, w) && WorkEnabled(cfg, w, id, ReadForDecision)
    ensures Bounded(cfg, NextReadForDecision(cfg, w, id))
  {
    var v := NextReadForDecision(cfg, w, id);
    assert WorkerFits(cfg, w, id);
    if id in v.workers {
      MovingBounded(cfg, w, v, id);
    } else {
      NeutralBounded(cfg, w, v);
    }
  }

  lemma RetryWithinBudget(cfg: Config, worker: Worker, book: Ledger)
    requires WithinBudget(cfg, book) && book.retriesSinceRequeue == worker.round
    ensures WithinBudget(cfg, DecidedBook(cfg, worker, book))
  {
    var base := cfg.backoffBase;
    var power := Pow2(worker.round);
    assert base * (2 * power - 1) == base * (power - 1) + base * power;
  }

  lemma DecideKeepsBounded(cfg: Config, w: World, id: WorkerId)
    requires Bounded(cfg, w) && Accounts(w) && DecidersAreSound(w) && WorkEnabled(cfg, w, id, Decide)
    ensures Bounded(cfg, NextDecide(cfg, w, id))
  {
    var m := w.workers[id].message;
    DecideOthers(cfg, w, id);
    assert WorkerFits(cfg, w, id);
    if HasStatus(w.db, m, Processing) {
      assert Balanced(w.db, m, w.ledger[m]);
      RetryWithinBudget(cfg, w.workers[id], w.ledger[m]);
      DecideLeavesNoWorker(cfg, w, id);
      DecideStep(cfg, w, NextDecide(cfg, w, id), m, id);
    } else {
      NeutralBounded(cfg, w, NextDecide(cfg, w, id));
    }
  }

  lemma DecideLeavesNoWorker(cfg: Config, w: World, id: WorkerId)
    requires Bounded(cfg, w) && id in w.workers
    ensures forall other :: other in w.workers && other != id ==> w.workers[other].message != w.workers[id].message
  {
    assert WorkerFits(cfg, w, id);
    forall other | other in w.workers && other != id ensures w.workers[other].message != w.workers[id].message {
      assert WorkerFits(cfg, w, other);
    }
  }

  lemma DecideStep(cfg: Config, w: World, v: World, m: MessageId, id: WorkerId)
    requires Bounded(cfg, w) && m in w.ledger && id in w.workers && w.workers[id].message == m
    requires v.workers == w.workers - {id} && v.calls == w.calls && ConcernsOnly(w, v, m) && m in v.ledger
    requires v.ledger == w.ledger[m := v.ledger[m]] && WithinBudget(cfg, v.ledger[m])
    requires v.ledger[m].claims == w.ledger[m].claims && v.ledger[m].claimant == w.ledger[m].claimant
    requires forall other :: other in w.workers && other != id ==> w.workers[other].message != m
    ensures Bounded(cfg, v)
  {
    BookingBounded(cfg, w, v, m);
  }

  lemma WorkKeepsBounded(cfg: Config, w: World, id: WorkerId, step: WorkerStep)
    requires Bounded(cfg, w) && Accounts(w) && Safe(w) && WorkEnabled(cfg, w, id, step)
    ensures Bounded(cfg, NextWork(cfg, w, id, step))
  {
    match step
    case Claim(job) =>
      if IsWaiting(w.db, w.jobs[job].message) { WaitingIsBooked(w, w.jobs[job].message); }
      ClaimKeepsBounded(cfg, w, id, job);
    case Reserve => ReserveKeepsBounded(cfg, w, id);
    case CallProvider(answer, accepted) => CallKeepsBounded(cfg, w, id, answer, accepted);
    case Finalize => FinalizeKeepsBounded(cfg, w, id);
    case ReadForDecision => ReadForDecisionKeepsBounded(cfg, w, id);
    case Decide => DecideKeepsBounded(cfg, w, id);
    case Crash => NeutralBounded(cfg, w, NextWork(cfg, w, id, step));
  }

  // --- Recovery, requeue, whole runs -------------------------------------------------------------------------

  lemma RecoverKeepsBounded(cfg: Config, w: World, m: MessageId, cutoff: Time)
    requires Bounded(cfg, w) && IsPatient(w, Operate(Recover(m, cutoff)))
    requires m in w.db.messages ==> m in w.ledger
    ensures Bounded(cfg, NextRecover(w, m, cutoff))
  {
    if RecoverOne(w.db, m, cutoff).1 {
      RecoverOthers(w, m, cutoff);
      NotLiveMeansNoWorker(cfg, w, m);
      RecoverStep(cfg, w, NextRecover(w, m, cutoff), m);
    }
  }

  lemma RecoverStep(cfg: Config, w: World, v: World, m: MessageId)
    requires Bounded(cfg, w) && m in w.ledger && v.workers == w.workers && v.calls == w.calls && ConcernsOnly(w, v, m)
    requires v.ledger == w.ledger[m := w.ledger[m].(recoveries := w.ledger[m].recoveries + 1)]
    requires forall id :: id in w.workers ==> w.workers[id].message != m
    ensures Bounded(cfg, v)
  {
    assert WithinBudget(cfg, w.ledger[m]);
    BookingBounded(cfg, w, v, m);
  }

  lemma NotLiveMeansNoWorker(cfg: Config, w: World, m: MessageId)
    requires Bounded(cfg, w) && !HasWorker(w, m)
    ensures forall id :: id in w.workers ==> w.workers[id].message != m
  {
    forall id | id in w.workers ensures w.workers[id].message != m {
      assert WorkerFits(cfg, w, id);
    }
  }

  lemma RequeueWithinBudget(cfg: Config, book: Ledger)
    requires WithinBudget(cfg, book)
    ensures WithinBudget(cfg, book.(requeues := book.requeues + 1, retriesSinceRequeue := 0, delaySinceRequeue := 0))
  {
    assert cfg.maxRounds * (book.requeues + 1) == cfg.maxRounds * book.requeues + cfg.maxRounds;
  }

  lemma RequeueKeepsBounded(cfg: Config, w: World, m: MessageId)
    requires Bounded(cfg, w) && Accounts(w)
    ensures Bounded(cfg, NextRequeue(w, m))
  {
    if HasStatus(w.db, m, FatalFailure) {
      WaitingHasNoWorker(cfg, w, m);
      RequeueWithinBudget(cfg, w.ledger[m]);
      RequeueOthers(w, m);
      BookingBounded(cfg, w, NextRequeue(w, m), m);
    } else {
      assert NextRequeue(w, m) == w;
    }
  }

  lemma OperateKeepsBounded(cfg: Config, w: World, step: OperatorStep)
    requires Bounded(cfg, w) && Accounts(w) && Safe(w) && OperateEnabled(w, step) && IsPatient(w, Operate(step))
    ensures Bounded(cfg, NextOperate(w, step))
  {
    match step
    case Recover(m, cutoff) => RecoverKeepsBounded(cfg, w, m, cutoff);
    case Requeue(m) => RequeueKeepsBounded(cfg, w, m);
    case CommitOp(op) => OpStanding(w, op); NeutralBounded(cfg, w, NextCommitOp(w, op));
    case _ => NeutralBounded(cfg, w, NextOperate(w, step));
  }

  lemma MaintenanceKeepsBounded(cfg: Config, w: World, job: JobId, effective: bool)
    requires Bounded(cfg, w) && job in w.jobs
    ensures Bounded(cfg, NextMaintenance(w, job, effective))
  {
    ExpireStanding(w.db, w.jobs[job].message);
    NeutralBounded(cfg, w, NextMaintenance(w, job, effective));
  }

  lemma PurgeKeepsBounded(cfg: Config, w: World, ids: set<MessageId>, now: Time)
    requires Bounded(cfg, w)
    ensures Bounded(cfg, NextPurge(w, ids, now))
  {
    PurgeIsExact(w.db, ids);
    NeutralBounded(cfg, w, NextPurge(w, ids, now));
  }

  lemma NextKeepsBounded(cfg: Config, w: World, act: Action)
    requires Bounded(cfg, w) && Accounts(w) && Safe(w) && Enabled(cfg, w, act) && IsPatient(w, act)
    ensures Bounded(cfg, Next(cfg, w, act))
  {
    match act
    case Create(newId, key, now, owner) => CreateKeepsBounded(cfg, w, newId, key, now, owner);
    case Work(id, step) => WorkKeepsBounded(cfg, w, id, step);
    case Operate(step) => OperateKeepsBounded(cfg, w, step);
    case Publish(r, step) => NeutralBounded(cfg, w, Next(cfg, w, act));
    case RunMaintenance(job, effective) => MaintenanceKeepsBounded(cfg, w, job, effective);
    case RemoveJob(job) => NeutralBounded(cfg, w, Next(cfg, w, act));
    case PurgeBatch(ids, now) => PurgeKeepsBounded(cfg, w, ids, now);
    case Tick(ms) => NeutralBounded(cfg, w, Next(cfg, w, act));
  }

  lemma {:induction false} RunKeepsBounded(cfg: Config, w: World, acts: seq<Action>)
    requires Bounded(cfg, w) && Accounts(w) && Safe(w) && IsRun(cfg, w, acts) && IsPatientRun(cfg, w, acts)
    ensures Bounded(cfg, After(cfg, w, acts)) && Accounts(After(cfg, w, acts)) && Safe(After(cfg, w, acts))
    decreases |acts|
  {
    if acts != [] {
      NextKeepsSafe(cfg, w, acts[0]);
      NextKeepsAccounts(cfg, w, acts[0]);
      NextKeepsBounded(cfg, w, acts[0]);
      RunKeepsBounded(cfg, Next(cfg, w, acts[0]), acts[1..]);
    }
  }

  lemma BudgetArithmetic(n: nat, limit: nat, calls: nat, claims: nat, retries: nat, recoveries: nat, requeues: nat, since: nat)
    requires calls <= n * claims && claims <= 1 + retries + recoveries + requeues
    requires retries <= limit * requeues + since && since <= limit
    ensures calls <= n * ((limit + 1) * (requeues + 1) + recoveries)
  {
    var most := (limit + 1) * (requeues + 1) + recoveries;
    assert (limit + 1) * (requeues + 1) == limit * requeues + limit + requeues + 1;
    assert claims <= most;
    assert n * most == n * claims + n * (most - claims);
  }

  /** The most provider calls of a message with so many requeues and recoveries. */
  function MostCalls(cfg: Config, requeues: nat, recoveries: nat): nat {
    |cfg.providers| * ((cfg.maxRounds + 1) * (requeues + 1) + recoveries)
  }

  ghost predicate WithinBounds(cfg: Config, w: World, m: MessageId)
    requires m in w.ledger
  {
    var book := w.ledger[m];
    && CountCalls(w.calls, m) <= MostCalls(cfg, book.requeues, book.recoveries)
    && (m in w.db.messages ==>
          && w.db.messages[m].retryRounds <= cfg.maxRounds
          && book.requeues == TallyOf(w.db.outbox, m).requeued && book.recoveries == TallyOf(w.db.outbox, m).recovered
          && book.delaySinceRequeue == cfg.backoffBase * (Pow2(w.db.messages[m].retryRounds) - 1))
  }

  lemma BookedEvents(w: World, m: MessageId)
    requires Accounts(w) && m in w.db.messages
    ensures m in w.ledger && w.db.messages[m].retryRounds == w.ledger[m].retriesSinceRequeue
    ensures w.ledger[m].requeues == TallyOf(w.db.outbox, m).requeued && w.ledger[m].recoveries == TallyOf(w.db.outbox, m).recovered
  {
    assert Balanced(w.db, m, w.ledger[m]);
  }

  lemma CallsWithinClaims(cfg: Config, w: World, m: MessageId)
    requires Bounded(cfg, w) && m in w.ledger
    ensures CountCalls(w.calls, m) <= |cfg.providers| * w.ledger[m].claims && WithinBudget(cfg, w.ledger[m])
  {
    assert CallsWithin(cfg, w, m);
    assert HasWorker(w, m) ==> WorkerFits(cfg, w, w.ledger[m].claimant);
  }

  lemma CallsWithinBudget(cfg: Config, w: World, m: MessageId)
    requires Bounded(cfg, w) && m in w.ledger
    ensures CountCalls(w.calls, m) <= MostCalls(cfg, w.ledger[m].requeues, w.ledger[m].recoveries)
    ensures w.ledger[m].retriesSinceRequeue <= cfg.maxRounds
    ensures w.ledger[m].delaySinceRequeue == cfg.backoffBase * (Pow2(w.ledger[m].retriesSinceRequeue) - 1)
  {
    var book := w.ledger[m];
    CallsWithinClaims(cfg, w, m);
    BudgetArithmetic(|cfg.providers|, cfg.maxRounds, CountCalls(w.calls, m), book.claims,
                     book.retries, book.recoveries, book.requeues, book.retriesSinceRequeue);
  }

  lemma BoundedWorkStep(cfg: Config, w: World, m: MessageId)
    requires Bounded(cfg, w) && Accounts(w) && m in w.ledger
    ensures WithinBounds(cfg, w, m)
  {
    CallsWithinBudget(cfg, w, m);
    if m in w.db.messages {
      BookedEvents(w, m);
    }
  }
}
