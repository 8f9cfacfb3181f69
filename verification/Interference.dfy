// The worker under interference: every execution of a protocol worker, with anything that others do in
// between, is an execution of `ProcessDispatch` for some commits of others between its transactions. So what
// holds over all runs holds for the class.
module Interference {
  import opened StateMachine
  import opened Tables
  import opened Lifecycle
  import opened Providers
  import opened Protocol
  import opened Safety
  import opened SafetyTheorems
  import opened StatusTheorems
  import opened Dispatch
  import opened Accounting
  import opened Bounds
  import opened Progress
  import opened Processor
  import opened PassRefinement
  import opened WorkerRefinement

  // --- What is left of a job --------------------------------------------------------------------------------

  predicate Stands(cfg: Config, worker: Worker) {
    && |worker.failures| <= |cfg.providers|
    && (worker.Held().Some? ==> |worker.failures| < |cfg.providers|)
    && (worker.phase.Deciding? ==> |worker.failures| == |cfg.providers|)
  }

  /** From the provider's answer on: `last` is the database after the worker's previous transaction. */
  function AfterAnswer(cfg: Config, m: MessageId, round: nat, failures: seq<bool>, a: AttemptId, result: SendResult, last: Db,
                       answer: nat -> SendResult, env: nat -> Db -> Db): Processed
    requires |failures| < |cfg.providers|
  {
    var k := |failures|;
    var (after, turn) := RecordAnswer(cfg, env(2 * k + 1)(last), m, k, a, result);
    match turn
    case Ended(outcome, calls) => Processed(after, outcome, calls)
    case FailedTurn(isRetryable) => PassFrom(cfg, after, m, round, failures + [isRetryable], answer, env)
  }

  /** A pass goes on with a reservation, and if that is granted, with the provider's answer. */
  lemma PassTurn(cfg: Config, db: Db, m: MessageId, round: nat, failures: seq<bool>, answer: nat -> SendResult,
                 env: nat -> Db -> Db)
    requires |failures| < |cfg.providers|
    ensures var k := |failures|;
      var (reserved, r) := ReserveProviderAttempt(env(2 * k)(db), m, cfg.providers[k]);
      PassFrom(cfg, db, m, round, failures, answer, env) ==
        match r
        case NotReservable => Processed(reserved, Skipped, k)
        case ReservedAs(a) => AfterAnswer(cfg, m, round, failures, a, answer(k), reserved, answer, env)
  {
  }

  /** What the processor still does for a job whose worker stands where `worker` stands. */
  function Rest(cfg: Config, worker: Worker, last: Db, answer: nat -> SendResult, env: nat -> Db -> Db): Processed
    requires Stands(cfg, worker)
  {
    match worker.phase
    case Ready => PassFrom(cfg, last, worker.message, worker.round, worker.failures, answer, env)
    case InFlight(a) =>
      AfterAnswer(cfg, worker.message, worker.round, worker.failures, a, answer(|worker.failures|), last, answer, env)
    case Answered(a, result, _) =>
      AfterAnswer(cfg, worker.message, worker.round, worker.failures, a, result, last, answer, env)
    case Deciding(seen) =>
      var n := |cfg.providers|;
      var (after, r) := GuardedCommit(env(2 * n + 1)(last), worker.message, seen, DecisionTarget(cfg, worker), DecisionPatch(cfg, worker));
      Processed(after, DecisionOutcome(cfg, worker, r), n)
  }

  // --- An execution and its description ------------------------------------------------------------------------

  /** The number of the worker's next transaction after its claim. */
  function NextIndex(worker: Worker): nat {
    2 * |worker.failures| + if worker.phase.Ready? then 0 else 1
  }

  /** The step finds the database that `env` brings about, or the answer that `answer` gives. */
  ghost predicate Fits(w: World, worker: Worker, step: WorkerStep, last: Db, answer: nat -> SendResult, env: nat -> Db -> Db) {
    match step
    case CallProvider(result, _) => result == answer(|worker.failures|)
    case Claim(_) => false
    case Crash => false
    case _ => env(NextIndex(worker))(last) == w.db
  }

  predicate IsOwn(act: Action, id: WorkerId) {
    act.Work? && act.worker == id
  }

  /** The database after the worker's latest transaction. */
  function LastAfter(act: Action, id: WorkerId, last: Db, after: Db): Db {
    if IsOwn(act, id) && !act.step.CallProvider? then after else last
  }

  /** `answer` and `env` describe the answers the worker gets and the databases its transactions find. */
  ghost predicate Describes(cfg: Config, w: World, acts: seq<Action>, id: WorkerId, last: Db,
                            answer: nat -> SendResult, env: nat -> Db -> Db)
    requires IsRun(cfg, w, acts)
    decreases |acts|
  {
    acts == [] || id !in w.workers ||
    (&& (IsOwn(acts[0], id) ==> Fits(w, w.workers[id], acts[0].step, last, answer, env))
     && Describes(cfg, Next(cfg, w, acts[0]), acts[1..], id, LastAfter(acts[0], id, last, Next(cfg, w, acts[0]).db), answer, env))
  }

  /** The worker is at work until the last action, which is its own last step; it does not crash. */
  ghost predicate IsExecution(cfg: Config, w: World, acts: seq<Action>, id: WorkerId)
    requires IsRun(cfg, w, acts)
    decreases |acts|
  {
    && id in w.workers && acts != [] && acts[0] != Work(id, Crash)
    && var v := Next(cfg, w, acts[0]);
      if |acts| == 1 then id !in v.workers else IsExecution(cfg, v, acts[1..], id)
  }

  /** How the job of a worker ends whose next statement, on database `db`, is its last. */
  function EndOf(cfg: Config, db: Db, worker: Worker): Outcome
    requires Stands(cfg, worker)
  {
    match worker.phase
    case Ready => if |worker.failures| < |cfg.providers| then Skipped else Threw
    case InFlight(_) => Threw
    case Answered(a, result, _) =>
      if !FinalizeProviderAttempt(db, worker.message, a, AnswerOf(result, cfg.expiryMs)).1.Finalized? then Threw
      else if IsSent(result) then SentBy(cfg.providers[|worker.failures|])
      else AwaitingResult
    case Deciding(seen) =>
      DecisionOutcome(cfg, worker,
                      GuardedCommit(db, worker.message, seen, DecisionTarget(cfg, worker), DecisionPatch(cfg, worker)).1)
  }

  /** The execution ends with `outcome`, told from the worker's last statement. */
  ghost predicate EndsAs(cfg: Config, w: World, acts: seq<Action>, id: WorkerId, outcome: Outcome)
    requires IsRun(cfg, w, acts) && IsExecution(cfg, w, acts, id)
    decreases |acts|
  {
    if |acts| == 1 then Stands(cfg, w.workers[id]) && outcome == EndOf(cfg, w.db, w.workers[id])
    else EndsAs(cfg, Next(cfg, w, acts[0]), acts[1..], id, outcome)
  }

  function CallSteps(acts: seq<Action>, id: WorkerId): nat {
    if acts == [] then 0
    else One(IsOwn(acts[0], id) && acts[0].step.CallProvider?) + CallSteps(acts[1..], id)
  }

  // --- One step ---------------------------------------------------------------------------------------------------

  /** What others do leaves the worker where it stands. */
  lemma OthersLeaveWorker(cfg: Config, w: World, act: Action, id: WorkerId)
    requires Enabled(cfg, w, act) && id in w.workers && !IsOwn(act, id)
    ensures id in Next(cfg, w, act).workers && Next(cfg, w, act).workers[id] == w.workers[id]
  {
    match act
    case Work(other, step) => WorkChangesOne(cfg, w, other, step);
    case Operate(step) => OperateSameCallers(w, step);
    case _ =>
  }

  /** The rest of the job after the step is the rest before it, less that step. */
  ghost predicate GoesOn(cfg: Config, w: World, v: World, id: WorkerId, last: Db, next: Db, answer: nat -> SendResult,
                         env: nat -> Db -> Db)
    requires id in w.workers && Stands(cfg, w.workers[id])
  {
    var before := Rest(cfg, w.workers[id], last, answer, env);
    if id in v.workers then Stands(cfg, v.workers[id]) && Rest(cfg, v.workers[id], next, answer, env) == before
    else before.db == v.db && before.outcome == EndOf(cfg, w.db, w.workers[id])
  }

  /** How many providers the job has called when the step is done. */
  ghost predicate CountsCalls(cfg: Config, w: World, v: World, id: WorkerId, step: WorkerStep, last: Db,
                              answer: nat -> SendResult, env: nat -> Db -> Db)
    requires id in w.workers && Stands(cfg, w.workers[id])
  {
    var made := Made(w.workers[id]) + One(step.CallProvider?);
    if id in v.workers then Made(v.workers[id]) == made
    else Rest(cfg, w.workers[id], last, answer, env).calls == made
  }

  lemma RestOfReserve(cfg: Config, worker: Worker, last: Db, answer: nat -> SendResult, env: nat -> Db -> Db)
    requires Stands(cfg, worker) && worker.phase.Ready? && |worker.failures| < |cfg.providers|
    ensures var k := |worker.failures|;
      var (reserved, r) := ReserveProviderAttempt(env(2 * k)(last), worker.message, cfg.providers[k]);
      var rest := Rest(cfg, worker, last, answer, env);
      match r
      case NotReservable => rest == Processed(reserved, Skipped, k)
      case ReservedAs(a) =>
        var calling := worker.(phase := InFlight(a));
        Stands(cfg, calling) && rest == Rest(cfg, calling, reserved, answer, env)
  {
    PassTurn(cfg, last, worker.message, worker.round, worker.failures, answer, env);
  }

  lemma RestOfCall(cfg: Config, worker: Worker, now: Worker, last: Db, answer: nat -> SendResult, env: nat -> Db -> Db)
    requires Stands(cfg, worker) && worker.phase.InFlight? && now.phase.Answered?
    requires now == worker.(phase := now.phase)
    requires now.phase.answered == worker.phase.attempt && now.phase.result == answer(|worker.failures|)
    ensures Stands(cfg, now) && Rest(cfg, now, last, answer, env) == Rest(cfg, worker, last, answer, env)
  {
  }

  lemma RecordEffect(cfg: Config, db: Db, m: MessageId, k: nat, a: AttemptId, result: SendResult)
    requires k < |cfg.providers|
    ensures var (after, f) := FinalizeProviderAttempt(db, m, a, AnswerOf(result, cfg.expiryMs));
      var (recorded, turn) := RecordAnswer(cfg, db, m, k, a, result);
      && recorded == after
      && (f.Finalized? && IsDefinitiveFailure(result) ==> turn == FailedTurn(result.isRetryable))
      && (!(f.Finalized? && IsDefinitiveFailure(result)) ==>
            turn == Ended(if !f.Finalized? then Threw else if IsSent(result) then SentBy(cfg.providers[k]) else AwaitingResult, k + 1))
  {
  }

  lemma RestOfFinalize(cfg: Config, worker: Worker, last: Db, answer: nat -> SendResult, env: nat -> Db -> Db)
    requires Stands(cfg, worker) && worker.phase.Answered?
    ensures var k := |worker.failures|;
      var (after, turn) := RecordAnswer(cfg, env(2 * k + 1)(last), worker.message, k, worker.phase.answered, worker.phase.result);
      var rest := Rest(cfg, worker, last, answer, env);
      match turn
      case Ended(outcome, calls) => rest == Processed(after, outcome, calls)
      case FailedTurn(isRetryable) =>
        var ready := Worker(worker.message, worker.round, worker.failures + [isRetryable], Ready);
        Stands(cfg, ready) && rest == Rest(cfg, ready, after, answer, env)
  {
    assert Rest(cfg, worker, last, answer, env)
        == AfterAnswer(cfg, worker.message, worker.round, worker.failures, worker.phase.answered, worker.phase.result, last, answer, env);
  }

  lemma ReserveGoesOn(cfg: Config, w: World, id: WorkerId, last: Db, answer: nat -> SendResult, env: nat -> Db -> Db)
    requires WorkEnabled(cfg, w, id, Reserve) && Stands(cfg, w.workers[id]) && Fits(w, w.workers[id], Reserve, last, answer, env)
    ensures var v := NextReserve(cfg, w, id);
      GoesOn(cfg, w, v, id, last, v.db, answer, env) && CountsCalls(cfg, w, v, id, Reserve, last, answer, env)
  {
    ReserveShape(cfg, w, id);
    RestOfReserve(cfg, w.workers[id], last, answer, env);
  }

  lemma CallGoesOn(cfg: Config, w: World, id: WorkerId, result: SendResult, accepted: bool, last: Db,
                   answer: nat -> SendResult, env: nat -> Db -> Db)
    requires WorkEnabled(cfg, w, id, CallProvider(result, accepted)) && Stands(cfg, w.workers[id])
    requires Fits(w, w.workers[id], CallProvider(result, accepted), last, answer, env)
    ensures var v := NextCall(w, id, result, accepted);
      GoesOn(cfg, w, v, id, last, last, answer, env) && CountsCalls(cfg, w, v, id, CallProvider(result, accepted), last, answer, env)
  {
    RestOfCall(cfg, w.workers[id], NextCall(w, id, result, accepted).workers[id], last, answer, env);
  }

  lemma FinalizeGoesOn(cfg: Config, w: World, id: WorkerId, last: Db, answer: nat -> SendResult, env: nat -> Db -> Db)
    requires WorkEnabled(cfg, w, id, Finalize) && Stands(cfg, w.workers[id]) && Fits(w, w.workers[id], Finalize, last, answer, env)
    ensures var v := NextFinalize(cfg, w, id);
      GoesOn(cfg, w, v, id, last, v.db, answer, env) && CountsCalls(cfg, w, v, id, Finalize, last, answer, env)
  {
    FinalizeAlternatives(cfg, w, id);
    FinalizedGoesOn(cfg, w, NextFinalize(cfg, w, id), id, last, answer, env);
  }

  lemma FinalizedGoesOn(cfg: Config, w: World, v: World, id: WorkerId, last: Db, answer: nat -> SendResult, env: nat -> Db -> Db)
    requires id in w.workers && Stands(cfg, w.workers[id]) && w.workers[id].phase.Answered? && env(NextIndex(w.workers[id]))(last) == w.db
    requires var worker := w.workers[id];
      var result := worker.phase.result;
      var (after, r) := FinalizeProviderAttempt(w.db, worker.message, worker.phase.answered, AnswerOf(result, cfg.expiryMs));
      && v.db == after
      && v.workers == if r.Finalized? && IsDefinitiveFailure(result)
                      then w.workers[id := Worker(worker.message, worker.round, worker.failures + [result.isRetryable], Ready)]
                      else w.workers - {id}
    ensures GoesOn(cfg, w, v, id, last, v.db, answer, env) && CountsCalls(cfg, w, v, id, Finalize, last, answer, env)
  {
    RestOfAnswer(cfg, w.workers[id], w.db, last, answer, env);
  }

  lemma RestOfAnswer(cfg: Config, worker: Worker, db: Db, last: Db, answer: nat -> SendResult, env: nat -> Db -> Db)
    requires Stands(cfg, worker) && worker.phase.Answered? && env(NextIndex(worker))(last) == db
    ensures var result := worker.phase.result;
      var (after, r) := FinalizeProviderAttempt(db, worker.message, worker.phase.answered, AnswerOf(result, cfg.expiryMs));
      var rest := Rest(cfg, worker, last, answer, env);
      if r.Finalized? && IsDefinitiveFailure(result) then
        var ready := Worker(worker.message, worker.round, worker.failures + [result.isRetryable], Ready);
        Stands(cfg, ready) && rest == Rest(cfg, ready, after, answer, env)
      else
        rest == Processed(after, EndOf(cfg, db, worker), |worker.failures| + 1)
  {
    RestOfFinalize(cfg, worker, last, answer, env);
    RecordEffect(cfg, db, worker.message, |worker.failures|, worker.phase.answered, worker.phase.result);
  }

  lemma ReadGoesOn(cfg: Config, w: World, id: WorkerId, last: Db, answer: nat -> SendResult, env: nat -> Db -> Db)
    requires WorkEnabled(cfg, w, id, ReadForDecision) && Stands(cfg, w.workers[id])
    requires Fits(w, w.workers[id], ReadForDecision, last, answer, env)
    ensures var v := NextReadForDecision(cfg, w, id);
      GoesOn(cfg, w, v, id, last, v.db, answer, env) && CountsCalls(cfg, w, v, id, ReadForDecision, last, answer, env)
  {
    ReadShape(cfg, w, id);
    assert w.workers[id] == Worker(w.workers[id].message, w.workers[id].round, w.workers[id].failures, Ready);
  }

  lemma DecideGoesOn(cfg: Config, w: World, id: WorkerId, last: Db, answer: nat -> SendResult, env: nat -> Db -> Db)
    requires WorkEnabled(cfg, w, id, Decide) && Stands(cfg, w.workers[id]) && Fits(w, w.workers[id], Decide, last, answer, env)
    ensures var v := NextDecide(cfg, w, id);
      GoesOn(cfg, w, v, id, last, v.db, answer, env) && CountsCalls(cfg, w, v, id, Decide, last, answer, env)
  {
  }

  lemma OwnStepGoesOn(cfg: Config, w: World, id: WorkerId, step: WorkerStep, last: Db, answer: nat -> SendResult,
                      env: nat -> Db -> Db)
    requires WorkEnabled(cfg, w, id, step) && id in w.workers && Stands(cfg, w.workers[id])
    requires Fits(w, w.workers[id], step, last, answer, env)
    ensures var v := NextWork(cfg, w, id, step);
      && GoesOn(cfg, w, v, id, last, if step.CallProvider? then last else v.db, answer, env)
      && CountsCalls(cfg, w, v, id, step, last, answer, env)
  {
    match step
    case Reserve => ReserveGoesOn(cfg, w, id, last, answer, env);
    case CallProvider(result, accepted) => CallGoesOn(cfg, w, id, result, accepted, last, answer, env);
    case Finalize => FinalizeGoesOn(cfg, w, id, last, answer, env);
    case ReadForDecision => ReadGoesOn(cfg, w, id, last, answer, env);
    case Decide => DecideGoesOn(cfg, w, id, last, answer, env);
  }

  // --- Whole executions ----------------------------------------------------------------------------------------------

  lemma {:induction false} RestFollowsRun(cfg: Config, w: World, acts: seq<Action>, id: WorkerId, last: Db,
                                          answer: nat -> SendResult, env: nat -> Db -> Db)
    requires IsRun(cfg, w, acts) && IsExecution(cfg, w, acts, id) && Stands(cfg, w.workers[id])
    requires Describes(cfg, w, acts, id, last, answer, env)
    ensures var p := Rest(cfg, w.workers[id], last, answer, env);
      && p.db == After(cfg, w, acts).db && p.calls == Made(w.workers[id]) + CallSteps(acts, id)
      && EndsAs(cfg, w, acts, id, p.outcome)
    decreases |acts|
  {
    var v := Next(cfg, w, acts[0]);
    if IsOwn(acts[0], id) {
      OwnStepGoesOn(cfg, w, id, acts[0].step, last, answer, env);
    } else {
      OthersLeaveWorker(cfg, w, acts[0], id);
    }
    if |acts| > 1 {
      RestFollowsRun(cfg, v, acts[1..], id, LastAfter(acts[0], id, last, v.db), answer, env);
    } else {
      assert acts[1..] == [];
    }
  }

  /** The worker is at work through every action. */
  ghost predicate IsAtWork(cfg: Config, w: World, acts: seq<Action>, id: WorkerId)
    requires IsRun(cfg, w, acts)
    decreases |acts|
  {
    id in w.workers && (acts == [] || (acts[0] != Work(id, Crash) && IsAtWork(cfg, Next(cfg, w, acts[0]), acts[1..], id)))
  }

  /** The database after the worker's latest transaction in the run. */
  function LastOf(cfg: Config, w: World, acts: seq<Action>, id: WorkerId, last: Db): Db
    requires IsRun(cfg, w, acts)
    decreases |acts|
  {
    if acts == [] then last
    else
      var v := Next(cfg, w, acts[0]);
      LastOf(cfg, v, acts[1..], id, LastAfter(acts[0], id, last, v.db))
  }

  /** However far the worker gets, what is left of its job is what was left before. */
  lemma {:induction false} StandingFollowsRun(cfg: Config, w: World, acts: seq<Action>, id: WorkerId, last: Db,
                                              answer: nat -> SendResult, env: nat -> Db -> Db)
    requires IsRun(cfg, w, acts) && IsAtWork(cfg, w, acts, id) && Stands(cfg, w.workers[id])
    requires Describes(cfg, w, acts, id, last, answer, env)
    ensures var v := After(cfg, w, acts);
      && id in v.workers && Stands(cfg, v.workers[id])
      && Rest(cfg, v.workers[id], LastOf(cfg, w, acts, id, last), answer, env) == Rest(cfg, w.workers[id], last, answer, env)
      && Made(v.workers[id]) == Made(w.workers[id]) + CallSteps(acts, id)
    decreases |acts|
  {
    if acts != [] {
      var v := Next(cfg, w, acts[0]);
      if IsOwn(acts[0], id) {
        OwnStepGoesOn(cfg, w, id, acts[0].step, last, answer, env);
      } else {
        OthersLeaveWorker(cfg, w, acts[0], id);
      }
      StandingFollowsRun(cfg, v, acts[1..], id, LastAfter(acts[0], id, last, v.db), answer, env);
    }
  }

  /** What an outcome says about the last statement, which found `db` and left `after`. */
  predicate Tells(db: Db, after: Db, m: MessageId, end: Outcome) {
    && (end.SentBy? <==> HasStatus(db, m, AwaitingProviderResult) && HasStatus(after, m, Sent))
    && (end.AwaitingResult? <==>
          db.nextEvent in after.outbox && after.outbox[db.nextEvent].eventType == AmbiguousExpiryScheduled)
    && (end.RetryIsScheduled? <==> HasStatus(db, m, Processing) && HasStatus(after, m, RetryScheduled))
    && (end.DeadLetter? <==> HasStatus(db, m, Processing) && HasStatus(after, m, FatalFailure))
    && (end.Skipped? || end.Threw? <==> after == db)
  }

  lemma NothingTells(db: Db, m: MessageId, end: Outcome)
    requires ForeignEvents(db) && (end.Skipped? || end.Threw?)
    ensures Tells(db, db, m, end)
  {
  }

  lemma FinalizeTells(cfg: Config, db: Db, worker: Worker)
    requires ForeignEvents(db) && Stands(cfg, worker) && worker.phase.Answered?
    requires var result := worker.phase.result;
      var r := FinalizeProviderAttempt(db, worker.message, worker.phase.answered, AnswerOf(result, cfg.expiryMs)).1;
      !(r.Finalized? && IsDefinitiveFailure(result))
    ensures Tells(db, FinalizeProviderAttempt(db, worker.message, worker.phase.answered,
                                              AnswerOf(worker.phase.result, cfg.expiryMs)).0,
                  worker.message, EndOf(cfg, db, worker))
  {
    var input := AnswerOf(worker.phase.result, cfg.expiryMs);
    var (after, r) := FinalizeProviderAttempt(db, worker.message, worker.phase.answered, input);
    if !r.Finalized? {
      assert after == db;
    } else if input.AcceptedWith? {
      assert IsSent(worker.phase.result) && HasStatus(after, worker.message, Sent);
    } else {
      assert input.isAmbiguous && !IsSent(worker.phase.result);
    }
  }

  lemma DecideTells(cfg: Config, db: Db, worker: Worker)
    requires ForeignEvents(db) && Stands(cfg, worker) && worker.phase == Deciding(Processing)
    ensures Tells(db, GuardedCommit(db, worker.message, Processing, DecisionTarget(cfg, worker), DecisionPatch(cfg, worker)).0,
                  worker.message, EndOf(cfg, db, worker))
  {
  }

  /** The outcome of an execution says exactly what its last statement did to the row and the outbox. A worker
      that was overtaken before its reservation or its decision is done; one that was overtaken inside a call, or
      reads a status that admits no decision, throws. */
  lemma OutcomeTells(cfg: Config, w: World, id: WorkerId, step: WorkerStep)
    requires Safe(w) && WorkEnabled(cfg, w, id, step) && !step.Claim? && !step.Crash?
    requires Stands(cfg, w.workers[id]) && id !in NextWork(cfg, w, id, step).workers
    ensures Tells(w.db, NextWork(cfg, w, id, step).db, w.workers[id].message, EndOf(cfg, w.db, w.workers[id]))
    ensures var end := EndOf(cfg, w.db, w.workers[id]);
      && (end.Skipped? <==> NextWork(cfg, w, id, step).db == w.db && (step.Reserve? || step.Decide?))
      && (end.Threw? <==> NextWork(cfg, w, id, step).db == w.db && (step.Finalize? || step.ReadForDecision?))
  {
    assert ForeignEvents(w.db);
    match step
    case Reserve =>
      ReserveShape(cfg, w, id);
      NothingTells(w.db, w.workers[id].message, Skipped);
    case CallProvider(_, _) =>
    case Finalize =>
      FinalizeAlternatives(cfg, w, id);
      FinalizeTells(cfg, w.db, w.workers[id]);
    case ReadForDecision =>
      ReadShape(cfg, w, id);
      NothingTells(w.db, w.workers[id].message, Threw);
    case Decide => DecideTells(cfg, w.db, w.workers[id]);
  }

  // --- Every execution has a description --------------------------------------------------------------------------------

  /** Only what lies ahead of the worker matters. */
  ghost predicate AgreeAhead(worker: Worker, answer: nat -> SendResult, env: nat -> Db -> Db,
                             answer2: nat -> SendResult, env2: nat -> Db -> Db) {
    && (forall k: nat :: k >= Made(worker) ==> answer(k) == answer2(k))
    && (forall i: nat, d: Db :: i >= NextIndex(worker) ==> env(i)(d) == env2(i)(d))
  }

  /** A step of its program takes the worker ahead. */
  lemma StepsAhead(cfg: Config, w: World, id: WorkerId, step: WorkerStep)
    requires WorkEnabled(cfg, w, id, step) && id in w.workers && Stands(cfg, w.workers[id]) && !step.Crash? && !step.Claim?
    ensures var v := NextWork(cfg, w, id, step);
      id in v.workers ==>
        && Stands(cfg, v.workers[id])
        && Made(v.workers[id]) >= Made(w.workers[id]) + One(step.CallProvider?)
        && NextIndex(v.workers[id]) >= NextIndex(w.workers[id]) + One(!step.CallProvider?)
  {
    match step
    case Reserve => ReserveShape(cfg, w, id);
    case Finalize => FinalizeAlternatives(cfg, w, id);
    case ReadForDecision => ReadShape(cfg, w, id);
    case _ =>
  }

  /** Two descriptions that agree ahead of the worker describe the same executions. */
  lemma {:induction false} SameAhead(cfg: Config, w: World, acts: seq<Action>, id: WorkerId, last: Db,
                                     answer: nat -> SendResult, env: nat -> Db -> Db, answer2: nat -> SendResult, env2: nat -> Db -> Db)
    requires IsRun(cfg, w, acts) && IsExecution(cfg, w, acts, id) && Stands(cfg, w.workers[id])
    requires Describes(cfg, w, acts, id, last, answer, env) && AgreeAhead(w.workers[id], answer, env, answer2, env2)
    ensures Describes(cfg, w, acts, id, last, answer2, env2)
    decreases |acts|
  {
    var v := Next(cfg, w, acts[0]);
    if IsOwn(acts[0], id) {
      StepsAhead(cfg, w, id, acts[0].step);
    } else {
      OthersLeaveWorker(cfg, w, acts[0], id);
    }
    if |acts| > 1 {
      SameAhead(cfg, v, acts[1..], id, LastAfter(acts[0], id, last, v.db), answer, env, answer2, env2);
    } else {
      assert acts[1..] == [];
    }
  }

  /** `env` with index `i` answering `db`, whatever it is asked. */
  function Finds(env: nat -> Db -> Db, i: nat, db: Db): nat -> Db -> Db {
    (j: nat) => if j == i then (d: Db) => db else env(j)
  }

  function Answers(answer: nat -> SendResult, k: nat, result: SendResult): nat -> SendResult {
    (j: nat) => if j == k then result else answer(j)
  }

  /** Prepends what one own step finds to the description of the steps after it. */
  lemma DescribeStep(cfg: Config, w: World, acts: seq<Action>, id: WorkerId, last: Db, answer: nat -> SendResult,
                     env: nat -> Db -> Db)
    returns (answer2: nat -> SendResult, env2: nat -> Db -> Db)
    requires IsRun(cfg, w, acts) && IsExecution(cfg, w, acts, id) && Stands(cfg, w.workers[id]) && IsOwn(acts[0], id)
    requires var v := Next(cfg, w, acts[0]);
      Describes(cfg, v, acts[1..], id, LastAfter(acts[0], id, last, v.db), answer, env)
    ensures Describes(cfg, w, acts, id, last, answer2, env2)
  {
    var worker := w.workers[id];
    var step := acts[0].step;
    var v := Next(cfg, w, acts[0]);
    answer2 := if step.CallProvider? then Answers(answer, Made(worker), step.answer) else answer;
    env2 := if step.CallProvider? then env else Finds(env, NextIndex(worker), w.db);
    assert Fits(w, worker, step, last, answer2, env2);
    if |acts| > 1 {
      StepsAhead(cfg, w, id, step);
      SameAheadAfterStep(cfg, v, acts[1..], id, LastAfter(acts[0], id, last, v.db), answer, env, answer2, env2, worker, step);
    } else {
      assert acts[1..] == [];
    }
  }

  lemma SameAheadAfterStep(cfg: Config, v: World, acts: seq<Action>, id: WorkerId, last: Db,
                           answer: nat -> SendResult, env: nat -> Db -> Db,
                           answer2: nat -> SendResult, env2: nat -> Db -> Db, was: Worker, step: WorkerStep)
    requires IsRun(cfg, v, acts) && IsExecution(cfg, v, acts, id) && Stands(cfg, v.workers[id])
    requires Describes(cfg, v, acts, id, last, answer, env)
    requires forall k: nat :: k != Made(was) || !step.CallProvider? ==> answer2(k) == answer(k)
    requires forall i: nat, d: Db :: i != NextIndex(was) || step.CallProvider? ==> env2(i)(d) == env(i)(d)
    requires NextIndex(v.workers[id]) >= NextIndex(was) + One(!step.CallProvider?)
    requires Made(v.workers[id]) >= Made(was) + One(step.CallProvider?)
    ensures Describes(cfg, v, acts, id, last, answer2, env2)
  {
    SameAhead(cfg, v, acts, id, last, answer, env, answer2, env2);
  }

  /** Every execution of a worker has a description. */
  lemma {:induction false} DescribeExecution(cfg: Config, w: World, acts: seq<Action>, id: WorkerId, last: Db)
    returns (answer: nat -> SendResult, env: nat -> Db -> Db)
    requires IsRun(cfg, w, acts) && IsExecution(cfg, w, acts, id) && Stands(cfg, w.workers[id])
    ensures Describes(cfg, w, acts, id, last, answer, env)
    decreases |acts|
  {
    var v := Next(cfg, w, acts[0]);
    if IsOwn(acts[0], id) {
      StepsAhead(cfg, w, id, acts[0].step);
    } else {
      OthersLeaveWorker(cfg, w, acts[0], id);
    }
    if |acts| > 1 {
      answer, env := DescribeExecution(cfg, v, acts[1..], id, LastAfter(acts[0], id, last, v.db));
    } else {
      assert acts[1..] == [];
      answer, env := k => SendResult(false, None, None, false, None), Calm;
    }
    if IsOwn(acts[0], id) {
      answer, env := DescribeStep(cfg, w, acts, id, last, answer, env);
    }
  }

  /** However long others run, the worker stays where it stands and its program's next step stays enabled:
      any commits of others can come between two of its transactions. */
  lemma {:induction false} OthersMayRun(cfg: Config, w: World, others: seq<Action>, id: WorkerId, answer: nat -> SendResult)
    requires IsRun(cfg, w, others) && id in w.workers && Stands(cfg, w.workers[id])
    requires forall i :: 0 <= i < |others| ==> !IsOwn(others[i], id)
    ensures var v := After(cfg, w, others);
      && id in v.workers && v.workers[id] == w.workers[id]
      && WorkEnabled(cfg, v, id, ProgramStep(cfg, w.workers[id], answer))
    decreases |others|
  {
    if others == [] {
      ProgramStepEnabled(cfg, w, id, answer);
    } else {
      OthersLeaveWorker(cfg, w, others[0], id);
      OthersMayRun(cfg, Next(cfg, w, others[0]), others[1..], id, answer);
    }
  }

  // --- The class ------------------------------------------------------------------------------------------------------

  /** From a claim on, whatever others do in between: the processor, given those answers and those commits,
      leaves the database that the worker leaves at its last step, after as many provider calls, with the
      outcome that this step tells. */
  lemma ProcessorFollowsRun(cfg: Config, w: World, job: JobId, id: WorkerId, acts: seq<Action>,
                            answer: nat -> SendResult, env: nat -> Db -> Db)
    requires WorkEnabled(cfg, w, id, Claim(job)) && IsWaiting(w.db, w.jobs[job].message)
    requires var claimed := NextClaim(w, job, id);
      IsRun(cfg, claimed, acts) && IsExecution(cfg, claimed, acts, id) && Describes(cfg, claimed, acts, id, claimed.db, answer, env)
    ensures var p := Process(cfg, w.db, w.jobs[job].message, AtOnce(), answer, env);
      && p.db == After(cfg, NextClaim(w, job, id), acts).db && p.calls == CallSteps(acts, id)
      && EndsAs(cfg, NextClaim(w, job, id), acts, id, p.outcome)
  {
    var claimed := NextClaim(w, job, id);
    ClaimEffect(w, id, job);
    RestFollowsRun(cfg, claimed, acts, id, claimed.db, answer, env);
  }

  /** And wherever a worker stands, or stops for good: the processor has called as many providers by then, and
      its whole job is what the worker has left. */
  lemma ProcessorStandsWithRun(cfg: Config, w: World, job: JobId, id: WorkerId, acts: seq<Action>,
                               answer: nat -> SendResult, env: nat -> Db -> Db)
    requires WorkEnabled(cfg, w, id, Claim(job)) && IsWaiting(w.db, w.jobs[job].message)
    requires var claimed := NextClaim(w, job, id);
      IsRun(cfg, claimed, acts) && IsAtWork(cfg, claimed, acts, id) && Describes(cfg, claimed, acts, id, claimed.db, answer, env)
    ensures var claimed := NextClaim(w, job, id);
      var v := After(cfg, claimed, acts);
      && id in v.workers && Stands(cfg, v.workers[id]) && Made(v.workers[id]) == CallSteps(acts, id)
      && Process(cfg, w.db, w.jobs[job].message, AtOnce(), answer, env)
      == Rest(cfg, v.workers[id], LastOf(cfg, claimed, acts, id, claimed.db), answer, env)
  {
    var claimed := NextClaim(w, job, id);
    ClaimEffect(w, id, job);
    StandingFollowsRun(cfg, claimed, acts, id, claimed.db, answer, env);
  }

  /** A job whose row is gone when its body is read never ends in a dead letter, though it asks for one: a
      purged message never comes back, so the transition finds no row and throws. */
  lemma MissingRowIsNeverDeadLettered(cfg: Config, clock: Time, acts: seq<Action>, later: seq<Action>, db: Db, m: MessageId,
                                      reading: Reading, answer: nat -> SendResult, env: nat -> Db -> Db)
    requires IsRun(cfg, Init(clock), acts) && IsRun(cfg, After(cfg, Init(clock), acts), later)
    requires var w := After(cfg, Init(clock), acts);
      && m in w.ledger && m !in w.db.messages
      && IsWaiting(db, m) && reading.meanwhile(Lifecycle.BeginProcessing(db, m).0) == w.db
      && env(0)(w.db) == After(cfg, w, later).db
    ensures var last := After(cfg, After(cfg, Init(clock), acts), later);
      Process(cfg, db, m, reading, answer, env) == Processed(last.db, Threw, 0)
  {
    InitIsSafe(clock);
    RunKeepsSafe(cfg, Init(clock), acts);
    GoneForGood(cfg, After(cfg, Init(clock), acts), later, m);
  }

  /** The worker's steps after its claim are the processor's for a message: some answers and some commits of
      others describe what the steps met, and with them the processor leaves what the worker leaves. */
  ghost predicate IsProcessing(cfg: Config, db: Db, m: MessageId, claimed: World, id: WorkerId, acts: seq<Action>)
    requires IsRun(cfg, claimed, acts) && IsExecution(cfg, claimed, acts, id)
  {
    exists answer, env ::
      Describes(cfg, claimed, acts, id, claimed.db, answer, env) &&
      var p := Process(cfg, db, m, AtOnce(), answer, env);
      p.db == After(cfg, claimed, acts).db && p.calls == CallSteps(acts, id) && EndsAs(cfg, claimed, acts, id, p.outcome)
  }

  /** So every execution of a worker in any run is an execution of the processor. */
  lemma EveryExecutionIsProcessing(cfg: Config, w: World, job: JobId, id: WorkerId, acts: seq<Action>)
    requires WorkEnabled(cfg, w, id, Claim(job)) && IsWaiting(w.db, w.jobs[job].message)
    requires IsRun(cfg, NextClaim(w, job, id), acts) && IsExecution(cfg, NextClaim(w, job, id), acts, id)
    ensures IsProcessing(cfg, w.db, w.jobs[job].message, NextClaim(w, job, id), id, acts)
  {
    var claimed := NextClaim(w, job, id);
    ClaimEffect(w, id, job);
    var answer, env := DescribeExecution(cfg, claimed, acts, id, claimed.db);
    ProcessorFollowsRun(cfg, w, job, id, acts, answer, env);
  }
}
