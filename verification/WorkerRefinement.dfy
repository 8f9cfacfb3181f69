// The protocol's worker is the queue worker: left alone after its claim it commits exactly what
// `ProcessDispatch` commits, with the same provider calls.
module WorkerRefinement {
  import opened StateMachine
  import opened Tables
  import opened Lifecycle
  import opened Providers
  import opened Protocol
  import opened Processor
  import opened PassRefinement

  /** The worker stands where the program can stand. */
  predicate InPass(cfg: Config, w: World, id: WorkerId) {
    id in w.workers ==>
      && |w.workers[id].failures| <= |cfg.providers|
      && (w.workers[id].Held().Some? ==> |w.workers[id].failures| < |cfg.providers|)
      && (w.workers[id].phase.Deciding? ==> |w.workers[id].failures| == |cfg.providers|)
  }

  /** The one step the worker's program takes next; provider `k` answers `answer(k)`. */
  function ProgramStep(cfg: Config, worker: Worker, answer: nat -> SendResult): WorkerStep {
    match worker.phase
    case Ready => if |worker.failures| < |cfg.providers| then Reserve else ReadForDecision
    case InFlight(_) => CallProvider(answer(|worker.failures|), false)
    case Answered(_, _, _) => Finalize
    case Deciding(_) => Decide
  }

  lemma ProgramStepEnabled(cfg: Config, w: World, id: WorkerId, answer: nat -> SendResult)
    requires id in w.workers && InPass(cfg, w, id)
    ensures WorkEnabled(cfg, w, id, ProgramStep(cfg, w.workers[id], answer))
  {
  }

  function StepsLeft(cfg: Config, w: World, id: WorkerId): nat
    requires InPass(cfg, w, id)
  {
    if id !in w.workers then 0
    else
      5 * (|cfg.providers| - |w.workers[id].failures|) +
      match w.workers[id].phase
      case Ready => 4
      case InFlight(_) => 3
      case Answered(_, _, _) => 2
      case Deciding(_) => 1
  }

  // --- The shape of each step ----------------------------------------------------------------------------

  lemma ReserveShape(cfg: Config, w: World, id: WorkerId)
    requires WorkEnabled(cfg, w, id, Reserve)
    ensures var v := NextReserve(cfg, w, id);
      var worker := w.workers[id];
      v.workers == if HasStatus(w.db, worker.message, Processing) then w.workers[id := worker.(phase := InFlight(w.db.nextAttempt))]
                   else w.workers - {id}
  {
  }

  lemma FinalizeAlternatives(cfg: Config, w: World, id: WorkerId)
    requires WorkEnabled(cfg, w, id, Finalize)
    ensures var v := NextFinalize(cfg, w, id);
      var worker := w.workers[id];
      var answer := worker.phase.result;
      var r := FinalizeProviderAttempt(w.db, worker.message, worker.phase.answered, AnswerOf(answer, cfg.expiryMs)).1;
      v.workers == if r.Finalized? && IsDefinitiveFailure(answer)
                   then w.workers[id := Worker(worker.message, worker.round, worker.failures + [answer.isRetryable], Ready)]
                   else w.workers - {id}
  {
  }

  lemma ReadShape(cfg: Config, w: World, id: WorkerId)
    requires WorkEnabled(cfg, w, id, ReadForDecision)
    ensures var v := NextReadForDecision(cfg, w, id);
      var worker := w.workers[id];
      var read := GuardedCheck(w.db, worker.message, DecisionTarget(cfg, worker));
      v.workers == if read.Validated? then w.workers[id := worker.(phase := Deciding(read.seen))] else w.workers - {id}
  {
  }

  lemma StepShape(cfg: Config, w: World, id: WorkerId, answer: nat -> SendResult)
    requires id in w.workers && InPass(cfg, w, id)
    requires WorkEnabled(cfg, w, id, ProgramStep(cfg, w.workers[id], answer))
    ensures var v := NextWork(cfg, w, id, ProgramStep(cfg, w.workers[id], answer));
      InPass(cfg, v, id) && StepsLeft(cfg, v, id) < StepsLeft(cfg, w, id)
  {
    match w.workers[id].phase
    case Ready =>
      if |w.workers[id].failures| < |cfg.providers| { ReserveShape(cfg, w, id); } else { ReadShape(cfg, w, id); }
    case InFlight(_) =>
    case Answered(_, _, _) => FinalizeAlternatives(cfg, w, id);
    case Deciding(_) =>
  }

  function StepAlone(cfg: Config, w: World, id: WorkerId, answer: nat -> SendResult): (v: World)
    requires id in w.workers && InPass(cfg, w, id)
    ensures InPass(cfg, v, id) && StepsLeft(cfg, v, id) < StepsLeft(cfg, w, id)
  {
    ProgramStepEnabled(cfg, w, id, answer);
    StepShape(cfg, w, id, answer);
    NextWork(cfg, w, id, ProgramStep(cfg, w.workers[id], answer))
  }

  /** The worker runs to its end while nobody else moves. */
  function RunAlone(cfg: Config, w: World, id: WorkerId, answer: nat -> SendResult): World
    requires InPass(cfg, w, id)
    decreases StepsLeft(cfg, w, id)
  {
    if id !in w.workers then w else RunAlone(cfg, StepAlone(cfg, w, id, answer), id, answer)
  }

  // --- One provider's turn ----------------------------------------------------------------------------------

  lemma ReserveAlone(cfg: Config, w: World, id: WorkerId, answer: nat -> SendResult)
    requires id in w.workers && InPass(cfg, w, id) && w.workers[id].phase.Ready? && |w.workers[id].failures| < |cfg.providers|
    ensures var v := StepAlone(cfg, w, id, answer);
      var worker := w.workers[id];
      var (after, r) := ReserveProviderAttempt(w.db, worker.message, cfg.providers[|worker.failures|]);
      && v.db == after && v.calls == w.calls
      && (r.NotReservable? ==> id !in v.workers)
      && (r.ReservedAs? ==> id in v.workers && v.workers[id] == worker.(phase := InFlight(r.attempt)))
  {
    ReserveShape(cfg, w, id);
  }

  lemma CallAlone(cfg: Config, w: World, id: WorkerId, answer: nat -> SendResult)
    requires id in w.workers && InPass(cfg, w, id) && w.workers[id].phase.InFlight?
    ensures var v := StepAlone(cfg, w, id, answer);
      var worker := w.workers[id];
      && v.db == w.db && |v.calls| == |w.calls| + 1 && id in v.workers
      && v.workers[id] == worker.(phase := Answered(worker.phase.attempt, answer(|worker.failures|), |w.calls|))
  {
  }

  lemma FinalizeAlone(cfg: Config, w: World, id: WorkerId, answer: nat -> SendResult)
    requires id in w.workers && InPass(cfg, w, id) && w.workers[id].phase.Answered?
    ensures var v := StepAlone(cfg, w, id, answer);
      var worker := w.workers[id];
      var result := worker.phase.result;
      var (after, f) := FinalizeProviderAttempt(w.db, worker.message, worker.phase.answered, AnswerOf(result, cfg.expiryMs));
      && v.db == after && v.calls == w.calls
      && (f.Finalized? && IsDefinitiveFailure(result) ==>
            id in v.workers && v.workers[id] == Worker(worker.message, worker.round, worker.failures + [result.isRetryable], Ready))
      && (!(f.Finalized? && IsDefinitiveFailure(result)) ==> id !in v.workers)
  {
    FinalizeAlternatives(cfg, w, id);
  }

  /** The worker has taken the turn of its next provider. */
  ghost predicate TookTurn(cfg: Config, w: World, v: World, id: WorkerId, after: Db, turn: Turn)
    requires id in w.workers
  {
    var worker := w.workers[id];
    && v.db == after
    && |v.calls| == |w.calls| + (if turn.Ended? then turn.calls - |worker.failures| else 1)
    && (turn.Ended? ==> id !in v.workers)
    && (turn.FailedTurn? ==>
          id in v.workers && v.workers[id] == Worker(worker.message, worker.round, worker.failures + [turn.isRetryable], Ready))
  }

  lemma TurnOfWorker(cfg: Config, w: World, id: WorkerId, answer: nat -> SendResult) returns (v: World)
    requires id in w.workers && InPass(cfg, w, id) && w.workers[id].phase.Ready? && |w.workers[id].failures| < |cfg.providers|
    ensures InPass(cfg, v, id) && RunAlone(cfg, w, id, answer) == RunAlone(cfg, v, id, answer)
    ensures var k := |w.workers[id].failures|;
      var (after, turn) := TakeTurn(cfg, w.db, w.workers[id].message, k, answer(k), Calm);
      TookTurn(cfg, w, v, id, after, turn)
  {
    v := StepAlone(cfg, w, id, answer);
    ReserveAlone(cfg, w, id, answer);
    if id in v.workers {
      var called := StepAlone(cfg, v, id, answer);
      CallAlone(cfg, v, id, answer);
      assert RunAlone(cfg, v, id, answer) == RunAlone(cfg, called, id, answer);
      v := StepAlone(cfg, called, id, answer);
      FinalizeAlone(cfg, called, id, answer);
      assert RunAlone(cfg, called, id, answer) == RunAlone(cfg, v, id, answer);
    }
  }

  // --- The decision and the whole pass --------------------------------------------------------------------------

  lemma DecisionOfWorker(cfg: Config, w: World, id: WorkerId, answer: nat -> SendResult)
    requires id in w.workers && InPass(cfg, w, id) && w.workers[id].phase.Ready? && |w.workers[id].failures| == |cfg.providers|
    ensures RunAlone(cfg, w, id, answer).db == DecideRound(cfg, w.db, w.workers[id], Calm).0
    ensures RunAlone(cfg, w, id, answer).calls == w.calls
  {
    var read := StepAlone(cfg, w, id, answer);
    ReadShape(cfg, w, id);
    if id in read.workers {
      var v := StepAlone(cfg, read, id, answer);
      assert id !in v.workers && RunAlone(cfg, v, id, answer) == v;
      assert RunAlone(cfg, read, id, answer) == v;
    }
  }

  lemma {:induction false} PassOfWorker(cfg: Config, w: World, id: WorkerId, answer: nat -> SendResult)
    requires id in w.workers && InPass(cfg, w, id) && w.workers[id].phase.Ready?
    ensures var worker := w.workers[id];
      var p := PassFrom(cfg, w.db, worker.message, worker.round, worker.failures, answer, Calm);
      && RunAlone(cfg, w, id, answer).db == p.db
      && |RunAlone(cfg, w, id, answer).calls| == |w.calls| + p.calls - |worker.failures|
    decreases |cfg.providers| - |w.workers[id].failures|
  {
    var worker := w.workers[id];
    if |worker.failures| == |cfg.providers| {
      DecisionOfWorker(cfg, w, id, answer);
      assert worker == Worker(worker.message, worker.round, worker.failures, Ready);
    } else {
      var v := TurnOfWorker(cfg, w, id, answer);
      if id in v.workers {
        PassOfWorker(cfg, v, id, answer);
      }
    }
  }

  /** From its claim on, a worker of the protocol that is left alone commits what the processor commits for
      the same answers, and calls as many providers. */
  lemma WorkerIsProcessor(cfg: Config, w: World, job: JobId, id: WorkerId, answer: nat -> SendResult)
    requires WorkEnabled(cfg, w, id, Claim(job))
    ensures var claimed := NextClaim(w, job, id);
      var p := Process(cfg, w.db, w.jobs[job].message, AtOnce(), answer, Calm);
      && InPass(cfg, claimed, id)
      && RunAlone(cfg, claimed, id, answer).db == p.db
      && |RunAlone(cfg, claimed, id, answer).calls| == |w.calls| + p.calls
  {
    var claimed := NextClaim(w, job, id);
    if id in claimed.workers {
      PassOfWorker(cfg, claimed, id, answer);
    }
  }
}
