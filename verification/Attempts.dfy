// The attempts table is the truthful log of the provider calls: every row says which provider was called and
// exactly what it answered.
module Attempts {
  import opened StateMachine
  import opened Tables
  import opened Lifecycle
  import opened Retention
  import opened Providers
  import opened Protocol
  import opened Safety
  import opened SafetyTheorems
  import opened WorkerRefinement
  import opened Delivery

  /** The row of an attempt whose provider has not answered yet. */
  function BlankRow(m: MessageId, provider: string): Attempt {
    Attempt(m, provider, Reserved, false, true, None, None)
  }

  /** The row of an attempt whose provider answered `result`. */
  function AnsweredRow(m: MessageId, provider: string, result: SendResult): Attempt {
    if Accepts(result) then
      Attempt(m, provider, Accepted, false, false, result.providerMessageId, None)
    else
      var reason :=
        if result.success then AcceptedWithoutId
        else if result.error.Some? then Free(result.error.value)
        else UnknownProviderError;
      Attempt(m, provider, Failed, !result.success && result.isRetryable, !Refuses(result), None, Some(reason))
  }

  // --- What each step writes ------------------------------------------------------------------------------------

  lemma ReserveWritesAttempt(cfg: Config, w: World, id: WorkerId)
    requires WorkEnabled(cfg, w, id, Reserve)
    ensures var v := NextReserve(cfg, w, id);
      var worker := w.workers[id];
      if HasStatus(w.db, worker.message, Processing) then
        && v.db.attempts == w.db.attempts[w.db.nextAttempt := BlankRow(worker.message, cfg.providers[|worker.failures|])]
        && v.db.nextAttempt == w.db.nextAttempt + 1
        && v.workers == w.workers[id := worker.(phase := InFlight(w.db.nextAttempt))]
      else
        v.db == w.db && v.workers == w.workers - {id}
  {
    ReserveShape(cfg, w, id);
  }

  /** The worker's answer is written to its own attempt, unless someone has moved the message on. */
  lemma AnswerWritesAttempt(db: Db, m: MessageId, a: AttemptId, provider: string, result: SendResult, expiryMs: int)
    requires a in db.attempts && db.attempts[a] == BlankRow(m, provider) && expiryMs > 0
    ensures var after := FinalizeProviderAttempt(db, m, a, AnswerOf(result, expiryMs)).0;
      after.attempts ==
        if HasStatus(db, m, AwaitingProviderResult) || !(Accepts(result) || Refuses(result))
        then db.attempts[a := AnsweredRow(m, provider, result)] else db.attempts
  {
    AcceptsIsSent(result);
  }

  // --- The log ------------------------------------------------------------------------------------------------------

  predicate IsBlank(row: Attempt) {
    row == BlankRow(row.message, row.provider)
  }

  predicate Tells(row: Attempt, call: Call) {
    row == AnsweredRow(call.message, row.provider, call.result)
  }

  /** An attempt without an answer is blank, and one that was called is blank or tells its call. */
  ghost predicate RowsTell(w: World) {
    && (forall a :: a in w.db.attempts ==> w.db.attempts[a].outcome == Reserved ==> IsBlank(w.db.attempts[a]))
    && (forall i :: 0 <= i < |w.calls| && w.calls[i].attempt in w.db.attempts ==>
          IsBlank(w.db.attempts[w.calls[i].attempt]) || Tells(w.db.attempts[w.calls[i].attempt], w.calls[i]))
  }

  /** A calling worker calls the provider after the ones that have failed it. */
  ghost predicate CallsInOrder(cfg: Config, w: World) {
    forall id :: id in w.workers && w.workers[id].Held().Some? && w.workers[id].Held().value in w.db.attempts ==>
      && |w.workers[id].failures| < |cfg.providers|
      && w.db.attempts[w.workers[id].Held().value].provider == cfg.providers[|w.workers[id].failures|]
  }

  ghost predicate Logged(cfg: Config, w: World) {
    RowsTell(w) && CallsInOrder(cfg, w)
  }

  /** Steps that make no call and leave every surviving attempt as it is. */
  lemma QuietKeepsLog(cfg: Config, w: World, v: World)
    requires Logged(cfg, w) && v.calls == w.calls
    requires forall a :: a in v.db.attempts ==> a in w.db.attempts && v.db.attempts[a] == w.db.attempts[a]
    requires forall id :: id in v.workers && v.workers[id].Held().Some? ==>
      id in w.workers && v.workers[id].Held() == w.workers[id].Held() && v.workers[id].failures == w.workers[id].failures
    ensures Logged(cfg, v)
  {
  }

  lemma ReserveKeepsLog(cfg: Config, w: World, id: WorkerId)
    requires Logged(cfg, w) && Safe(w) && WorkEnabled(cfg, w, id, Reserve)
    ensures Logged(cfg, NextReserve(cfg, w, id))
  {
    ReserveWritesAttempt(cfg, w, id);
    var v := NextReserve(cfg, w, id);
    if HasStatus(w.db, w.workers[id].message, Processing) {
      ReservedLog(cfg, w, v, id, w.db.nextAttempt);
    } else {
      QuietKeepsLog(cfg, w, v);
    }
  }

  lemma ReservedLog(cfg: Config, w: World, v: World, id: WorkerId, a: AttemptId)
    requires Logged(cfg, w) && id in w.workers && |w.workers[id].failures| < |cfg.providers| && v.calls == w.calls
    requires forall i :: 0 <= i < |w.calls| ==> w.calls[i].attempt < a
    requires forall other :: other in w.workers && w.workers[other].Held().Some? ==> w.workers[other].Held().value < a
    requires v.db.attempts == w.db.attempts[a := BlankRow(w.workers[id].message, cfg.providers[|w.workers[id].failures|])]
    requires v.workers == w.workers[id := w.workers[id].(phase := InFlight(a))]
    ensures Logged(cfg, v)
  {
  }

  lemma CallKeepsLog(cfg: Config, w: World, id: WorkerId, answer: SendResult, accepted: bool)
    requires Logged(cfg, w) && Safe(w) && WorkEnabled(cfg, w, id, CallProvider(answer, accepted))
    ensures Logged(cfg, NextCall(w, id, answer, accepted))
  {
    var v := NextCall(w, id, answer, accepted);
    var worker := w.workers[id];
    assert HoldsReservation(w.db, worker.message, worker.phase.attempt);
    assert worker.phase.attempt in w.db.attempts ==> IsBlank(w.db.attempts[worker.phase.attempt]);
    forall i | 0 <= i < |v.calls| && v.calls[i].attempt in v.db.attempts
      ensures IsBlank(v.db.attempts[v.calls[i].attempt]) || Tells(v.db.attempts[v.calls[i].attempt], v.calls[i])
    {
      assert i < |w.calls| ==> v.calls[i] == w.calls[i];
    }
  }

  lemma FinalizeKeepsLog(cfg: Config, w: World, id: WorkerId)
    requires Logged(cfg, w) && Safe(w) && WorkEnabled(cfg, w, id, Finalize) && cfg.expiryMs > 0
    ensures Logged(cfg, NextFinalize(cfg, w, id))
  {
    var v := NextFinalize(cfg, w, id);
    var worker := w.workers[id];
    var a := worker.phase.answered;
    FinalizeAlternatives(cfg, w, id);
    assert HoldsReservation(w.db, worker.message, a);
    if a in w.db.attempts {
      AnswerWritesCall(cfg, w, id);
      AnsweredLog(cfg, w, v, worker.phase.call);
    } else {
      QuietKeepsLog(cfg, w, v);
    }
  }

  lemma AnswerWritesCall(cfg: Config, w: World, id: WorkerId)
    requires RowsTell(w) && Safe(w) && WorkEnabled(cfg, w, id, Finalize) && cfg.expiryMs > 0
    requires w.workers[id].phase.answered in w.db.attempts
    ensures var a := w.workers[id].phase.answered;
      var call := w.workers[id].phase.call;
      var after := NextFinalize(cfg, w, id).db.attempts;
      && call < |w.calls| && w.calls[call].attempt == a
      && (after == w.db.attempts ||
          after == w.db.attempts[a := AnsweredRow(w.calls[call].message, w.db.attempts[a].provider, w.calls[call].result)])
  {
    var worker := w.workers[id];
    var a := worker.phase.answered;
    assert worker.Held() == Some(a) && HoldsReservation(w.db, worker.message, a);
    AnswerWritesAttempt(w.db, worker.message, a, w.db.attempts[a].provider, worker.phase.result, cfg.expiryMs);
  }

  lemma AnsweredLog(cfg: Config, w: World, v: World, call: nat)
    requires Logged(cfg, w) && call < |w.calls| && v.calls == w.calls && w.calls[call].attempt in w.db.attempts
    requires forall i, j :: 0 <= i < j < |w.calls| ==> w.calls[i].attempt != w.calls[j].attempt
    requires var a := w.calls[call].attempt;
      || v.db.attempts == w.db.attempts
      || v.db.attempts == w.db.attempts[a := AnsweredRow(w.calls[call].message, w.db.attempts[a].provider, w.calls[call].result)]
    requires forall id :: id in v.workers && v.workers[id].Held().Some? ==>
      id in w.workers && v.workers[id].Held() == w.workers[id].Held() && v.workers[id].failures == w.workers[id].failures
    ensures Logged(cfg, v)
  {
    forall i | 0 <= i < |v.calls| && v.calls[i].attempt in v.db.attempts
      ensures IsBlank(v.db.attempts[v.calls[i].attempt]) || Tells(v.db.attempts[v.calls[i].attempt], v.calls[i])
    {
      if i < call {
        assert w.calls[i].attempt != w.calls[call].attempt;
      } else if i > call {
        assert w.calls[call].attempt != w.calls[i].attempt;
      }
    }
  }

  lemma WorkKeepsLog(cfg: Config, w: World, id: WorkerId, step: WorkerStep)
    requires Logged(cfg, w) && Safe(w) && WorkEnabled(cfg, w, id, step) && cfg.expiryMs > 0
    ensures Logged(cfg, NextWork(cfg, w, id, step))
  {
    match step
    case Reserve => ReserveKeepsLog(cfg, w, id);
    case CallProvider(answer, accepted) => CallKeepsLog(cfg, w, id, answer, accepted);
    case Finalize => FinalizeKeepsLog(cfg, w, id);
    case _ => QuietWorkKeepsLog(cfg, w, id, step);
  }

  lemma QuietWorkKeepsLog(cfg: Config, w: World, id: WorkerId, step: WorkerStep)
    requires Logged(cfg, w) && WorkEnabled(cfg, w, id, step) && !step.Reserve? && !step.CallProvider? && !step.Finalize?
    ensures Logged(cfg, NextWork(cfg, w, id, step))
  {
    if step.ReadForDecision? {
      ReadShape(cfg, w, id);
    }
    QuietKeepsLog(cfg, w, NextWork(cfg, w, id, step));
  }

  lemma NextKeepsLog(cfg: Config, w: World, act: Action)
    requires Logged(cfg, w) && Safe(w) && Enabled(cfg, w, act) && cfg.expiryMs > 0
    ensures Logged(cfg, Next(cfg, w, act))
  {
    match act
    case Work(id, step) => WorkKeepsLog(cfg, w, id, step);
    case Operate(step) =>
      OperateSameCallers(w, step);
      QuietKeepsLog(cfg, w, Next(cfg, w, act));
    case PurgeBatch(ids, now) =>
      PurgeIsExact(w.db, ids);
      QuietKeepsLog(cfg, w, Next(cfg, w, act));
    case _ => QuietKeepsLog(cfg, w, Next(cfg, w, act));
  }

  lemma {:induction false} RunKeepsLog(cfg: Config, w: World, acts: seq<Action>)
    requires Logged(cfg, w) && Safe(w) && IsRun(cfg, w, acts) && cfg.expiryMs > 0
    ensures Logged(cfg, After(cfg, w, acts))
    decreases |acts|
  {
    if acts != [] {
      NextKeepsSafe(cfg, w, acts[0]);
      NextKeepsLog(cfg, w, acts[0]);
      RunKeepsLog(cfg, Next(cfg, w, acts[0]), acts[1..]);
    }
  }

  /** In every reachable state the row of a provider call, if it is not purged, waits for its answer or tells
      exactly what was answered. */
  lemma AttemptsTellCalls(cfg: Config, clock: Time, acts: seq<Action>, i: nat)
    requires cfg.expiryMs > 0 && IsRun(cfg, Init(clock), acts) && i < |After(cfg, Init(clock), acts).calls|
    requires After(cfg, Init(clock), acts).calls[i].attempt in After(cfg, Init(clock), acts).db.attempts
    ensures var w := After(cfg, Init(clock), acts);
      var call := w.calls[i];
      var row := w.db.attempts[call.attempt];
      row == BlankRow(call.message, row.provider) || row == AnsweredRow(call.message, row.provider, call.result)
  {
    InitIsSafe(clock);
    RunKeepsSafe(cfg, Init(clock), acts);
    RunKeepsLog(cfg, Init(clock), acts);
    LoggedRow(cfg, After(cfg, Init(clock), acts), i);
  }

  lemma LoggedRow(cfg: Config, w: World, i: nat)
    requires Logged(cfg, w) && Safe(w) && i < |w.calls| && w.calls[i].attempt in w.db.attempts
    ensures var row := w.db.attempts[w.calls[i].attempt];
      row == BlankRow(w.calls[i].message, row.provider) || row == AnsweredRow(w.calls[i].message, row.provider, w.calls[i].result)
  {
  }

  /** And a worker with `k` failures behind it is calling provider `k`. */
  lemma WorkersCallInOrder(cfg: Config, clock: Time, acts: seq<Action>, id: WorkerId)
    requires cfg.expiryMs > 0 && IsRun(cfg, Init(clock), acts)
    requires var w := After(cfg, Init(clock), acts);
      id in w.workers && w.workers[id].phase.InFlight? && w.workers[id].phase.attempt in w.db.attempts
    ensures var w := After(cfg, Init(clock), acts);
      var k := |w.workers[id].failures|;
      k < |cfg.providers| && w.db.attempts[w.workers[id].phase.attempt] == BlankRow(w.workers[id].message, cfg.providers[k])
  {
    InitIsSafe(clock);
    RunKeepsSafe(cfg, Init(clock), acts);
    RunKeepsLog(cfg, Init(clock), acts);
    CallingRow(cfg, After(cfg, Init(clock), acts), id);
  }

  lemma CallingRow(cfg: Config, w: World, id: WorkerId)
    requires Logged(cfg, w) && Safe(w) && id in w.workers && w.workers[id].phase.InFlight?
    requires w.workers[id].phase.attempt in w.db.attempts
    ensures var k := |w.workers[id].failures|;
      k < |cfg.providers| && w.db.attempts[w.workers[id].phase.attempt] == BlankRow(w.workers[id].message, cfg.providers[k])
  {
    assert w.workers[id].Held() == Some(w.workers[id].phase.attempt);
    assert HoldsReservation(w.db, w.workers[id].message, w.workers[id].phase.attempt);
  }
}
