// No possible duplicate send: in every run, every provider call of a message but its last one was
// cleanly refused.
module Safety {
  import opened StateMachine
  import opened Tables
  import opened Lifecycle
  import opened LifecycleInvariant
  import opened Retention
  import opened Providers
  import opened Protocol

  // --- The invariant ---------------------------------------------------------------------------

  /** Every message ever mentioned is in the ledger, so its id is never issued again. */
  ghost predicate Known(w: World) {
    && (forall m :: m in w.db.messages ==> m in w.ledger)
    && (forall i :: 0 <= i < |w.calls| ==> w.calls[i].message in w.ledger)
    && (forall id :: id in w.workers ==> w.workers[id].message in w.ledger)
  }

  /** A calling worker holds its own reservation, alone among the workers of its message. */
  ghost predicate Reservations(w: World) {
    forall id :: id in w.workers && w.workers[id].Held().Some? ==>
      HoldsReservation(w.db, w.workers[id].message, w.workers[id].Held().value)
  }

  predicate HoldsReservation(db: Db, m: MessageId, a: AttemptId) {
    && a < db.nextAttempt
    && (m in db.messages ==> a in db.attempts)
    && (a in db.attempts ==> IsReservedFor(db, m, a))
  }

  ghost predicate OneCallerPerMessage(w: World) {
    forall i, j :: i in w.workers && j in w.workers && w.workers[i].Held().Some? && w.workers[j].Held().Some? ==>
      (w.workers[i].message == w.workers[j].message || w.workers[i].Held() == w.workers[j].Held() ==> i == j)
  }

  /** Each attempt has at most one call, recorded against its own message. */
  ghost predicate CallRows(w: World) {
    && (forall i :: 0 <= i < |w.calls| ==>
          && w.calls[i].attempt < w.db.nextAttempt
          && (w.calls[i].message in w.db.messages ==> w.calls[i].attempt in w.db.attempts)
          && (w.calls[i].attempt in w.db.attempts ==>
                w.db.attempts[w.calls[i].attempt].message == w.calls[i].message))
    && (forall i, j :: 0 <= i < j < |w.calls| ==> w.calls[i].attempt != w.calls[j].attempt)
  }

  /** An attempt row says "definitive failure" only when its call was cleanly refused. */
  ghost predicate FailedRowsWereRefused(w: World) {
    forall i :: 0 <= i < |w.calls| && w.calls[i].attempt in w.db.attempts ==>
      (w.db.attempts[w.calls[i].attempt].Definitive() ==> IsDefinitiveFailure(w.calls[i].result))
  }

  /** Before a call is made, nothing was called for its attempt and all calls of its message were refused. */
  ghost predicate InFlightIsFirst(w: World) {
    forall id, i :: id in w.workers && w.workers[id].phase.InFlight? && 0 <= i < |w.calls| ==>
      && w.calls[i].attempt != w.workers[id].phase.attempt
      && (w.calls[i].message == w.workers[id].message ==> IsDefinitiveFailure(w.calls[i].result))
  }

  /** After a call, the worker still holds the answer that was logged. */
  ghost predicate AnsweredIsLogged(w: World) {
    forall id :: id in w.workers && w.workers[id].phase.Answered? ==>
      var phase := w.workers[id].phase;
      && phase.call < |w.calls|
      && w.calls[phase.call].message == w.workers[id].message
      && w.calls[phase.call].attempt == phase.answered
      && w.calls[phase.call].result == phase.result
  }

  /** Of two calls of one message, the earlier was cleanly refused; a refused call was not accepted. */
  ghost predicate OnlyLastCallInDoubt(w: World) {
    && (forall i, j :: 0 <= i < j < |w.calls| ==>
          (w.calls[i].message == w.calls[j].message ==> IsDefinitiveFailure(w.calls[i].result)))
    && (forall i :: 0 <= i < |w.calls| ==> (IsDefinitiveFailure(w.calls[i].result) ==> !w.calls[i].accepted))
  }

  /** Of two calls of one message, the answer of the earlier was recorded as a definitive failure: a call
      that was never finalized is not followed by another. */
  ghost predicate EarlierCallsRecorded(w: World) {
    forall i, j :: 0 <= i < j < |w.calls| && w.calls[i].message == w.calls[j].message ==>
      IsRecordedFailure(w.db, w.calls[i].attempt)
  }

  /** The attempt's row, unless it was purged, says "definitive failure". */
  predicate IsRecordedFailure(db: Db, a: AttemptId) {
    a in db.attempts ==> db.attempts[a].Definitive()
  }

  /** What an operator or webhook transaction has read stays true of what it may commit. */
  ghost predicate OpsAreSound(w: World) {
    forall op :: op in w.ops ==>
      match w.ops[op]
      case ReportOp(_, seen, terminal) => seen == Sent && IsDeliveryTerminal(terminal)
      case ResolveOp(m, a, input) =>
        && a < w.db.nextAttempt && IsValidResolution(input)
        && (a in w.db.attempts ==> w.db.attempts[a].message == m && w.db.attempts[a].provider == "twilio")
      case PermanentOp(_, seen, to, error) => IsValidTransition(seen, to) && PatchFits(to, PermanentPatch(error))
  }

  ghost predicate DecidersAreSound(w: World) {
    forall id :: id in w.workers && w.workers[id].phase.Deciding? ==> w.workers[id].phase.seen == Processing
  }

  ghost predicate CallsSafe(w: World) {
    && Known(w)
    && Reservations(w)
    && OneCallerPerMessage(w)
    && CallRows(w)
    && FailedRowsWereRefused(w)
    && InFlightIsFirst(w)
    && AnsweredIsLogged(w)
    && OnlyLastCallInDoubt(w)
    && EarlierCallsRecorded(w)
  }

  ghost predicate Safe(w: World) {
    ValidDb(w.db) && CallsSafe(w) && OpsAreSound(w) && DecidersAreSound(w)
  }

  // --- Steps that make no call and touch no attempt row ------------------------------------------

  /** `v` follows `w` without a provider call, with the same attempt rows, and with no new reservation. */
  ghost predicate QuietForCalls(w: World, v: World) {
    && v.calls == w.calls
    && v.db.attempts == w.db.attempts
    && v.db.nextAttempt == w.db.nextAttempt
    && (forall m :: m in v.db.messages && m !in w.db.messages ==> m !in w.ledger)
    && (forall m :: m in w.ledger || m in v.db.messages ==> m in v.ledger)
    && (forall id :: id in v.workers ==>
          || (id in w.workers && v.workers[id] == w.workers[id])
          || (v.workers[id].Held().None? && v.workers[id].message in v.ledger))
  }

  lemma QuietKeepsCallsSafe(w: World, v: World)
    requires CallsSafe(w) && QuietForCalls(w, v)
    ensures CallsSafe(v)
  {
    QuietKeepsReservations(w, v);
    forall i | 0 <= i < |v.calls|
      ensures v.calls[i].message in v.db.messages ==> v.calls[i].attempt in v.db.attempts
    {
      assert w.calls[i].message in w.ledger;
    }
    RowsKeepRecords(w, v);
  }

  lemma QuietKeepsReservations(w: World, v: World)
    requires Known(w) && Reservations(w) && QuietForCalls(w, v)
    ensures Reservations(v)
  {
    forall id | id in v.workers && v.workers[id].Held().Some?
      ensures HoldsReservation(v.db, v.workers[id].message, v.workers[id].Held().value)
    {
      assert v.workers[id] == w.workers[id];
      var m := w.workers[id].message;
      assert m in w.ledger;
      assert HoldsReservation(w.db, m, w.workers[id].Held().value);
    }
  }

  /** Rows that stay, or go, keep what they recorded. */
  lemma RowsKeepRecords(w: World, v: World)
    requires EarlierCallsRecorded(w) && v.calls == w.calls
    requires forall i, j :: 0 <= i < j < |w.calls| && w.calls[i].message == w.calls[j].message ==>
      (IsRecordedFailure(w.db, w.calls[i].attempt) ==> IsRecordedFailure(v.db, w.calls[i].attempt))
    ensures EarlierCallsRecorded(v)
  {
    forall i, j | 0 <= i < j < |v.calls| && v.calls[i].message == v.calls[j].message
      ensures IsRecordedFailure(v.db, v.calls[i].attempt)
    {
      assert IsRecordedFailure(w.db, w.calls[i].attempt);
    }
  }

  /** The common case: only rows of existing messages, jobs, events or history change. */
  ghost predicate SameCallers(w: World, v: World) {
    && v.calls == w.calls
    && v.workers == w.workers
    && v.db.attempts == w.db.attempts
    && v.db.nextAttempt == w.db.nextAttempt
    && (forall m :: m in v.db.messages <==> m in w.db.messages)
    && (forall m :: m in w.ledger ==> m in v.ledger)
  }

  lemma SameCallersKeepCallsSafe(w: World, v: World)
    requires CallsSafe(w) && SameCallers(w, v)
    ensures CallsSafe(v)
  {
    QuietKeepsCallsSafe(w, v);
  }

  // --- Reservation, call, result, purge -----------------------------------------------------------

  /** An open message has only failed attempts, so no worker holds a reservation of it. */
  lemma OpenHasNoCaller(w: World, m: MessageId)
    requires ValidDb(w.db) && Reservations(w) && m in w.db.messages && IsOpen(w.db.messages[m].status)
    ensures forall id :: id in w.workers && w.workers[id].message == m ==> w.workers[id].Held().None?
  {
    forall id | id in w.workers && w.workers[id].message == m
      ensures w.workers[id].Held().None?
    {
      assert w.workers[id].Held().Some? ==> HoldsReservation(w.db, m, w.workers[id].Held().value);
    }
  }

  /** Every earlier call of an open message was cleanly refused. */
  lemma OpenHasOnlyRefusedCalls(w: World, m: MessageId)
    requires ValidDb(w.db) && CallRows(w) && FailedRowsWereRefused(w)
    requires m in w.db.messages && IsOpen(w.db.messages[m].status)
    ensures forall i :: 0 <= i < |w.calls| && w.calls[i].message == m ==> IsDefinitiveFailure(w.calls[i].result)
  {
    forall i | 0 <= i < |w.calls| && w.calls[i].message == m
      ensures IsDefinitiveFailure(w.calls[i].result)
    {
      assert w.calls[i].attempt in w.db.attempts;
      assert w.db.attempts[w.calls[i].attempt].Definitive();
    }
  }

  lemma ReserveKeepsCallsSafe(cfg: Config, w: World, id: WorkerId)
    requires Safe(w) && WorkEnabled(cfg, w, id, Reserve)
    ensures CallsSafe(NextReserve(cfg, w, id))
  {
    var v := NextReserve(cfg, w, id);
    var m := w.workers[id].message;
    if HasStatus(w.db, m, Processing) {
      OpenHasNoCaller(w, m);
      OpenHasOnlyRefusedCalls(w, m);
      ReserveStep(w, v, id, w.db.nextAttempt);
    } else {
      QuietKeepsCallsSafe(w, v);
    }
  }

  lemma ReserveStep(w: World, v: World, id: WorkerId, a: AttemptId)
    requires CallsSafe(w) && ForeignKeys(w.db) && id in w.workers
    requires a == w.db.nextAttempt && v.calls == w.calls && v.ledger == w.ledger
    requires v.workers == w.workers[id := w.workers[id].(phase := InFlight(a))]
    requires (forall b :: b in v.db.attempts <==> b in w.db.attempts || b == a) && v.db.nextAttempt == a + 1
    requires forall b :: b in w.db.attempts ==> v.db.attempts[b] == w.db.attempts[b]
    requires forall m :: m in v.db.messages <==> m in w.db.messages
    requires IsReservedFor(v.db, w.workers[id].message, a)
    requires forall other :: other in w.workers && w.workers[other].message == w.workers[id].message ==> w.workers[other].Held().None?
    requires forall i :: 0 <= i < |w.calls| && w.calls[i].message == w.workers[id].message ==> IsDefinitiveFailure(w.calls[i].result)
    ensures CallsSafe(v)
  {
    ReserveReservations(w, v, id, a);
    ReserveRows(w, v, a);
    RowsKeepRecords(w, v);
    assert Known(v) && InFlightIsFirst(v) && AnsweredIsLogged(v) && OnlyLastCallInDoubt(v);
  }

  /** The new reservation is held by its worker alone. */
  lemma ReserveReservations(w: World, v: World, id: WorkerId, a: AttemptId)
    requires Reservations(w) && OneCallerPerMessage(w) && id in w.workers && a == w.db.nextAttempt
    requires v.workers == w.workers[id := w.workers[id].(phase := InFlight(a))]
    requires (forall b :: b in v.db.attempts <==> b in w.db.attempts || b == a) && v.db.nextAttempt == a + 1
    requires forall b :: b in w.db.attempts ==> v.db.attempts[b] == w.db.attempts[b]
    requires forall m :: m in v.db.messages <==> m in w.db.messages
    requires IsReservedFor(v.db, w.workers[id].message, a)
    requires forall other :: other in w.workers && w.workers[other].message == w.workers[id].message ==> w.workers[other].Held().None?
    requires ForeignKeys(w.db)
    ensures Reservations(v) && OneCallerPerMessage(v)
  {
    forall other | other in v.workers && v.workers[other].Held().Some?
      ensures HoldsReservation(v.db, v.workers[other].message, v.workers[other].Held().value)
      ensures other != id ==> v.workers[other].Held().value < a
    {
      if other != id {
        assert HoldsReservation(w.db, w.workers[other].message, w.workers[other].Held().value);
      }
    }
  }

  lemma ReserveRows(w: World, v: World, a: AttemptId)
    requires CallRows(w) && FailedRowsWereRefused(w) && v.calls == w.calls && a == w.db.nextAttempt && v.db.nextAttempt == a + 1
    requires forall b :: b in v.db.attempts <==> b in w.db.attempts || b == a
    requires forall b :: b in w.db.attempts ==> v.db.attempts[b] == w.db.attempts[b]
    requires forall m :: m in v.db.messages <==> m in w.db.messages
    ensures CallRows(v) && FailedRowsWereRefused(v)
  {
  }

  lemma CallKeepsCallsSafe(cfg: Config, w: World, id: WorkerId, answer: SendResult, accepted: bool)
    requires Safe(w) && WorkEnabled(cfg, w, id, CallProvider(answer, accepted))
    ensures CallsSafe(NextCall(w, id, answer, accepted))
  {
    var v := NextCall(w, id, answer, accepted);
    var worker := w.workers[id];
    assert HoldsReservation(w.db, worker.message, worker.phase.attempt);
    OlderRowsFailed(w, id);
    CallStep(w, v, id);
  }

  /** While the worker's reservation is in doubt, every other attempt of its message has failed for good. */
  lemma OlderRowsFailed(w: World, id: WorkerId)
    requires ValidDb(w.db) && CallRows(w) && InFlightIsFirst(w) && id in w.workers && w.workers[id].phase.InFlight?
    requires HoldsReservation(w.db, w.workers[id].message, w.workers[id].phase.attempt)
    ensures forall i :: 0 <= i < |w.calls| && w.calls[i].message == w.workers[id].message ==>
      IsRecordedFailure(w.db, w.calls[i].attempt)
  {
    var m, a := w.workers[id].message, w.workers[id].phase.attempt;
    forall i | 0 <= i < |w.calls| && w.calls[i].message == m && w.calls[i].attempt in w.db.attempts
      ensures w.db.attempts[w.calls[i].attempt].Definitive()
    {
      var b := w.calls[i].attempt;
      assert w.db.attempts[b].message == m && b != a;
      assert m in w.db.messages && a in w.db.attempts;
      OthersFailed(w.db, a, b);
    }
  }

  /** `v` logs one call by the in-flight worker `id`, which now holds the answer. */
  ghost predicate LogsCall(w: World, v: World, id: WorkerId) {
    && id in w.workers && w.workers[id].phase.InFlight?
    && v.db == w.db && v.ledger == w.ledger
    && |v.calls| == |w.calls| + 1
    && (forall i :: 0 <= i < |w.calls| ==> v.calls[i] == w.calls[i])
    && var c := v.calls[|w.calls|];
      && c.message == w.workers[id].message && c.attempt == w.workers[id].phase.attempt
      && (IsDefinitiveFailure(c.result) ==> !c.accepted)
      && v.workers == w.workers[id := w.workers[id].(phase := Answered(c.attempt, c.result, |w.calls|))]
  }

  lemma CallStepReservations(w: World, v: World, id: WorkerId)
    requires LogsCall(w, v, id) && Reservations(w) && OneCallerPerMessage(w)
    ensures Reservations(v) && OneCallerPerMessage(v)
    ensures forall other :: other in v.workers && v.workers[other].phase.InFlight? ==>
      && other in w.workers && v.workers[other] == w.workers[other]
      && w.workers[other].message != w.workers[id].message
      && w.workers[other].phase.attempt != w.workers[id].phase.attempt
  {
    forall other | other in v.workers && v.workers[other].Held().Some?
      ensures HoldsReservation(v.db, v.workers[other].message, v.workers[other].Held().value)
    {
      assert v.workers[other].Held() == w.workers[other].Held();
      assert HoldsReservation(w.db, w.workers[other].message, w.workers[other].Held().value);
    }
    assert w.workers[id].Held().Some?;
  }

  lemma CallStepRows(w: World, v: World, id: WorkerId)
    requires LogsCall(w, v, id)
    requires HoldsReservation(w.db, w.workers[id].message, w.workers[id].phase.attempt)
    requires CallRows(w) && FailedRowsWereRefused(w) && InFlightIsFirst(w) && OnlyLastCallInDoubt(w)
    ensures CallRows(v) && FailedRowsWereRefused(v) && OnlyLastCallInDoubt(v)
  {
  }

  lemma CallStepRecords(w: World, v: World, id: WorkerId)
    requires LogsCall(w, v, id) && EarlierCallsRecorded(w)
    requires forall i :: 0 <= i < |w.calls| && w.calls[i].message == w.workers[id].message ==>
      IsRecordedFailure(w.db, w.calls[i].attempt)
    ensures EarlierCallsRecorded(v)
  {
    forall i, j | 0 <= i < j < |v.calls| && v.calls[i].message == v.calls[j].message
      ensures IsRecordedFailure(v.db, v.calls[i].attempt)
    {
      assert v.calls[i] == w.calls[i];
      if j < |w.calls| {
        assert IsRecordedFailure(w.db, w.calls[i].attempt);
      }
    }
  }

  lemma CallStep(w: World, v: World, id: WorkerId)
    requires CallsSafe(w) && LogsCall(w, v, id)
    requires HoldsReservation(w.db, w.workers[id].message, w.workers[id].phase.attempt)
    requires forall i :: 0 <= i < |w.calls| && w.calls[i].message == w.workers[id].message ==>
      IsRecordedFailure(w.db, w.calls[i].attempt)
    ensures CallsSafe(v)
  {
    CallStepReservations(w, v, id);
    CallStepRows(w, v, id);
    CallStepRecords(w, v, id);
    CallStepPhases(w, v, id);
  }

  lemma CallStepPhases(w: World, v: World, id: WorkerId)
    requires LogsCall(w, v, id) && Known(w) && InFlightIsFirst(w) && AnsweredIsLogged(w)
    requires forall other :: other in v.workers && v.workers[other].phase.InFlight? ==>
      && other in w.workers && v.workers[other] == w.workers[other]
      && w.workers[other].message != w.workers[id].message
      && w.workers[other].phase.attempt != w.workers[id].phase.attempt
    ensures Known(v) && InFlightIsFirst(v) && AnsweredIsLogged(v)
  {
    assert w.workers[id].message in w.ledger;
  }

  /** A finalization records its answer on the one reserved row, or changes nothing at all. */
  lemma FinalizeEffect(db: Db, m: MessageId, a: AttemptId, input: FinalizeInput)
    ensures var (after, r) := FinalizeProviderAttempt(db, m, a, input);
      if r.Finalized? then
        && IsReservedFor(db, m, a)
        && after.attempts == db.attempts[a := RecordOutcome(db.attempts[a], input)]
        && (forall n :: n in after.messages <==> n in db.messages)
        && after.nextAttempt == db.nextAttempt
      else
        after == db
  {
  }

  /** The worker of a finalization is done, or goes on to its next provider; nothing else changes. */
  lemma FinalizeShape(cfg: Config, w: World, id: WorkerId)
    requires WorkEnabled(cfg, w, id, Finalize)
    ensures var v := NextFinalize(cfg, w, id);
      && v.db == FinalizeProviderAttempt(w.db, w.workers[id].message, w.workers[id].phase.answered,
                                         AnswerOf(w.workers[id].phase.result, cfg.expiryMs)).0
      && v.ledger == w.ledger && v.calls == w.calls
      && (forall other :: other in v.workers && other != id ==> other in w.workers && v.workers[other] == w.workers[other])
      && (id in v.workers ==> v.workers[id].phase == Ready && v.workers[id].message == w.workers[id].message)
  {
  }

  lemma FinalizeKeepsCallsSafe(cfg: Config, w: World, id: WorkerId)
    requires Safe(w) && WorkEnabled(cfg, w, id, Finalize)
    ensures CallsSafe(NextFinalize(cfg, w, id))
  {
    var v := NextFinalize(cfg, w, id);
    var worker := w.workers[id];
    FinalizeShape(cfg, w, id);
    FinalizeCases(w, v, id, cfg.expiryMs);
  }

  lemma FinalizeCases(w: World, v: World, id: WorkerId, expiryMs: int)
    requires CallsSafe(w) && id in w.workers && w.workers[id].phase.Answered?
    requires v.db == FinalizeProviderAttempt(w.db, w.workers[id].message, w.workers[id].phase.answered,
                                             AnswerOf(w.workers[id].phase.result, expiryMs)).0
    requires v.ledger == w.ledger && v.calls == w.calls
    requires forall other :: other in v.workers && other != id ==> other in w.workers && v.workers[other] == w.workers[other]
    requires id in v.workers ==> v.workers[id].phase == Ready && v.workers[id].message == w.workers[id].message
    ensures CallsSafe(v)
  {
    var worker := w.workers[id];
    var a := worker.phase.answered;
    var input := AnswerOf(worker.phase.result, expiryMs);
    assert HoldsReservation(w.db, worker.message, a);
    FinalizeEffect(w.db, worker.message, a, input);
    if FinalizeProviderAttempt(w.db, worker.message, a, input).1.Finalized? {
      RecordedFailureIsReal(w.db.attempts[a], worker.phase.result, expiryMs);
      FinalizeStep(w, v, id, a);
    } else {
      QuietKeepsCallsSafe(w, v);
    }
  }

  /** The row being finalized records the answer that was logged for its one call. */
  lemma FinalizedRowWasRefused(w: World, v: World, id: WorkerId, a: AttemptId)
    requires CallRows(w) && FailedRowsWereRefused(w) && AnsweredIsLogged(w) && v.calls == w.calls
    requires id in w.workers && w.workers[id].phase.Answered? && a == w.workers[id].phase.answered
    requires a in v.db.attempts && v.db.attempts == w.db.attempts[a := v.db.attempts[a]]
    requires v.db.attempts[a].Definitive() ==> IsDefinitiveFailure(w.workers[id].phase.result)
    ensures FailedRowsWereRefused(v)
  {
    forall i | 0 <= i < |v.calls| && v.calls[i].attempt == a
      ensures v.calls[i].result == w.workers[id].phase.result
    {
      assert w.calls[w.workers[id].phase.call].attempt == a;
    }
  }

  /** The attempt being finalized is still in doubt, so its call is the last of its message. */
  lemma FinalizedCallIsLast(w: World, v: World, id: WorkerId, a: AttemptId)
    requires EarlierCallsRecorded(w) && v.calls == w.calls
    requires a in w.db.attempts && !w.db.attempts[a].Definitive() && a in v.db.attempts
    requires v.db.attempts == w.db.attempts[a := v.db.attempts[a]]
    ensures EarlierCallsRecorded(v)
  {
    RowsKeepRecords(w, v);
  }

  lemma FinalizeKeepsReservations(w: World, v: World, id: WorkerId, a: AttemptId)
    requires Reservations(w) && OneCallerPerMessage(w)
    requires id in w.workers && w.workers[id].phase.Answered? && a == w.workers[id].phase.answered
    requires a in w.db.attempts && a in v.db.attempts
    requires v.db.attempts == w.db.attempts[a := v.db.attempts[a]] && v.db.nextAttempt == w.db.nextAttempt
    requires forall m :: m in v.db.messages <==> m in w.db.messages
    requires forall other :: other in v.workers && other != id ==> other in w.workers && v.workers[other] == w.workers[other]
    requires id in v.workers ==> v.workers[id].phase == Ready
    ensures Reservations(v)
  {
    forall other | other in v.workers && v.workers[other].Held().Some?
      ensures HoldsReservation(v.db, v.workers[other].message, v.workers[other].Held().value)
    {
      assert other != id && w.workers[id].Held().Some?;
      assert HoldsReservation(w.db, w.workers[other].message, w.workers[other].Held().value);
      assert w.workers[other].message != w.workers[id].message;
      assert w.workers[other].Held().value != a;
    }
  }

  lemma FinalizeStep(w: World, v: World, id: WorkerId, a: AttemptId)
    requires CallsSafe(w) && id in w.workers && w.workers[id].phase.Answered? && a == w.workers[id].phase.answered
    requires a in w.db.attempts && a in v.db.attempts && v.db.attempts[a].message == w.db.attempts[a].message
    requires v.db.attempts == w.db.attempts[a := v.db.attempts[a]] && v.db.nextAttempt == w.db.nextAttempt
    requires v.db.attempts[a].Definitive() ==> IsDefinitiveFailure(w.workers[id].phase.result)
    requires (forall m :: m in v.db.messages <==> m in w.db.messages) && v.ledger == w.ledger && v.calls == w.calls
    requires forall other :: other in v.workers && other != id ==> other in w.workers && v.workers[other] == w.workers[other]
    requires id in v.workers ==> v.workers[id].phase == Ready && v.workers[id].message == w.workers[id].message
    ensures CallsSafe(v)
  {
    assert HoldsReservation(w.db, w.workers[id].message, a);
    FinalizeKeepsReservations(w, v, id, a);
    assert Known(v) && CallRows(v) && OneCallerPerMessage(v);
    FinalizedRowWasRefused(w, v, id, a);
    FinalizedCallIsLast(w, v, id, a);
    assert InFlightIsFirst(v) && AnsweredIsLogged(v) && OnlyLastCallInDoubt(v);
  }

  lemma PurgeKeepsCallsSafe(w: World, ids: set<MessageId>, now: Time)
    requires Safe(w)
    ensures CallsSafe(NextPurge(w, ids, now))
  {
    var v := NextPurge(w, ids, now);
    PurgeIsExact(w.db, ids);
    forall id | id in v.workers && v.workers[id].Held().Some?
      ensures HoldsReservation(v.db, v.workers[id].message, v.workers[id].Held().value)
    {
      assert HoldsReservation(w.db, w.workers[id].message, w.workers[id].Held().value);
    }
    forall i | 0 <= i < |v.calls|
      ensures v.calls[i].message in v.db.messages ==> v.calls[i].attempt in v.db.attempts
    {
      assert w.calls[i].message in w.db.messages ==> w.calls[i].attempt in w.db.attempts;
    }
    RowsKeepRecords(w, v);
  }
}
