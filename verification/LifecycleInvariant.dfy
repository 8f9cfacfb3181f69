// Every lifecycle transaction keeps `ValidDb`, whatever arguments it is called with and
// whatever other transactions committed before its conditional update.
module LifecycleInvariant {
  import opened StateMachine
  import opened Tables
  import opened Lifecycle

  /** `after` differs from `before` in message `m`'s row and in freshly appended outbox events of `m`. */
  ghost predicate RowMove(before: Db, after: Db, m: MessageId, row: Message) {
    && m in before.messages
    && after.messages == before.messages[m := row]
    && after.attempts == before.attempts
    && after.resolutions == before.resolutions
    && after.keys == before.keys
    && after.nextAttempt == before.nextAttempt
    && after.nextEvent >= before.nextEvent
    && (forall e :: e in before.outbox ==> e in after.outbox && after.outbox[e] == before.outbox[e])
    && (forall e :: e in after.outbox && e !in before.outbox ==>
          before.nextEvent <= e < after.nextEvent && after.outbox[e].aggregateId == m)
  }

  /** The row changes a table move may make to the columns that `ValidDb` speaks of. */
  predicate SafeRowChange(was: Message, now: Message) {
    || now == was
    || StaysOpen(was, now)
    || ReportedOutcome(was, now)
    || (was.status == AwaitingProviderResult && now.status == Sent && now.providerMessageId.Some?)
  }

  predicate StaysOpen(was: Message, now: Message) {
    IsOpen(was.status) && IsOpen(now.status) && now.providerMessageId == was.providerMessageId
  }

  predicate ReportedOutcome(was: Message, now: Message) {
    && !IsTerminal(was.status)
    && IsSettled(now.status) && now.status != Sent
    && now.providerMessageId == was.providerMessageId
  }

  lemma RowMoveKeepsForeignKeys(before: Db, after: Db, m: MessageId, row: Message)
    requires ForeignKeys(before) && RowMove(before, after, m, row)
    ensures ForeignKeys(after)
  {
    forall e | e in after.outbox
      ensures e < after.nextEvent && after.outbox[e].aggregateId in after.messages
    {
      if e in before.outbox {
        assert after.outbox[e] == before.outbox[e];
      }
    }
  }

  lemma SameAttemptsKeepDoubt(before: Db, after: Db)
    requires WaitingHasAttemptInDoubt(before)
    requires forall a :: a in before.attempts ==>
      (a in after.attempts && after.attempts[a].message == before.attempts[a].message)
    requires forall a :: a in before.attempts ==>
      (HasStatus(after, before.attempts[a].message, AwaitingProviderResult) ==>
        (after.attempts[a].Definitive() ==> before.attempts[a].Definitive()))
    requires forall n :: HasStatus(after, n, AwaitingProviderResult) ==> HasStatus(before, n, AwaitingProviderResult)
    ensures WaitingHasAttemptInDoubt(after)
  {
    forall n | HasStatus(after, n, AwaitingProviderResult)
      ensures HasAttemptInDoubt(after, n)
    {
      assert HasStatus(before, n, AwaitingProviderResult);
      var a :| a in before.attempts && before.attempts[a].message == n && !before.attempts[a].Definitive();
      assert a in after.attempts && after.attempts[a].message == n;
    }
  }

  lemma RowMoveKeepsAudit(before: Db, after: Db, m: MessageId, row: Message)
    requires ForeignKeys(before) && ForeignKeys(after) && RowMove(before, after, m, row)
    requires SafeRowChange(before.messages[m], row)
    requires AuditAgrees(before)
    ensures AuditAgrees(after)
  {
  }

  lemma RowMoveKeepsOpen(before: Db, after: Db, m: MessageId, row: Message)
    requires ForeignKeys(before) && ForeignKeys(after) && RowMove(before, after, m, row)
    requires SafeRowChange(before.messages[m], row)
    requires OpenMeansAllFailed(before)
    ensures OpenMeansAllFailed(after)
  {
  }

  lemma RowMoveKeepsProviderId(before: Db, after: Db, m: MessageId, row: Message)
    requires RowMove(before, after, m, row) && SafeRowChange(before.messages[m], row)
    requires ProviderIdMeansSettled(before)
    ensures ProviderIdMeansSettled(after)
  {
  }

  lemma SameAttemptRows(before: Db, after: Db)
    requires after.attempts == before.attempts && after.resolutions == before.resolutions
    requires AttemptFlags(before) && OnlyNewestInDoubt(before) && OneAuditPerMessage(before)
    ensures AttemptFlags(after) && OnlyNewestInDoubt(after) && OneAuditPerMessage(after)
  {
  }

  lemma RowMoveKeepsValid(before: Db, after: Db, m: MessageId, row: Message)
    requires ValidDb(before) && RowMove(before, after, m, row)
    requires SafeRowChange(before.messages[m], row)
    ensures ValidDb(after)
  {
    RowMoveKeepsForeignKeys(before, after, m, row);
    SameAttemptsKeepDoubt(before, after);
    RowMoveKeepsAudit(before, after, m, row);
    RowMoveKeepsOpen(before, after, m, row);
    RowMoveKeepsProviderId(before, after, m, row);
    SameAttemptRows(before, after);
  }

  lemma BeginKeepsValid(db: Db, m: MessageId)
    requires ValidDb(db)
    ensures ValidDb(BeginProcessing(db, m).0)
  {
    if m in db.messages && IsStartable(db.messages[m].status) {
      var after := BeginProcessing(db, m).0;
      RowMoveKeepsValid(db, after, m, after.messages[m]);
    }
  }

  lemma RecoverKeepsValid(db: Db, m: MessageId, cutoff: Time)
    requires ValidDb(db)
    ensures ValidDb(RecoverOne(db, m, cutoff).0)
  {
    if IsStale(db, m, cutoff) {
      var after := RecoverOne(db, m, cutoff).0;
      RowMoveKeepsValid(db, after, m, after.messages[m]);
    }
  }

  /** A new reservation is the only attempt in doubt: all older ones had failed definitively. */
  lemma ReserveKeepsAttempts(db: Db, m: MessageId, after: Db, row: Attempt)
    requires ForeignKeys(db) && AttemptFlags(db) && OnlyNewestInDoubt(db) && OpenMeansAllFailed(db)
    requires HasStatus(db, m, Processing)
    requires row.message == m && row.outcome == Reserved && row.isAmbiguous
    requires after.attempts == db.attempts[db.nextAttempt := row]
    ensures AttemptFlags(after) && OnlyNewestInDoubt(after)
  {
  }

  lemma ReserveKeepsDoubt(db: Db, m: MessageId, after: Db, row: Attempt)
    requires ForeignKeys(db) && WaitingHasAttemptInDoubt(db)
    requires row.message == m && row.outcome == Reserved
    requires after.attempts == db.attempts[db.nextAttempt := row]
    requires forall n :: n != m && HasStatus(after, n, AwaitingProviderResult) ==> HasStatus(db, n, AwaitingProviderResult)
    ensures WaitingHasAttemptInDoubt(after)
  {
    assert after.attempts[db.nextAttempt].message == m && !after.attempts[db.nextAttempt].Definitive();
    forall n | HasStatus(after, n, AwaitingProviderResult)
      ensures HasAttemptInDoubt(after, n)
    {
      if n != m {
        assert HasStatus(db, n, AwaitingProviderResult);
        var a :| a in db.attempts && db.attempts[a].message == n && !db.attempts[a].Definitive();
        assert a in after.attempts && after.attempts[a] == db.attempts[a];
      }
    }
  }

  lemma ReserveKeepsRows(db: Db, m: MessageId, after: Db, row: Attempt)
    requires ForeignKeys(db) && OpenMeansAllFailed(db) && ProviderIdMeansSettled(db) && AuditAgrees(db)
    requires HasStatus(db, m, Processing) && row.message == m
    requires after.attempts == db.attempts[db.nextAttempt := row] && after.nextAttempt == db.nextAttempt + 1
    requires after.resolutions == db.resolutions && after.outbox == db.outbox && after.nextEvent == db.nextEvent
    requires after.keys == db.keys && OnlyRowOf(db, after, m)
    requires HasStatus(after, m, AwaitingProviderResult)
    requires after.messages[m].providerMessageId == db.messages[m].providerMessageId
    ensures ForeignKeys(after) && OpenMeansAllFailed(after) && ProviderIdMeansSettled(after) && AuditAgrees(after)
  {
    ReserveKeepsOpen(db, m, after, row);
    ReserveKeepsAudit(db, m, after);
  }

  lemma ReserveKeepsOpen(db: Db, m: MessageId, after: Db, row: Attempt)
    requires ForeignKeys(db) && OpenMeansAllFailed(db) && OnlyRowOf(db, after, m) && HasStatus(after, m, AwaitingProviderResult)
    requires after.attempts == db.attempts[db.nextAttempt := row] && after.nextAttempt == db.nextAttempt + 1
    requires after.resolutions == db.resolutions && after.outbox == db.outbox && after.nextEvent == db.nextEvent
    requires after.keys == db.keys && row.message == m && m in db.messages
    ensures ForeignKeys(after) && OpenMeansAllFailed(after)
  {
  }

  lemma ReserveKeepsAudit(db: Db, m: MessageId, after: Db)
    requires ForeignKeys(db) && ForeignKeys(after) && ProviderIdMeansSettled(db) && AuditAgrees(db)
    requires HasStatus(db, m, Processing) && HasStatus(after, m, AwaitingProviderResult) && OnlyRowOf(db, after, m)
    requires after.resolutions == db.resolutions
    requires after.messages[m].providerMessageId == db.messages[m].providerMessageId
    ensures ProviderIdMeansSettled(after) && AuditAgrees(after)
  {
  }

  lemma ReserveKeepsValid(db: Db, m: MessageId, provider: string)
    requires ValidDb(db)
    ensures ValidDb(ReserveProviderAttempt(db, m, provider).0)
  {
    var (after, r) := ReserveProviderAttempt(db, m, provider);
    if r.ReservedAs? {
      var row := after.attempts[r.attempt];
      ReserveKeepsAttempts(db, m, after, row);
      ReserveKeepsDoubt(db, m, after, row);
      ReserveKeepsRows(db, m, after, row);
    }
  }

  /** While one attempt of a message is in doubt, all its others are definitive failures. */
  lemma OthersFailed(db: Db, a: AttemptId, b: AttemptId)
    requires ValidDb(db) && a in db.attempts && b in db.attempts && a != b
    requires db.attempts[a].message == db.attempts[b].message && !db.attempts[a].Definitive()
    ensures db.attempts[b].Definitive() && b < a
  {
  }

  /** The recorded answer changes one row: the newest of its message, and the only one in doubt. */
  lemma RecordKeepsAttempts(db: Db, m: MessageId, a: AttemptId, row: Attempt, after: Db)
    requires ValidDb(db) && IsReservedFor(db, m, a)
    requires row.message == m && (row.outcome == Failed || (row.outcome == Accepted && !row.isAmbiguous))
    requires after.attempts == db.attempts[a := row]
    ensures AttemptFlags(after) && OnlyNewestInDoubt(after)
    ensures forall b :: b in db.attempts && b != a && db.attempts[b].message == m ==> after.attempts[b].Definitive()
  {
    forall b | b in db.attempts && b != a && db.attempts[b].message == m
      ensures after.attempts[b].Definitive() && b < a
    {
      OthersFailed(db, a, b);
    }
  }

  /** Recording an answer that does not call for a status change. */
  lemma RecordKeepsValid(db: Db, m: MessageId, a: AttemptId, row: Attempt, after: Db)
    requires ValidDb(db) && IsReservedFor(db, m, a)
    requires row.message == m && (row.outcome == Failed || (row.outcome == Accepted && !row.isAmbiguous))
    requires HasStatus(db, m, AwaitingProviderResult) ==> !row.Definitive()
    requires after == db.(attempts := db.attempts[a := row])
    ensures ValidDb(after)
  {
    RecordKeepsAttempts(db, m, a, row, after);
    SameAttemptsKeepDoubt(db, after);
    RecordKeepsRows(db, m, a, row, after);
  }

  lemma RecordKeepsRows(db: Db, m: MessageId, a: AttemptId, row: Attempt, after: Db)
    requires ForeignKeys(db) && OpenMeansAllFailed(db) && ProviderIdMeansSettled(db) && AuditAgrees(db) && OneAuditPerMessage(db)
    requires IsReservedFor(db, m, a) && row.message == m && after == db.(attempts := db.attempts[a := row])
    ensures ForeignKeys(after) && OpenMeansAllFailed(after) && ProviderIdMeansSettled(after)
    ensures AuditAgrees(after) && OneAuditPerMessage(after)
  {
    assert !db.attempts[a].Definitive();
  }

  lemma ReleaseKeepsOpen(db: Db, m: MessageId, a: AttemptId, after: Db)
    requires ForeignKeys(db) && ForeignKeys(after) && OpenMeansAllFailed(db)
    requires a in after.attempts && after.attempts[a].Definitive()
    requires after.attempts == db.attempts[a := after.attempts[a]]
    requires forall b :: b in db.attempts && b != a && db.attempts[b].message == m ==> after.attempts[b].Definitive()
    requires forall n :: n in after.messages && n != m ==> n in db.messages && after.messages[n] == db.messages[n]
    requires after.attempts[a].message == m
    ensures OpenMeansAllFailed(after)
  {
  }

  lemma StillWaitingOrMoved(db: Db, m: MessageId, a: AttemptId, after: Db)
    requires WaitingHasAttemptInDoubt(db) && a in db.attempts && db.attempts[a].message == m
    requires a in after.attempts && after.attempts[a].message == m && after.attempts == db.attempts[a := after.attempts[a]]
    requires !HasStatus(after, m, AwaitingProviderResult)
    requires forall n :: n != m && HasStatus(after, n, AwaitingProviderResult) ==> HasStatus(db, n, AwaitingProviderResult)
    ensures WaitingHasAttemptInDoubt(after)
  {
    SameAttemptsKeepDoubt(db, after);
  }

  /** A definitive failure releases the message: now every attempt has failed. */
  lemma ReleaseKeepsValid(db: Db, m: MessageId, a: AttemptId, row: Attempt, after: Db)
    requires ValidDb(db) && IsReservedFor(db, m, a) && HasStatus(db, m, AwaitingProviderResult)
    requires row.message == m && row.Definitive()
    requires after == PutMessage(db.(attempts := db.attempts[a := row]), m, db.messages[m].(status := Processing))
    ensures ValidDb(after)
  {
    RecordKeepsAttempts(db, m, a, row, after);
    ReleaseKeepsKeys(db, m, a, row, after);
    StillWaitingOrMoved(db, m, a, after);
    ReleaseKeepsOpen(db, m, a, after);
    WaitingHasNoAudit(db, m);
    AuditFrame(db, m, after);
  }

  lemma ReleaseKeepsKeys(db: Db, m: MessageId, a: AttemptId, row: Attempt, after: Db)
    requires ForeignKeys(db) && ProviderIdMeansSettled(db) && IsReservedFor(db, m, a) && HasStatus(db, m, AwaitingProviderResult)
    requires row.message == m
    requires after == PutMessage(db.(attempts := db.attempts[a := row]), m, db.messages[m].(status := Processing))
    ensures ForeignKeys(after) && ProviderIdMeansSettled(after)
  {
  }

  lemma WaitingHasNoAudit(db: Db, m: MessageId)
    requires ForeignKeys(db) && AuditAgrees(db) && HasStatus(db, m, AwaitingProviderResult)
    ensures forall c :: c in db.resolutions ==> db.resolutions[c].message != m
  {
  }

  lemma AuditFrame(db: Db, m: MessageId, after: Db)
    requires ForeignKeys(db) && ForeignKeys(after) && AuditAgrees(db) && OneAuditPerMessage(db)
    requires after.resolutions == db.resolutions
    requires forall c :: c in db.resolutions ==> db.resolutions[c].message != m
    requires forall n :: n in after.messages && n != m ==> n in db.messages && after.messages[n] == db.messages[n]
    ensures AuditAgrees(after) && OneAuditPerMessage(after)
  {
  }

  lemma AcceptKeepsValid(db: Db, m: MessageId, a: AttemptId, sid: string, row: Attempt, after: Db)
    requires ValidDb(db) && IsReservedFor(db, m, a) && HasStatus(db, m, AwaitingProviderResult)
    requires row == RecordOutcome(db.attempts[a], AcceptedWith(sid))
    requires after == PutMessage(db.(attempts := db.attempts[a := row]), m,
                                 db.messages[m].(status := Sent, providerMessageId := Some(sid)))
    ensures ValidDb(after)
  {
    var moved := PutMessage(db, m, db.messages[m].(status := Sent, providerMessageId := Some(sid)));
    RowMoveKeepsValid(db, moved, m, moved.messages[m]);
    RecordKeepsValid(moved, m, a, row, after);
  }

  lemma ParkKeepsValid(db: Db, m: MessageId, a: AttemptId, row: Attempt, expiryMs: int, after: Db)
    requires ValidDb(db) && IsReservedFor(db, m, a)
    requires row.message == m && row.outcome == Failed && row.isAmbiguous
    requires after == AppendEvent(db.(attempts := db.attempts[a := row]), m, AmbiguousExpiryScheduled, DelayedPayload(m, expiryMs))
    ensures ValidDb(after)
  {
    var recorded := db.(attempts := db.attempts[a := row]);
    RecordKeepsValid(db, m, a, row, recorded);
    RowMoveKeepsValid(recorded, after, m, db.messages[m]);
  }

  lemma FinalizeKeepsValid(db: Db, m: MessageId, a: AttemptId, input: FinalizeInput)
    requires ValidDb(db)
    ensures ValidDb(FinalizeProviderAttempt(db, m, a, input).0)
  {
    var (after, r) := FinalizeProviderAttempt(db, m, a, input);
    if r.Finalized? {
      var row := RecordOutcome(db.attempts[a], input);
      match input
      case AcceptedWith(sid) => AcceptKeepsValid(db, m, a, sid, row, after);
      case FailedWith(isAmbiguous, _, _, expiryMs) =>
        if isAmbiguous {
          ParkKeepsValid(db, m, a, row, expiryMs.value, after);
        } else {
          ReleaseKeepsValid(db, m, a, row, after);
        }
    }
  }

  lemma AuditRowAgrees(moved: Db, after: Db, m: MessageId, a: AttemptId, input: ResolveInput)
    requires ForeignKeys(moved) && AuditAgrees(moved) && OneAuditPerMessage(moved)
    requires a in moved.attempts && moved.attempts[a].message == m && m in moved.messages
    requires forall c :: c in moved.resolutions ==> moved.resolutions[c].message != m
    requires moved.messages[m].status == if input.KnownSidIs? then Sent else Undelivered
    requires input.KnownSidIs? ==> moved.messages[m].providerMessageId == Some(input.sid)
    requires after == moved.(resolutions := moved.resolutions[a := AuditRow(m, input)])
    ensures ForeignKeys(after) && AuditAgrees(after) && OneAuditPerMessage(after)
  {
    AuditRowKeepsKeys(moved, after, m, a, input);
    assert input.UndeliveredBy? ==> input.evidence == TwilioUndeliveredConfirmed;
  }

  lemma AuditRowKeepsKeys(moved: Db, after: Db, m: MessageId, a: AttemptId, input: ResolveInput)
    requires ForeignKeys(moved) && OneAuditPerMessage(moved) && a in moved.attempts && moved.attempts[a].message == m
    requires forall c :: c in moved.resolutions ==> moved.resolutions[c].message != m
    requires after == moved.(resolutions := moved.resolutions[a := AuditRow(m, input)])
    ensures ForeignKeys(after) && OneAuditPerMessage(after)
  {
  }

  lemma ResolveCommitKeepsValid(db: Db, m: MessageId, a: AttemptId, input: ResolveInput)
    requires ValidDb(db)
    requires a in db.attempts ==> db.attempts[a].message == m
    ensures ValidDb(ResolveCommit(db, m, a, input).0)
  {
    var (after, r) := ResolveCommit(db, m, a, input);
    if r.Resolved? {
      var moved := PutMessage(db, m, ResolvedMessage(db.messages[m], input));
      RowMoveKeepsValid(db, moved, m, moved.messages[m]);
      WaitingHasNoAudit(db, m);
      AuditKeepsValid(moved, after, m, a, input);
    }
  }

  lemma AuditKeepsValid(moved: Db, after: Db, m: MessageId, a: AttemptId, input: ResolveInput)
    requires ValidDb(moved) && a in moved.attempts && moved.attempts[a].message == m && m in moved.messages
    requires forall c :: c in moved.resolutions ==> moved.resolutions[c].message != m
    requires moved.messages[m].status == if input.KnownSidIs? then Sent else Undelivered
    requires input.KnownSidIs? ==> moved.messages[m].providerMessageId == Some(input.sid)
    requires after == moved.(resolutions := moved.resolutions[a := AuditRow(m, input)])
    ensures ValidDb(after)
  {
    AuditRowAgrees(moved, after, m, a, input);
    SameAttemptsKeepDoubt(moved, after);
  }

  /** A table move to a guarded target changes its row safely. */
  lemma GuardedRowIsSafe(row: Message, to: SmsStatus, patch: Patch, updatedAt: Time)
    requires IsValidTransition(row.status, to) && PatchFits(to, patch)
    ensures SafeRowChange(row, ApplyPatch(row, patch).(status := to, updatedAt := updatedAt))
  {
  }

  lemma GuardedRowMove(db: Db, m: MessageId, seen: SmsStatus, to: SmsStatus, patch: Patch)
    requires ForeignKeys(db) && HasStatus(db, m, seen)
    ensures var after := GuardedCommit(db, m, seen, to, patch).0;
      var row := ApplyPatch(db.messages[m], patch).(status := to, updatedAt := db.clock);
      RowMove(db, after, m, row)
  {
  }

  lemma GuardedCommitKeepsValid(db: Db, m: MessageId, seen: SmsStatus, to: SmsStatus, patch: Patch)
    requires ValidDb(db)
    requires IsValidTransition(seen, to) && PatchFits(to, patch)
    ensures ValidDb(GuardedCommit(db, m, seen, to, patch).0)
  {
    if HasStatus(db, m, seen) {
      GuardedRowIsSafe(db.messages[m], to, patch, db.clock);
      GuardedRowMove(db, m, seen, to, patch);
      RowMoveKeepsValid(db, GuardedCommit(db, m, seen, to, patch).0, m,
                        ApplyPatch(db.messages[m], patch).(status := to, updatedAt := db.clock));
    }
  }

  lemma ExpireKeepsValid(db: Db, m: MessageId)
    requires ValidDb(db)
    ensures ValidDb(ExpireAmbiguousOutcome(db, m).0)
  {
    if HasStatus(db, m, AwaitingProviderResult) {
      var after := ExpireAmbiguousOutcome(db, m).0;
      RowMoveKeepsValid(db, after, m, after.messages[m]);
    }
  }

  lemma RequeueCommitKeepsValid(db: Db, m: MessageId, seen: SmsStatus)
    requires ValidDb(db)
    ensures ValidDb(RequeueCommit(db, m, seen).0)
  {
    if HasStatus(db, m, FatalFailure) {
      var after := RequeueCommit(db, m, seen).0;
      RowMoveKeepsValid(db, after, m, after.messages[m]);
    }
  }

  lemma ReportCommitKeepsValid(db: Db, m: MessageId, seen: SmsStatus, terminal: SmsStatus)
    requires ValidDb(db)
    requires IsValidTransition(seen, terminal) && IsDeliveryTerminal(terminal)
    ensures ValidDb(ReportCommit(db, m, seen, terminal).0)
  {
    if HasStatus(db, m, seen) {
      var after := ReportCommit(db, m, seen, terminal).0;
      RowMoveKeepsValid(db, after, m, after.messages[m]);
    }
  }

  lemma OutboxMarkKeepsValid(db: Db, after: Db, e: EventId, event: OutboxEvent)
    requires ValidDb(db) && e in db.outbox && event.aggregateId == db.outbox[e].aggregateId
    requires after == db.(outbox := db.outbox[e := event])
    ensures ValidDb(after)
  {
    forall n | HasStatus(after, n, AwaitingProviderResult)
      ensures HasAttemptInDoubt(after, n)
    {
      assert HasStatus(db, n, AwaitingProviderResult);
      var a :| a in db.attempts && db.attempts[a].message == n && !db.attempts[a].Definitive();
      assert a in after.attempts;
    }
  }
}
