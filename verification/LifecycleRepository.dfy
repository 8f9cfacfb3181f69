// The lifecycle repository as it works on the database: reads, conditional updates and inserts in
// order, with a roll-back where a check inside the transaction throws. Each method is proved to do
// exactly what its transaction function in `Lifecycle` says.
module LifecycleRepository {
  import opened StateMachine
  import opened Tables
  import opened Lifecycle

  // --- The recovery loop as a function ---------------------------------------------------------------

  /** What `findMany` may return: distinct stale messages, oldest first, `limit` of them or all. */
  ghost predicate AreCandidates(db: Db, cutoff: Time, limit: nat, candidates: seq<MessageId>) {
    && |candidates| <= limit
    && (forall i :: 0 <= i < |candidates| ==> IsStale(db, candidates[i], cutoff))
    && (forall i, j :: 0 <= i < j < |candidates| ==>
          candidates[i] != candidates[j] && db.messages[candidates[i]].updatedAt <= db.messages[candidates[j]].updatedAt)
    && (|candidates| < limit ==> forall m :: IsStale(db, m, cutoff) ==> m in candidates)
  }

  /** A candidate is being processed and was last written before the cutoff, and below the limit every such message
      is a candidate. */
  lemma CandidatesByColumns(db: Db, cutoff: Time, limit: nat, candidates: seq<MessageId>, m: MessageId)
    requires AreCandidates(db, cutoff, limit, candidates) && (m in candidates || |candidates| < limit)
    ensures m in candidates <==> m in db.messages && db.messages[m].status == Processing && db.messages[m].updatedAt < cutoff
  {
    if m in candidates {
      var i :| 0 <= i < |candidates| && candidates[i] == m;
      assert IsStale(db, candidates[i], cutoff);
    } else if IsStale(db, m, cutoff) {
      assert false;
    }
  }

  /** The first `k` candidates have been handled; `env(i)` is what others commit before candidate `i`. */
  function RecoverFirst(db: Db, candidates: seq<MessageId>, k: nat, cutoff: Time, env: nat -> Db -> Db): (r: (Db, nat))
    requires k <= |candidates|
    ensures r.1 <= k
  {
    if k == 0 then (db, 0)
    else
      var (before, count) := RecoverFirst(db, candidates, k - 1, cutoff, env);
      var (after, did) := RecoverOne(env(k - 1)(before), candidates[k - 1], cutoff);
      (after, count + if did then 1 else 0)
  }

  lemma RecoverNext(db: Db, candidates: seq<MessageId>, k: nat, cutoff: Time, env: nat -> Db -> Db, before: Db, count: nat)
    requires k < |candidates| && RecoverFirst(db, candidates, k, cutoff, env) == (before, count)
    ensures var (after, did) := RecoverOne(env(k)(before), candidates[k], cutoff);
      RecoverFirst(db, candidates, k + 1, cutoff, env) == (after, count + if did then 1 else 0)
  {
  }

  /** `after` is `db` with the first `k` candidates released, each by one event of its own. */
  ghost predicate ReleasedFirst(db: Db, after: Db, candidates: seq<MessageId>, k: nat)
    requires k <= |candidates|
  {
    ReleasedRows(db, after, candidates[..k]) && ReleasedEvents(db, after, candidates[..k])
  }

  ghost predicate ReleasedRows(db: Db, after: Db, released: seq<MessageId>) {
    && (forall m :: m in after.messages <==> m in db.messages)
    && (forall m :: m in db.messages && m !in released ==> after.messages[m] == db.messages[m])
    && (forall m :: m in released ==> HasStatus(after, m, RetryScheduled))
  }

  ghost predicate ReleasedEvents(db: Db, after: Db, released: seq<MessageId>) {
    && after.nextEvent == db.nextEvent + |released|
    && (forall e :: e in after.outbox <==> e in db.outbox || db.nextEvent <= e < after.nextEvent)
    && (forall e :: e in db.outbox ==> after.outbox[e] == db.outbox[e])
    && (forall e :: db.nextEvent <= e < after.nextEvent ==>
          after.outbox[e] == RecoveredEvent(released[e - db.nextEvent]))
  }

  function RecoveredEvent(m: MessageId): OutboxEvent {
    OutboxEvent(m, ProcessingRecovered, MessagePayload(m), false, 0, None)
  }

  lemma OneMoreRow(db: Db, before: Db, released: seq<MessageId>, m: MessageId, cutoff: Time)
    requires ReleasedRows(db, before, released) && IsStale(db, m, cutoff) && m !in released
    ensures RecoverOne(before, m, cutoff).1
    ensures ReleasedRows(db, RecoverOne(before, m, cutoff).0, released + [m])
  {
    assert IsStale(before, m, cutoff);
  }

  lemma OneMoreEvent(db: Db, before: Db, after: Db, released: seq<MessageId>, m: MessageId)
    requires ReleasedEvents(db, before, released) && Appends(before, after, m, ProcessingRecovered, MessagePayload(m))
    requires forall e :: e in db.outbox ==> e < db.nextEvent
    ensures ReleasedEvents(db, after, released + [m])
  {
  }

  lemma ReleasesOneMore(db: Db, before: Db, candidates: seq<MessageId>, k: nat, cutoff: Time)
    requires 0 < k <= |candidates| && ReleasedFirst(db, before, candidates, k - 1)
    requires forall e :: e in db.outbox ==> e < db.nextEvent
    requires IsStale(db, candidates[k - 1], cutoff) && candidates[k - 1] !in candidates[..k - 1]
    ensures RecoverOne(before, candidates[k - 1], cutoff).1
    ensures ReleasedFirst(db, RecoverOne(before, candidates[k - 1], cutoff).0, candidates, k)
  {
    var m := candidates[k - 1];
    assert candidates[..k] == candidates[..k - 1] + [m];
    OneMoreRow(db, before, candidates[..k - 1], m, cutoff);
    OneMoreEvent(db, before, RecoverOne(before, m, cutoff).0, candidates[..k - 1], m);
  }

  lemma CandidateIsFresh(db: Db, candidates: seq<MessageId>, k: nat, cutoff: Time, limit: nat)
    requires k < |candidates| && AreCandidates(db, cutoff, limit, candidates)
    ensures IsStale(db, candidates[k], cutoff) && candidates[k] !in candidates[..k]
  {
  }

  /** No other transaction commits. */
  function Undisturbed(k: nat): Db -> Db {
    db => db
  }

  /** Without interference, exactly the candidates are recovered, each with one event of its own. */
  lemma {:induction false} UndisturbedRecovery(db: Db, candidates: seq<MessageId>, k: nat, cutoff: Time, limit: nat)
    requires k <= |candidates| && AreCandidates(db, cutoff, limit, candidates)
    requires forall e :: e in db.outbox ==> e < db.nextEvent
    ensures IsUndisturbed(db, candidates, k, RecoverFirst(db, candidates, k, cutoff, Undisturbed))
  {
    if k == 0 {
      NothingReleased(db, candidates);
    } else {
      UndisturbedRecovery(db, candidates, k - 1, cutoff, limit);
      UndisturbedStep(db, candidates, k, cutoff, limit);
    }
  }

  lemma UndisturbedStep(db: Db, candidates: seq<MessageId>, k: nat, cutoff: Time, limit: nat)
    requires 0 < k <= |candidates| && AreCandidates(db, cutoff, limit, candidates)
    requires forall e :: e in db.outbox ==> e < db.nextEvent
    requires IsUndisturbed(db, candidates, k - 1, RecoverFirst(db, candidates, k - 1, cutoff, Undisturbed))
    ensures IsUndisturbed(db, candidates, k, RecoverFirst(db, candidates, k, cutoff, Undisturbed))
  {
    CandidateIsFresh(db, candidates, k - 1, cutoff, limit);
    OneMoreCandidate(db, candidates, k, cutoff);
  }

  ghost predicate IsUndisturbed(db: Db, candidates: seq<MessageId>, k: nat, r: (Db, nat)) {
    k <= |candidates| && r.1 == k && ReleasedFirst(db, r.0, candidates, k)
  }

  lemma OneMoreCandidate(db: Db, candidates: seq<MessageId>, k: nat, cutoff: Time)
    requires 0 < k <= |candidates|
    requires forall e :: e in db.outbox ==> e < db.nextEvent
    requires IsStale(db, candidates[k - 1], cutoff) && candidates[k - 1] !in candidates[..k - 1]
    requires IsUndisturbed(db, candidates, k - 1, RecoverFirst(db, candidates, k - 1, cutoff, Undisturbed))
    ensures IsUndisturbed(db, candidates, k, RecoverFirst(db, candidates, k, cutoff, Undisturbed))
  {
    var before := RecoverFirst(db, candidates, k - 1, cutoff, Undisturbed).0;
    ReleasesOneMore(db, before, candidates, k, cutoff);
    assert RecoverFirst(db, candidates, k, cutoff, Undisturbed)
        == (RecoverOne(before, candidates[k - 1], cutoff).0, k);
  }

  lemma NothingReleased(db: Db, candidates: seq<MessageId>)
    requires forall e :: e in db.outbox ==> e < db.nextEvent
    ensures ReleasedFirst(db, db, candidates, 0)
  {
  }

  lemma FetchNext(db: Db, batch: seq<EventId>, e: EventId, limit: nat)
    requires e < db.nextEvent && |batch| < limit
    ensures batch + FetchFrom(db, e, limit - |batch|)
         == if e in db.outbox && !db.outbox[e].published then (batch + [e]) + FetchFrom(db, e + 1, limit - |batch + [e]|)
            else batch + FetchFrom(db, e + 1, limit - |batch|)
  {
  }

  class SmsLifecycleRepository {
    const db: Database

    constructor (db: Database)
      ensures this.db == db
    {
      this.db := db;
    }

    // --- Outbox relay ----------------------------------------------------------------------------------

    method FetchUnpublishedOutbox(limit: nat) returns (batch: seq<EventId>)
      ensures batch == FetchFrom(db.View(), 0, limit)
    {
      batch := [];
      var e := 0;
      ghost var whole := FetchFrom(db.View(), 0, limit);
      while e < db.nextEvent && |batch| < limit
        invariant e <= db.nextEvent && |batch| <= limit
        invariant batch + FetchFrom(db.View(), e, limit - |batch|) == whole
      {
        FetchNext(db.View(), batch, e, limit);
        if e in db.outbox && !db.outbox[e].published {
          batch := batch + [e];
        }
        e := e + 1;
      }
    }

    /** A missing row makes the update throw; nothing changes. */
    method MarkOutboxPublished(e: EventId) returns (ok: bool)
      modifies db`outbox
      ensures ok <==> MarkPublished(old(db.View()), e).Some?
      ensures db.View() == if ok then MarkPublished(old(db.View()), e).value else old(db.View())
    {
      ok := e in db.outbox;
      if ok {
        db.outbox := db.outbox[e := db.outbox[e].(published := true)];
      }
    }

    method RecordOutboxPublishFailure(e: EventId, error: Note) returns (ok: bool)
      modifies db`outbox
      ensures ok <==> RecordFailure(old(db.View()), e, error).Some?
      ensures db.View() == if ok then RecordFailure(old(db.View()), e, error).value else old(db.View())
    {
      ok := e in db.outbox;
      if ok {
        db.outbox := db.outbox[e := db.outbox[e].(retryCount := db.outbox[e].retryCount + 1, lastError := Some(error))];
      }
    }

    // --- Worker transitions --------------------------------------------------------------------------------

    method BeginProcessing(m: MessageId) returns (r: BeginResult)
      modifies db`messages
      ensures (db.View(), r) == Lifecycle.BeginProcessing(old(db.View()), m)
    {
      if m !in db.messages || (db.messages[m].status != Queued && db.messages[m].status != RetryScheduled) {
        return NotStartable;
      }
      var _ := db.UpdateWhere(m, db.messages[m].status, db.messages[m].(status := Processing));
      r := Started(db.messages[m]);
    }

    /** The candidates are selected first; others may commit before each one's transaction. */
    method RecoverStaleProcessing(cutoff: Time, limit: nat, env: nat -> Db -> Db)
      returns (recovered: nat, ghost candidates: seq<MessageId>)
      modifies db
      ensures AreCandidates(old(db.View()), cutoff, limit, candidates)
      ensures (db.View(), recovered) == RecoverFirst(old(db.View()), candidates, |candidates|, cutoff, env)
    {
      var selected := SelectStale(cutoff, limit);
      candidates := selected;
      recovered := 0;
      ghost var start := db.View();
      for k := 0 to |selected|
        invariant (db.View(), recovered) == RecoverFirst(start, selected, k, cutoff, env)
      {
        RecoverNext(start, selected, k, cutoff, env, db.View(), recovered);
        db.Load(env(k)(db.View()));
        var didRecover := RecoverCandidate(selected[k], cutoff);
        if didRecover {
          recovered := recovered + 1;
        }
      }
    }

    /** Stale messages, oldest first: `limit` of them or all. */
    method SelectStale(cutoff: Time, limit: nat) returns (selected: seq<MessageId>)
      ensures AreCandidates(db.View(), cutoff, limit, selected)
      ensures forall m :: m in selected ==>
        m in db.messages && db.messages[m].status == Processing && db.messages[m].updatedAt < cutoff
      ensures |selected| < limit ==> forall m :: m in db.messages ==>
        (m in selected <==> db.messages[m].status == Processing && db.messages[m].updatedAt < cutoff)
    {
      var left := set m | m in db.messages && db.messages[m].status == Processing && db.messages[m].updatedAt < cutoff;
      selected := [];
      while |selected| < limit && left != {}
        invariant |selected| <= limit
        invariant forall m :: m in left ==> IsStale(db.View(), m, cutoff)
        invariant forall m :: IsStale(db.View(), m, cutoff) ==> m in left || m in selected
        invariant forall i :: 0 <= i < |selected| ==> IsStale(db.View(), selected[i], cutoff) && selected[i] !in left
        invariant forall i, j :: 0 <= i < j < |selected| ==>
          selected[i] != selected[j] && db.messages[selected[i]].updatedAt <= db.messages[selected[j]].updatedAt
        invariant forall i, m :: 0 <= i < |selected| && m in left ==> db.messages[selected[i]].updatedAt <= db.messages[m].updatedAt
        decreases |left|
      {
        var oldest := OldestOf(left);
        selected := selected + [oldest];
        left := left - {oldest};
      }
    }

    method OldestOf(ids: set<MessageId>) returns (oldest: MessageId)
      requires ids != {} && forall m :: m in ids ==> m in db.messages
      ensures oldest in ids && forall m :: m in ids ==> db.messages[oldest].updatedAt <= db.messages[m].updatedAt
    {
      oldest :| oldest in ids;
      var left := ids - {oldest};
      while left != {}
        invariant left <= ids && oldest in ids
        invariant forall m :: m in ids && m !in left ==> db.messages[oldest].updatedAt <= db.messages[m].updatedAt
        decreases |left|
      {
        var m :| m in left;
        if db.messages[m].updatedAt < db.messages[oldest].updatedAt {
          oldest := m;
        }
        left := left - {m};
      }
    }

    /** One transaction of the loop. */
    method RecoverCandidate(m: MessageId, cutoff: Time) returns (didRecover: bool)
      modifies db
      ensures (db.View(), didRecover) == RecoverOne(old(db.View()), m, cutoff)
      ensures didRecover <==>
        m in old(db.messages) && old(db.messages)[m].status == Processing && old(db.messages)[m].updatedAt < cutoff
    {
      if m !in db.messages || db.messages[m].status != Processing || db.messages[m].updatedAt >= cutoff {
        return false;
      }
      var _ := db.UpdateWhere(m, Processing, db.messages[m].(status := RetryScheduled));
      db.CreateEvent(m, ProcessingRecovered, MessagePayload(m));
      return true;
    }

    method ReserveProviderAttempt(m: MessageId, provider: string) returns (r: ReserveResult)
      modifies db
      ensures (db.View(), r) == Lifecycle.ReserveProviderAttempt(old(db.View()), m, provider)
    {
      if m !in db.messages || db.messages[m].status != Processing {
        return NotReservable;
      }
      var row := db.messages[m];
      var _ := db.UpdateWhere(m, Processing, row.(
        status := AwaitingProviderResult,
        selectedProvider := Some(provider),
        deliveryAttempts := row.deliveryAttempts + 1));
      db.attempts := db.attempts[db.nextAttempt := Attempt(m, provider, Reserved, false, true, None, None)];
      r := ReservedAs(db.nextAttempt);
      db.nextAttempt := db.nextAttempt + 1;
    }

    /** The attempt row is written first; a later check that fails rolls it back. */
    method FinalizeProviderAttempt(m: MessageId, a: AttemptId, input: FinalizeInput) returns (r: FinalizeResult)
      modifies db
      ensures (db.View(), r) == Lifecycle.FinalizeProviderAttempt(old(db.View()), m, a, input)
    {
      if a !in db.attempts || db.attempts[a].message != m || db.attempts[a].outcome != Reserved {
        return FinalizeLostRace;
      }
      var begun := db.View();
      db.attempts := db.attempts[a := RecordOutcome(db.attempts[a], input)];
      match input
      case AcceptedWith(sid) =>
        var sent := 0;
        if m in db.messages {
          sent := db.UpdateWhere(m, AwaitingProviderResult, db.messages[m].(status := Sent, providerMessageId := Some(sid)));
        }
        if sent == 0 {
          db.Load(begun);
          return FinalizeLostRace;
        }
        return Finalized;
      case FailedWith(isAmbiguous, _, _, expiryMs) =>
        if isAmbiguous {
          if expiryMs.None? || expiryMs.value <= 0 {
            db.Load(begun);
            return InvalidExpiry;
          }
          db.CreateEvent(m, AmbiguousExpiryScheduled, DelayedPayload(m, expiryMs.value));
          return Finalized;
        }
        var released := 0;
        if m in db.messages {
          released := db.UpdateWhere(m, AwaitingProviderResult, db.messages[m].(status := Processing));
        }
        if released == 0 {
          db.Load(begun);
          return FinalizeLostRace;
        }
        return Finalized;
    }

    // --- Audited resolution ---------------------------------------------------------------------------------

    method ResolveTwilioAttempt(m: MessageId, a: AttemptId, input: ResolveInput, env: Db -> Db) returns (r: ResolveResult)
      modifies db
      ensures (db.View(), r) == Lifecycle.ResolveTwilioAttempt(old(db.View()), m, a, input, env)
    {
      if input.KnownSidIs? && !IsTwilioSid(input.sid) {
        return InvalidSid;
      }
      if m !in db.messages {
        return ResolveNotFound;
      }
      var current := db.messages[m].status;
      if a in db.resolutions {
        if MatchesResolution(db.resolutions[a], input) {
          return AlreadyResolved(db.messages[m]);
        }
        return Conflict;
      }
      if current != AwaitingProviderResult {
        return NotAwaiting(current);
      }
      if a !in db.attempts || db.attempts[a].message != m || db.attempts[a].provider != "twilio"
         || !db.attempts[a].isAmbiguous {
        return InvalidAttempt;
      }
      db.Load(env(db.View()));
      var begun := db.View();
      var updated := 0;
      if m in db.messages {
        updated := db.UpdateWhere(m, AwaitingProviderResult, ResolvedMessage(db.messages[m], input));
      }
      if updated == 0 {
        if a in db.resolutions && MatchesResolution(db.resolutions[a], input) {
          r := if m in db.messages then AlreadyResolved(db.messages[m]) else ResolveNotFound;
          return;
        }
        return Conflict;
      }
      if a in db.resolutions || a !in db.attempts {
        db.Load(begun);
        return ConstraintViolation;
      }
      db.resolutions := db.resolutions[a := AuditRow(m, input)];
      r := Resolved(db.messages[m]);
    }

    // --- Guarded transitions ----------------------------------------------------------------------------------

    method ScheduleRetry(m: MessageId, incrementRound: bool, delayMs: nat, error: Option<Note>, env: Db -> Db)
      returns (r: GuardedResult)
      modifies db
      ensures (db.View(), r)
           == Lifecycle.GuardedTransition(old(db.View()), m, RetryScheduled, RetryPatch(incrementRound, error, delayMs), env)
    {
      r := GuardedTransition(m, RetryScheduled, RetryPatch(incrementRound, error, delayMs), env);
    }

    method MarkPermanentProviderFailure(m: MessageId, to: SmsStatus, error: Note, env: Db -> Db) returns (r: GuardedResult)
      requires to == Rejected || to == Undelivered
      modifies db
      ensures (db.View(), r) == Lifecycle.GuardedTransition(old(db.View()), m, to, PermanentPatch(error), env)
    {
      r := GuardedTransition(m, to, PermanentPatch(error), env);
    }

    method MarkFatalFailure(m: MessageId, error: Note, env: Db -> Db) returns (r: GuardedResult)
      modifies db
      ensures (db.View(), r) == Lifecycle.GuardedTransition(old(db.View()), m, FatalFailure, FatalPatch(error), env)
    {
      r := GuardedTransition(m, FatalFailure, FatalPatch(error), env);
    }

    method GuardedTransition(m: MessageId, to: SmsStatus, patch: Patch, env: Db -> Db) returns (r: GuardedResult)
      modifies db
      ensures (db.View(), r) == Lifecycle.GuardedTransition(old(db.View()), m, to, patch, env)
    {
      if m !in db.messages {
        return MessageNotFound;
      }
      var current := db.messages[m].status;
      if !IsValidTransition(current, to) {
        return InvalidTransition(current);
      }
      db.Load(env(db.View()));
      var updated := 0;
      if m in db.messages {
        updated := db.UpdateWhere(m, current, ApplyPatch(db.messages[m], patch).(status := to));
      }
      if updated == 0 {
        return GuardLostRace;
      }
      match patch {
        case RetryPatch(_, _, delayMs) => db.CreateEvent(m, RetryDue, DelayedPayload(m, delayMs));
        case FatalPatch(_) => db.CreateEvent(m, DeadLettered, MessagePayload(m));
        case PermanentPatch(_) =>
      }
      r := Moved(db.messages[m]);
    }

    // --- Expiry, requeue, delivery report -----------------------------------------------------------------------

    method ExpireAmbiguousOutcome(m: MessageId) returns (expired: bool)
      modifies db`messages
      ensures (db.View(), expired) == Lifecycle.ExpireAmbiguousOutcome(old(db.View()), m)
      ensures expired <==> m in old(db.messages) && old(db.messages)[m].status == AwaitingProviderResult
      ensures expired ==> db.messages[m].status == Undelivered
    {
      var updated := 0;
      if m in db.messages {
        updated := db.UpdateWhere(m, AwaitingProviderResult,
          db.messages[m].(status := Undelivered, lastError := Some(AmbiguousOutcomeExpired)));
      }
      expired := updated == 1;
    }

    method ResetForRequeue(m: MessageId, env: Db -> Db) returns (r: RequeueResult)
      modifies db
      ensures (db.View(), r) == Lifecycle.ResetForRequeue(old(db.View()), m, env)
    {
      if m !in db.messages {
        return RequeueNotFound;
      }
      var current := db.messages[m].status;
      if current != FatalFailure {
        return NotFatal(current);
      }
      db.Load(env(db.View()));
      var updated := 0;
      if m in db.messages {
        updated := db.UpdateWhere(m, FatalFailure,
          db.messages[m].(status := RetryScheduled, retryRounds := 0, lastError := None));
      }
      if updated == 0 {
        return NotFatal(current);
      }
      db.CreateEvent(m, Requeued, MessagePayload(m));
      r := RequeuedAs(db.messages[m]);
    }

    method ApplyDeliveryReport(pmid: string, terminal: SmsStatus, found: Option<MessageId>, env: Db -> Db)
      returns (r: ReportResult)
      requires IsFound(db.View(), pmid, found)
      modifies db
      ensures (db.View(), r) == Lifecycle.ApplyDeliveryReport(old(db.View()), pmid, terminal, found, env)
    {
      if found.None? {
        return ReportNotFound;
      }
      var m := found.value;
      var current := db.messages[m].status;
      if current == terminal {
        return Duplicate(db.messages[m]);
      }
      if !IsValidTransition(current, terminal) {
        return ReportRefused(current);
      }
      db.Load(env(db.View()));
      var updated := 0;
      if m in db.messages {
        updated := db.UpdateWhere(m, current, db.messages[m].(status := terminal));
      }
      if updated == 0 {
        return ReportRefused(current);
      }
      r := Applied(db.messages[m]);
    }
  }
}
