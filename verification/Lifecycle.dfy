// What each transaction of the lifecycle repository does to the committed database.
// Methods that read a status and update conditionally are split at that gap, because
// PostgreSQL may commit other transactions in between.
module Lifecycle {
  import opened StateMachine
  import opened Tables

  // --- What the transactions leave alone ---------------------------------------------------------

  ghost predicate SameChildren(db: Db, after: Db) {
    && after.attempts == db.attempts
    && after.resolutions == db.resolutions
    && after.keys == db.keys
    && after.nextAttempt == db.nextAttempt
    && after.clock == db.clock
  }

  /** No row but `m`'s changes, and no row appears, disappears, or changes its key or retention. */
  ghost predicate OnlyRowOf(db: Db, after: Db, m: MessageId) {
    && (forall n :: n in after.messages <==> n in db.messages)
    && (forall n :: n in db.messages && n != m ==> after.messages[n] == db.messages[n])
    && (m in db.messages ==>
          && after.messages[m].key == db.messages[m].key
          && after.messages[m].retentionExpiresAt == db.messages[m].retentionExpiresAt)
  }

  // --- Claim, recovery, reservation, result -----------------------------------------------------

  datatype BeginResult = Started(claimed: Message) | NotStartable

  function BeginProcessing(db: Db, m: MessageId): (r: (Db, BeginResult))
    ensures SameChildren(db, r.0) && OnlyRowOf(db, r.0, m)
    ensures SameEvents(db, r.0)
  {
    if m in db.messages && IsStartable(db.messages[m].status) then
      var after := PutMessage(db, m, db.messages[m].(status := Processing));
      (after, Started(after.messages[m]))
    else
      (db, NotStartable)
  }

  predicate IsStale(db: Db, m: MessageId, cutoff: Time) {
    HasStatus(db, m, Processing) && db.messages[m].updatedAt < cutoff
  }

  /** One candidate of the recovery loop: status and timestamp are checked again. */
  function RecoverOne(db: Db, m: MessageId, cutoff: Time): (r: (Db, bool))
    ensures SameChildren(db, r.0) && OnlyRowOf(db, r.0, m)
    ensures r.1 ==> HasStatus(r.0, m, RetryScheduled) && Appends(db, r.0, m, ProcessingRecovered, MessagePayload(m))
    ensures !r.1 ==> r.0 == db
  {
    if IsStale(db, m, cutoff) then
      var released := PutMessage(db, m, db.messages[m].(status := RetryScheduled));
      (AppendEvent(released, m, ProcessingRecovered, MessagePayload(m)), true)
    else
      (db, false)
  }

  datatype ReserveResult = ReservedAs(attempt: AttemptId) | NotReservable

  function ReserveProviderAttempt(db: Db, m: MessageId, provider: string): (r: (Db, ReserveResult))
    ensures OnlyRowOf(db, r.0, m) && r.0.resolutions == db.resolutions && r.0.keys == db.keys
    ensures SameEvents(db, r.0) && r.0.clock == db.clock
  {
    if HasStatus(db, m, Processing) then
      var row := db.messages[m];
      var waiting := PutMessage(db, m, row.(
        status := AwaitingProviderResult,
        selectedProvider := Some(provider),
        deliveryAttempts := row.deliveryAttempts + 1));
      var attempt := Attempt(m, provider, Reserved, false, true, None, None);
      (waiting.(attempts := db.attempts[db.nextAttempt := attempt], nextAttempt := db.nextAttempt + 1),
       ReservedAs(db.nextAttempt))
    else
      (db, NotReservable)
  }

  datatype FinalizeInput =
    | AcceptedWith(providerMessageId: string)
    | FailedWith(isAmbiguous: bool, isRetryable: bool, errorMessage: Note, expiryMs: Option<int>)

  datatype FinalizeResult = Finalized | FinalizeLostRace | InvalidExpiry

  predicate IsReservedFor(db: Db, m: MessageId, a: AttemptId) {
    a in db.attempts && db.attempts[a].message == m && db.attempts[a].outcome == Reserved
  }

  function RecordOutcome(row: Attempt, input: FinalizeInput): Attempt {
    match input
    case AcceptedWith(sid) =>
      row.(outcome := Accepted, isRetryable := false, isAmbiguous := false, providerMessageId := Some(sid))
    case FailedWith(isAmbiguous, isRetryable, error, _) =>
      row.(outcome := Failed, isRetryable := isRetryable, isAmbiguous := isAmbiguous, errorMessage := Some(error))
  }

  /** Records the provider's answer against its reservation; any failed check rolls everything back. */
  function FinalizeProviderAttempt(db: Db, m: MessageId, a: AttemptId, input: FinalizeInput): (r: (Db, FinalizeResult))
    ensures OnlyRowOf(db, r.0, m) && r.0.resolutions == db.resolutions && r.0.keys == db.keys
    ensures r.0.nextAttempt == db.nextAttempt && r.0.clock == db.clock
    ensures r.1.Finalized? && input.FailedWith? && input.isAmbiguous ==>
      input.expiryMs.Some? && input.expiryMs.value > 0
      && Appends(db, r.0, m, AmbiguousExpiryScheduled, DelayedPayload(m, input.expiryMs.value))
    ensures !(r.1.Finalized? && input.FailedWith? && input.isAmbiguous) ==> SameEvents(db, r.0)
  {
    if !IsReservedFor(db, m, a) then
      (db, FinalizeLostRace)
    else
      var recorded := db.(attempts := db.attempts[a := RecordOutcome(db.attempts[a], input)]);
      match input
      case AcceptedWith(sid) =>
        if HasStatus(db, m, AwaitingProviderResult) then
          (PutMessage(recorded, m, db.messages[m].(status := Sent, providerMessageId := Some(sid))), Finalized)
        else
          (db, FinalizeLostRace)
      case FailedWith(isAmbiguous, _, _, expiryMs) =>
        if isAmbiguous then
          if expiryMs.None? || expiryMs.value <= 0 then
            (db, InvalidExpiry)
          else
            (AppendEvent(recorded, m, AmbiguousExpiryScheduled, DelayedPayload(m, expiryMs.value)), Finalized)
        else if HasStatus(db, m, AwaitingProviderResult) then
          (PutMessage(recorded, m, db.messages[m].(status := Processing)), Finalized)
        else
          (db, FinalizeLostRace)
  }

  // --- Audited resolution of an ambiguous attempt --------------------------------------------------

  datatype ResolveInput = KnownSidIs(sid: string) | UndeliveredBy(evidence: EvidenceCode)

  datatype ResolveResult =
    | Resolved(row: Message)
    | AlreadyResolved(row: Message)
    | ResolveNotFound
    | NotAwaiting(current: SmsStatus)
    | InvalidAttempt
    | Conflict
    | InvalidSid
    | ConstraintViolation

  predicate IsHexDigit(c: char) {
    '0' <= c <= '9' || 'a' <= c <= 'f' || 'A' <= c <= 'F'
  }

  predicate IsTwilioSid(s: string) {
    && |s| == 34
    && (s[0] == 'S' || s[0] == 's')
    && (s[1] == 'M' || s[1] == 'm')
    && forall i :: 2 <= i < 34 ==> IsHexDigit(s[i])
  }

  predicate IsValidResolution(input: ResolveInput) {
    input.KnownSidIs? ==> IsTwilioSid(input.sid)
  }

  /** The immutable audit row for a decision. */
  function AuditRow(m: MessageId, input: ResolveInput): Resolution {
    match input
    case KnownSidIs(sid) => Resolution(m, KnownSid, Some(sid), None)
    case UndeliveredBy(code) => Resolution(m, ConfirmedUndelivered, None, Some(code))
  }

  /** Field-by-field comparison of a stored decision with a repeated one. */
  predicate MatchesResolution(existing: Resolution, input: ResolveInput) {
    && existing.kind == (if input.KnownSidIs? then KnownSid else ConfirmedUndelivered)
    && existing.providerMessageId == (if input.KnownSidIs? then Some(input.sid) else None)
    && existing.evidenceCode == (if input.UndeliveredBy? then Some(input.evidence) else None)
  }

  datatype ResolveRead = Proceed | Stop(result: ResolveResult)

  /** The checks made before the conditional update. */
  function ResolveCheck(db: Db, m: MessageId, a: AttemptId, input: ResolveInput): ResolveRead {
    if !IsValidResolution(input) then Stop(InvalidSid)
    else if m !in db.messages then Stop(ResolveNotFound)
    else if a in db.resolutions then
      Stop(if MatchesResolution(db.resolutions[a], input) then AlreadyResolved(db.messages[m]) else Conflict)
    else if db.messages[m].status != AwaitingProviderResult then
      Stop(NotAwaiting(db.messages[m].status))
    else if a !in db.attempts || db.attempts[a].message != m || db.attempts[a].provider != "twilio"
            || !db.attempts[a].isAmbiguous then
      Stop(InvalidAttempt)
    else
      Proceed
  }

  function ResolvedMessage(row: Message, input: ResolveInput): Message {
    match input
    case KnownSidIs(sid) => row.(status := Sent, providerMessageId := Some(sid))
    case UndeliveredBy(code) => row.(status := Undelivered, lastError := Some(ResolvedUndelivered(code)))
  }

  /** The conditional update, the audit row with its key constraints, and the lost-race reread. */
  function ResolveCommit(db: Db, m: MessageId, a: AttemptId, input: ResolveInput): (r: (Db, ResolveResult))
    ensures OnlyRowOf(db, r.0, m) && r.0.attempts == db.attempts && r.0.keys == db.keys
    ensures SameEvents(db, r.0)
    ensures r.0.nextAttempt == db.nextAttempt && r.0.clock == db.clock
  {
    if HasStatus(db, m, AwaitingProviderResult) then
      if a in db.resolutions || a !in db.attempts then
        (db, ConstraintViolation)
      else
        var moved := PutMessage(db, m, ResolvedMessage(db.messages[m], input));
        (moved.(resolutions := db.resolutions[a := AuditRow(m, input)]), Resolved(moved.messages[m]))
    else if a in db.resolutions && MatchesResolution(db.resolutions[a], input) then
      (db, if m in db.messages then AlreadyResolved(db.messages[m]) else ResolveNotFound)
    else
      (db, Conflict)
  }

  function ResolveTwilioAttempt(db: Db, m: MessageId, a: AttemptId, input: ResolveInput, env: Db -> Db): (Db, ResolveResult) {
    match ResolveCheck(db, m, a, input)
    case Stop(result) => (db, result)
    case Proceed => ResolveCommit(env(db), m, a, input)
  }

  // --- Guarded transitions --------------------------------------------------------------------------

  /** The columns a guarded transition writes beside the status, and the event it records. */
  datatype Patch =
    | RetryPatch(incrementRound: bool, retryError: Option<Note>, delayMs: nat)
    | FatalPatch(fatalError: Note)
    | PermanentPatch(permanentError: Note)

  function ApplyPatch(row: Message, patch: Patch): Message {
    match patch
    case RetryPatch(incrementRound, retryError, _) =>
      row.(
        deliveryAttempts := row.deliveryAttempts + 1,
        retryRounds := if incrementRound then row.retryRounds + 1 else row.retryRounds,
        lastError := if retryError.Some? then retryError else row.lastError)
    case FatalPatch(error) => row.(lastError := Some(error))
    case PermanentPatch(error) => row.(lastError := Some(error))
  }

  function AppendIntent(db: Db, m: MessageId, patch: Patch): Db {
    match patch
    case RetryPatch(_, _, delayMs) => AppendEvent(db, m, RetryDue, DelayedPayload(m, delayMs))
    case FatalPatch(_) => AppendEvent(db, m, DeadLettered, MessagePayload(m))
    case PermanentPatch(_) => db
  }

  /** The target statuses the public methods pass with each patch. */
  predicate PatchFits(to: SmsStatus, patch: Patch) {
    match patch
    case RetryPatch(_, _, _) => to == RetryScheduled
    case FatalPatch(_) => to == FatalFailure
    case PermanentPatch(_) => to == Rejected || to == Undelivered
  }

  datatype GuardedResult =
    | Moved(row: Message)
    | MessageNotFound
    | InvalidTransition(source: SmsStatus)
    | GuardLostRace

  datatype GuardedRead = Validated(seen: SmsStatus) | Refused(result: GuardedResult)

  function GuardedCheck(db: Db, m: MessageId, to: SmsStatus): GuardedRead {
    if m !in db.messages then Refused(MessageNotFound)
    else if !IsValidTransition(db.messages[m].status, to) then Refused(InvalidTransition(db.messages[m].status))
    else Validated(db.messages[m].status)
  }

  function GuardedCommit(db: Db, m: MessageId, seen: SmsStatus, to: SmsStatus, patch: Patch): (r: (Db, GuardedResult))
    ensures SameChildren(db, r.0) && OnlyRowOf(db, r.0, m)
    ensures r.1.Moved? ==>
      && HasStatus(db, m, seen) && HasStatus(r.0, m, to)
      && r.0.messages[m].providerMessageId == db.messages[m].providerMessageId
    ensures !r.1.Moved? ==> r.0 == db && !HasStatus(db, m, seen)
    ensures r.1.Moved? ==>
      match patch
      case RetryPatch(_, _, delayMs) => Appends(db, r.0, m, RetryDue, DelayedPayload(m, delayMs))
      case FatalPatch(_) => Appends(db, r.0, m, DeadLettered, MessagePayload(m))
      case PermanentPatch(_) => SameEvents(db, r.0)
  {
    if HasStatus(db, m, seen) then
      var moved := PutMessage(db, m, ApplyPatch(db.messages[m], patch).(status := to));
      (AppendIntent(moved, m, patch), Moved(moved.messages[m]))
    else
      (db, GuardLostRace)
  }

  function GuardedTransition(db: Db, m: MessageId, to: SmsStatus, patch: Patch, env: Db -> Db): (Db, GuardedResult) {
    match GuardedCheck(db, m, to)
    case Refused(result) => (db, result)
    case Validated(seen) => GuardedCommit(env(db), m, seen, to, patch)
  }

  // --- Expiry, requeue, delivery report --------------------------------------------------------------

  function ExpireAmbiguousOutcome(db: Db, m: MessageId): (r: (Db, bool))
    ensures SameChildren(db, r.0) && OnlyRowOf(db, r.0, m)
    ensures SameEvents(db, r.0)
  {
    if HasStatus(db, m, AwaitingProviderResult) then
      (PutMessage(db, m, db.messages[m].(status := Undelivered, lastError := Some(AmbiguousOutcomeExpired))), true)
    else
      (db, false)
  }

  datatype RequeueResult = RequeuedAs(row: Message) | RequeueNotFound | NotFatal(current: SmsStatus)

  function RequeueCommit(db: Db, m: MessageId, seen: SmsStatus): (r: (Db, RequeueResult))
    ensures SameChildren(db, r.0) && OnlyRowOf(db, r.0, m)
    ensures r.1.RequeuedAs? ==> HasStatus(r.0, m, RetryScheduled) && Appends(db, r.0, m, Requeued, MessagePayload(m))
    ensures !r.1.RequeuedAs? ==> r.0 == db
  {
    if HasStatus(db, m, FatalFailure) then
      var moved := PutMessage(db, m,
        db.messages[m].(status := RetryScheduled, retryRounds := 0, lastError := None));
      (AppendEvent(moved, m, Requeued, MessagePayload(m)), RequeuedAs(moved.messages[m]))
    else
      (db, NotFatal(seen))
  }

  function ResetForRequeue(db: Db, m: MessageId, env: Db -> Db): (Db, RequeueResult) {
    if m !in db.messages then (db, RequeueNotFound)
    else if db.messages[m].status != FatalFailure then (db, NotFatal(db.messages[m].status))
    else RequeueCommit(env(db), m, FatalFailure)
  }

  datatype ReportResult =
    | Applied(row: Message)
    | Duplicate(row: Message)
    | ReportNotFound
    | ReportRefused(current: SmsStatus)

  predicate IsDeliveryTerminal(status: SmsStatus) {
    status == Delivered || status == Undelivered || status == Rejected
  }

  /** `found` is the row that `findFirst` returns for this provider id, if there is one. */
  predicate IsFound(db: Db, pmid: string, found: Option<MessageId>) {
    match found
    case Some(m) => m in db.messages && db.messages[m].providerMessageId == Some(pmid)
    case None => forall m :: m in db.messages ==> db.messages[m].providerMessageId != Some(pmid)
  }

  datatype ReportRead = ReportValidated(target: MessageId, seen: SmsStatus) | ReportStop(result: ReportResult)

  function ReportCheck(db: Db, pmid: string, terminal: SmsStatus, found: Option<MessageId>): ReportRead
    requires IsFound(db, pmid, found)
  {
    match found
    case None => ReportStop(ReportNotFound)
    case Some(m) =>
      var current := db.messages[m].status;
      if current == terminal then ReportStop(Duplicate(db.messages[m]))
      else if !IsValidTransition(current, terminal) then ReportStop(ReportRefused(current))
      else ReportValidated(m, current)
  }

  function ReportCommit(db: Db, m: MessageId, seen: SmsStatus, terminal: SmsStatus): (r: (Db, ReportResult))
    ensures SameChildren(db, r.0) && OnlyRowOf(db, r.0, m)
    ensures SameEvents(db, r.0)
  {
    if HasStatus(db, m, seen) then
      var moved := PutMessage(db, m, db.messages[m].(status := terminal));
      (moved, Applied(moved.messages[m]))
    else
      (db, ReportRefused(seen))
  }

  function ApplyDeliveryReport(db: Db, pmid: string, terminal: SmsStatus, found: Option<MessageId>,
                               env: Db -> Db): (Db, ReportResult)
    requires IsFound(db, pmid, found)
  {
    match ReportCheck(db, pmid, terminal, found)
    case ReportStop(result) => (db, result)
    case ReportValidated(m, seen) => ReportCommit(env(db), m, seen, terminal)
  }

  // --- Outbox marks ----------------------------------------------------------------------------------

  /** Marking a missing row throws; that is the `None` result. */
  function MarkPublished(db: Db, e: EventId): Option<Db> {
    if e in db.outbox then Some(db.(outbox := db.outbox[e := db.outbox[e].(published := true)])) else None
  }

  function RecordFailure(db: Db, e: EventId, error: Note): Option<Db> {
    if e in db.outbox then
      var event := db.outbox[e];
      Some(db.(outbox := db.outbox[e := event.(retryCount := event.retryCount + 1, lastError := Some(error))]))
    else
      None
  }

  /** Unpublished event ids from `from` on, oldest first, at most `limit` of them. */
  function FetchFrom(db: Db, from: EventId, limit: nat): (batch: seq<EventId>)
    decreases db.nextEvent - from
  {
    if from >= db.nextEvent || limit == 0 then []
    else if from in db.outbox && !db.outbox[from].published then [from] + FetchFrom(db, from + 1, limit - 1)
    else FetchFrom(db, from + 1, limit)
  }
}
