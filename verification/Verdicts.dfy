// What each repository call answers, told from the rows it reads: the results that its callers branch on.
module Verdicts {
  import opened StateMachine
  import opened Tables
  import opened Lifecycle

  /** A claim succeeds exactly on a queued or scheduled message, and returns its row as claimed. */
  lemma BeginVerdict(db: Db, m: MessageId)
    ensures var (after, r) := BeginProcessing(db, m);
      if m in db.messages && (db.messages[m].status == Queued || db.messages[m].status == RetryScheduled) then
        && r == Started(db.messages[m].(status := Processing, updatedAt := db.clock))
        && after == db.(messages := db.messages[m := r.claimed])
      else
        r == NotStartable && after == db
  {
  }

  /** A reservation succeeds exactly on a message in processing, under a new attempt number. */
  lemma ReserveVerdict(db: Db, m: MessageId, provider: string)
    ensures var (after, r) := ReserveProviderAttempt(db, m, provider);
      if m in db.messages && db.messages[m].status == Processing then
        && r == ReservedAs(db.nextAttempt) && after.nextAttempt == db.nextAttempt + 1
        && after.attempts == db.attempts[db.nextAttempt := Attempt(m, provider, Reserved, false, true, None, None)]
        && after.messages == db.messages[m := db.messages[m].(
             status := AwaitingProviderResult, selectedProvider := Some(provider),
             deliveryAttempts := db.messages[m].deliveryAttempts + 1, updatedAt := db.clock)]
      else
        r == NotReservable && after == db
  {
  }

  /** The attempt is this message's and still waits for its answer. */
  predicate IsWaitingFor(db: Db, m: MessageId, a: AttemptId) {
    a in db.attempts && db.attempts[a].message == m && db.attempts[a].outcome == Reserved
  }

  /** An ambiguous failure is recorded whatever the message has become, if its expiry is positive; any other
      answer only while the message awaits it. A call that is not recorded changes nothing. */
  lemma FinalizeVerdict(db: Db, m: MessageId, a: AttemptId, input: FinalizeInput)
    ensures var (after, r) := FinalizeProviderAttempt(db, m, a, input);
      var isUnsure := input.FailedWith? && input.isAmbiguous;
      var isPositive := isUnsure && input.expiryMs.Some? && input.expiryMs.value > 0;
      && (r.Finalized? <==> IsWaitingFor(db, m, a) && if isUnsure then isPositive else HasStatus(db, m, AwaitingProviderResult))
      && (r.InvalidExpiry? <==> IsWaitingFor(db, m, a) && isUnsure && !isPositive)
      && (!r.Finalized? ==> after == db)
  {
  }

  /** A Twilio message SID: "SM" and 32 hexadecimal digits, in either case. */
  lemma SidShape(sid: string)
    ensures IsTwilioSid(sid) <==>
      && |sid| == 34 && sid[0] in "sS" && sid[1] in "mM"
      && forall i :: 2 <= i < 34 ==> sid[i] in "0123456789abcdefABCDEF"
  {
    if |sid| == 34 {
      forall i | 2 <= i < 34 ensures IsHexDigit(sid[i]) <==> sid[i] in "0123456789abcdefABCDEF" {
        HexDigits(sid[i]);
      }
    }
  }

  lemma HexDigits(c: char)
    ensures IsHexDigit(c) <==> c in "0123456789abcdefABCDEF"
  {
  }

  predicate IsStored(existing: Resolution, input: ResolveInput) {
    match input
    case KnownSidIs(sid) => existing.kind == KnownSid && existing.providerMessageId == Some(sid) && existing.evidenceCode == None
    case UndeliveredBy(code) =>
      existing.kind == ConfirmedUndelivered && existing.providerMessageId == None && existing.evidenceCode == Some(code)
  }

  predicate IsMalformed(input: ResolveInput) {
    match input
    case KnownSidIs(sid) =>
      !(|sid| == 34 && sid[0] in "sS" && sid[1] in "mM" && forall i :: 2 <= i < 34 ==> sid[i] in "0123456789abcdefABCDEF")
    case UndeliveredBy(_) => false
  }

  /** The answer of a resolution, check by check: what it reads first, and what it finds at its update. */
  function ResolveAnswer(db: Db, met: Db, m: MessageId, a: AttemptId, input: ResolveInput): ResolveResult {
    if IsMalformed(input) then InvalidSid
    else if m !in db.messages then ResolveNotFound
    else if a in db.resolutions then
      if IsStored(db.resolutions[a], input) then AlreadyResolved(db.messages[m]) else Conflict
    else if db.messages[m].status != AwaitingProviderResult then NotAwaiting(db.messages[m].status)
    else if !(a in db.attempts && db.attempts[a].message == m && db.attempts[a].provider == "twilio" && db.attempts[a].isAmbiguous)
    then InvalidAttempt
    else if m in met.messages && met.messages[m].status == AwaitingProviderResult then
      if a in met.attempts && a !in met.resolutions then
        var row := met.messages[m];
        Resolved(match input
          case KnownSidIs(sid) => row.(status := Sent, providerMessageId := Some(sid), updatedAt := met.clock)
          case UndeliveredBy(code) =>
            row.(status := Undelivered, lastError := Some(ResolvedUndelivered(code)), updatedAt := met.clock))
      else ConstraintViolation
    else if a in met.resolutions && IsStored(met.resolutions[a], input) then
      if m in met.messages then AlreadyResolved(met.messages[m]) else ResolveNotFound
    else Conflict
  }

  lemma ResolveVerdict(db: Db, m: MessageId, a: AttemptId, input: ResolveInput, env: Db -> Db)
    ensures var (after, r) := ResolveTwilioAttempt(db, m, a, input, env);
      && r == ResolveAnswer(db, env(db), m, a, input)
      && (r.Resolved? ==>
            && m in after.messages && after.messages[m] == r.row
            && a in after.resolutions && IsStored(after.resolutions[a], input))
      && (!r.Resolved? ==> after == db || after == env(db))
  {
    if input.KnownSidIs? {
      SidShape(input.sid);
    }
    if a in db.resolutions {
      StoredMatches(db.resolutions[a], input);
    }
    if a in env(db).resolutions {
      StoredMatches(env(db).resolutions[a], input);
    }
  }

  lemma StoredMatches(existing: Resolution, input: ResolveInput)
    ensures MatchesResolution(existing, input) <==> IsStored(existing, input)
  {
  }

  /** A requeue succeeds exactly on a dead-lettered message, and gives it a fresh budget. */
  lemma RequeueVerdict(db: Db, m: MessageId, env: Db -> Db)
    ensures var (after, r) := ResetForRequeue(db, m, env);
      var met := env(db);
      if m !in db.messages then r == RequeueNotFound && after == db
      else if db.messages[m].status != FatalFailure then r == NotFatal(db.messages[m].status) && after == db
      else if m in met.messages && met.messages[m].status == FatalFailure then
        && r == RequeuedAs(met.messages[m].(status := RetryScheduled, retryRounds := 0, lastError := None, updatedAt := met.clock))
        && after.messages == met.messages[m := r.row]
        && after.outbox == met.outbox[met.nextEvent := OutboxEvent(m, Requeued, MessagePayload(m), false, 0, None)]
      else r == NotFatal(FatalFailure) && after == met
  {
  }

  /** A report for an unknown provider id finds nothing; one that says what is known is a duplicate; one that the
      status does not admit is refused with it; any other is applied, unless it loses its race. */
  lemma ReportVerdict(db: Db, pmid: string, terminal: SmsStatus, found: Option<MessageId>, env: Db -> Db)
    requires IsFound(db, pmid, found)
    ensures var (after, r) := ApplyDeliveryReport(db, pmid, terminal, found, env);
      match found
      case None =>
        r == ReportNotFound && after == db && forall m :: m in db.messages ==> db.messages[m].providerMessageId != Some(pmid)
      case Some(m) =>
        && m in db.messages && db.messages[m].providerMessageId == Some(pmid)
        && var status := db.messages[m].status;
          if status == terminal then r == Duplicate(db.messages[m]) && after == db
          else if !IsValidTransition(status, terminal) then r == ReportRefused(status) && after == db
          else if HasStatus(env(db), m, status) then
            && r == Applied(env(db).messages[m].(status := terminal, updatedAt := env(db).clock))
            && after == env(db).(messages := env(db).messages[m := r.row])
          else r == ReportRefused(status) && after == env(db)
  {
  }

  /** What the guarded transitions write when they succeed: a retry counts an attempt and, if asked to, a round,
      and keeps the last error when it is given none; the other two write their error. */
  lemma TransitionWrites(db: Db, m: MessageId, to: SmsStatus, patch: Patch, env: Db -> Db)
    ensures var (after, r) := GuardedTransition(db, m, to, patch, env);
      r.Moved? ==>
        && m in env(db).messages && m in after.messages && after.messages[m] == r.row
        && var row := env(db).messages[m].(status := to, updatedAt := env(db).clock);
          r.row == match patch
            case RetryPatch(increments, error, _) =>
              var counted := row.(
                deliveryAttempts := row.deliveryAttempts + 1,
                retryRounds := row.retryRounds + (if increments then 1 else 0));
              if error.Some? then counted.(lastError := error) else counted
            case FatalPatch(error) => row.(lastError := Some(error))
            case PermanentPatch(error) => row.(lastError := Some(error))
  {
  }

  /** Marks and failure notes, by themselves. */
  lemma MarkVerdict(db: Db, e: EventId, error: Note)
    ensures MarkPublished(db, e).Some? <==> e in db.outbox
    ensures RecordFailure(db, e, error).Some? <==> e in db.outbox
    ensures e in db.outbox ==>
      && MarkPublished(db, e).value == db.(outbox := db.outbox[e := db.outbox[e].(published := true)])
      && RecordFailure(db, e, error).value
         == db.(outbox := db.outbox[e := db.outbox[e].(retryCount := db.outbox[e].retryCount + 1, lastError := Some(error))])
  {
  }
}
