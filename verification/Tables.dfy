// The PostgreSQL tables: rows as values, the whole committed database as one value `Db`,
// and the mutable `Database` object that the repositories work on.
module Tables {
  import opened StateMachine

  datatype Option<+T> = None | Some(value: T)

  // Message ids are UUID texts. Attempts and outbox events are numbered in creation order,
  // so that one number stands for both the row's id and its place in `createdAt` order.
  datatype MessageId = Uuid(text: string)
  type AttemptId = nat
  type EventId = nat
  type Time = int

  /** The free texts of the error columns, kept as what they say rather than as their wording. */
  datatype Note =
    | NoProvidersConfigured
    | ProvidersFailed(names: seq<string>)
    | ResolvedUndelivered(code: EvidenceCode)
    | AmbiguousOutcomeExpired
    | AcceptedWithoutId
    | UnknownProviderError
    | PublishFailed
    | RowDisappeared
    | Free(wording: string)

  datatype Message = Message(
    key: string,
    status: SmsStatus,
    selectedProvider: Option<string>,
    providerMessageId: Option<string>,
    lastError: Option<Note>,
    deliveryAttempts: nat,
    retryRounds: nat,
    retentionExpiresAt: Time,
    updatedAt: Time)

  datatype AttemptOutcome = Reserved | Accepted | Failed | TimedOut

  datatype Attempt = Attempt(
    message: MessageId,
    provider: string,
    outcome: AttemptOutcome,
    isRetryable: bool,
    isAmbiguous: bool,
    providerMessageId: Option<string>,
    errorMessage: Option<Note>)
  {
    /** The provider answered cleanly that it did not take the message. */
    predicate Definitive() {
      outcome == Failed && !isAmbiguous
    }
  }

  datatype ResolutionKind = KnownSid | ConfirmedUndelivered
  datatype EvidenceCode = TwilioUndeliveredConfirmed

  datatype Resolution = Resolution(
    message: MessageId,
    kind: ResolutionKind,
    providerMessageId: Option<string>,
    evidenceCode: Option<EvidenceCode>)

  /** Property names of a JSON object, with the two that the relay reads. */
  datatype FieldName = MessageIdField | DelayMsField | OtherField(name: string)

  datatype Json =
    | Null
    | Boolean(flag: bool)
    | Number(number: real)
    | Text(text: string)
    | List(items: seq<Json>)
    | Object(fields: map<FieldName, Json>)

  datatype EventType =
    | MessageQueued
    | RetryDue
    | DeadLettered
    | Requeued
    | ProcessingRecovered
    | AmbiguousExpiryScheduled
    | Unsupported(name: string)

  datatype OutboxEvent = OutboxEvent(
    aggregateId: MessageId,
    eventType: EventType,
    payload: Json,
    published: bool,
    retryCount: nat,
    lastError: Option<Note>)

  datatype KeyOwner = KeyOwner(message: MessageId, expiresAt: Time)

  datatype Db = Db(
    messages: map<MessageId, Message>,
    attempts: map<AttemptId, Attempt>,
    resolutions: map<AttemptId, Resolution>,
    outbox: map<EventId, OutboxEvent>,
    keys: map<string, KeyOwner>,
    nextAttempt: AttemptId,
    nextEvent: EventId,
    clock: Time)

  /** The `where` clause shared by the conditional updates. */
  predicate HasStatus(db: Db, m: MessageId, status: SmsStatus) {
    m in db.messages && db.messages[m].status == status
  }

  /** Update one message row; every update stamps `updatedAt`. */
  function PutMessage(db: Db, m: MessageId, row: Message): Db {
    db.(messages := db.messages[m := row.(updatedAt := db.clock)])
  }

  function AppendEvent(db: Db, m: MessageId, eventType: EventType, payload: Json): Db {
    db.(outbox := db.outbox[db.nextEvent := OutboxEvent(m, eventType, payload, false, 0, None)],
        nextEvent := db.nextEvent + 1)
  }

  /** Exactly one event is written: unpublished, under the next number. */
  predicate Appends(db: Db, after: Db, m: MessageId, eventType: EventType, payload: Json) {
    && after.outbox == db.outbox[db.nextEvent := OutboxEvent(m, eventType, payload, false, 0, None)]
    && after.nextEvent == db.nextEvent + 1
  }

  predicate SameEvents(db: Db, after: Db) {
    after.outbox == db.outbox && after.nextEvent == db.nextEvent
  }

  function MessagePayload(m: MessageId): Json {
    Object(map[MessageIdField := Text(m.text)])
  }

  function DelayedPayload(m: MessageId, delayMs: int): Json {
    Object(map[MessageIdField := Text(m.text), DelayMsField := Number(delayMs as real)])
  }

  // --- What every committed database satisfies -------------------------------------------------

  /** Ids are bounded by their counters and every child row points at an existing parent. */
  ghost predicate ForeignKeys(db: Db) {
    && (forall a :: a in db.attempts ==> a < db.nextAttempt && db.attempts[a].message in db.messages)
    && (forall a :: a in db.resolutions ==>
          a in db.attempts && db.resolutions[a].message == db.attempts[a].message)
    && (forall e :: e in db.outbox ==> e < db.nextEvent && db.outbox[e].aggregateId in db.messages)
    && (forall k :: k in db.keys ==> db.keys[k].message in db.messages)
  }

  /** An attempt still in doubt is flagged ambiguous; an accepted one is not. */
  ghost predicate AttemptFlags(db: Db) {
    forall a :: a in db.attempts ==>
      && (db.attempts[a].outcome == Reserved ==> db.attempts[a].isAmbiguous)
      && (db.attempts[a].outcome == Accepted ==> !db.attempts[a].isAmbiguous)
      && db.attempts[a].outcome != TimedOut
  }

  /** All attempts but the newest of their message are definitive failures. */
  ghost predicate OnlyNewestInDoubt(db: Db) {
    forall a, b :: a in db.attempts && b in db.attempts ==>
      (a < b && db.attempts[a].message == db.attempts[b].message ==> db.attempts[a].Definitive())
  }

  /** While a worker may still touch the message, no earlier provider call can have succeeded. */
  ghost predicate OpenMeansAllFailed(db: Db)
    requires ForeignKeys(db)
  {
    forall a :: a in db.attempts ==>
      (IsOpen(db.messages[db.attempts[a].message].status) ==> db.attempts[a].Definitive())
  }

  ghost predicate HasAttemptInDoubt(db: Db, m: MessageId) {
    exists a :: a in db.attempts && db.attempts[a].message == m && !db.attempts[a].Definitive()
  }

  /** A message waits for a provider only while one of its attempts is in doubt. */
  ghost predicate WaitingHasAttemptInDoubt(db: Db) {
    forall m :: HasStatus(db, m, AwaitingProviderResult) ==> HasAttemptInDoubt(db, m)
  }

  /** A provider id is present only on a settled message, and always on a `Sent` one. */
  ghost predicate ProviderIdMeansSettled(db: Db) {
    forall m :: m in db.messages ==>
      && (db.messages[m].providerMessageId.Some? ==> IsSettled(db.messages[m].status))
      && (db.messages[m].status == Sent ==> db.messages[m].providerMessageId.Some?)
  }

  /** Every audit record agrees with its message. */
  ghost predicate AuditAgrees(db: Db)
    requires ForeignKeys(db)
  {
    forall a :: a in db.resolutions ==>
      var r := db.resolutions[a];
      var row := db.messages[r.message];
      && IsSettled(row.status)
      && (r.kind == KnownSid ==>
            r.providerMessageId.Some? && r.evidenceCode == None && row.providerMessageId == r.providerMessageId)
      && (r.kind == ConfirmedUndelivered ==>
            r.providerMessageId == None && r.evidenceCode == Some(TwilioUndeliveredConfirmed)
            && row.status == Undelivered)
  }

  ghost predicate OneAuditPerMessage(db: Db) {
    forall a, b :: a in db.resolutions && b in db.resolutions ==>
      (db.resolutions[a].message == db.resolutions[b].message ==> a == b)
  }

  ghost predicate ValidDb(db: Db) {
    && ForeignKeys(db)
    && AttemptFlags(db)
    && OnlyNewestInDoubt(db)
    && OpenMeansAllFailed(db)
    && WaitingHasAttemptInDoubt(db)
    && ProviderIdMeansSettled(db)
    && AuditAgrees(db)
    && OneAuditPerMessage(db)
  }

  // --- The database object -------------------------------------------------------------------------

  /** The tables as the repositories update them in place. */
  class Database {
    var messages: map<MessageId, Message>
    var attempts: map<AttemptId, Attempt>
    var resolutions: map<AttemptId, Resolution>
    var outbox: map<EventId, OutboxEvent>
    var keys: map<string, KeyOwner>
    var nextAttempt: AttemptId
    var nextEvent: EventId
    var clock: Time

    function View(): Db
      reads this
    {
      Db(messages, attempts, resolutions, outbox, keys, nextAttempt, nextEvent, clock)
    }

    constructor (start: Time)
      ensures View() == Db(map[], map[], map[], map[], map[], 0, 0, start)
    {
      messages, attempts, resolutions, outbox, keys := map[], map[], map[], map[], map[];
      nextAttempt, nextEvent, clock := 0, 0, start;
    }

    /** Other transactions have committed, or the open one is rolled back: the tables are now `db`. */
    method Load(db: Db)
      modifies this
      ensures View() == db
    {
      messages, attempts, resolutions, outbox, keys := db.messages, db.attempts, db.resolutions, db.outbox, db.keys;
      nextAttempt, nextEvent, clock := db.nextAttempt, db.nextEvent, db.clock;
    }

    /** `updateMany` on one id and one status; the result is the number of rows updated. */
    method UpdateWhere(m: MessageId, status: SmsStatus, row: Message) returns (count: nat)
      modifies this`messages
      ensures count == if HasStatus(old(View()), m, status) then 1 else 0
      ensures View() == if count == 1 then PutMessage(old(View()), m, row) else old(View())
    {
      if m in messages && messages[m].status == status {
        messages := messages[m := row.(updatedAt := clock)];
        return 1;
      }
      return 0;
    }

    method CreateEvent(m: MessageId, eventType: EventType, payload: Json)
      modifies this`outbox, this`nextEvent
      ensures View() == AppendEvent(old(View()), m, eventType, payload)
    {
      outbox := outbox[nextEvent := OutboxEvent(m, eventType, payload, false, 0, None)];
      nextEvent := nextEvent + 1;
    }
  }
}
