// How the relay decodes an outbox event and routes it to a queue.
module Outbox {
  import opened Tables

  datatype QueueName = DispatchQueue | DeadLetterQueue | MaintenanceQueue
  datatype JobName = DispatchJob | RetryJob | DeadLetterJob | RequeueJob | RecoveredJob | ExpiryJob

  datatype DecodeError = InvalidPayload | MissingMessageId | InvalidDelay | MissingDelay | UnsupportedType
  datatype Decoded<+T> = Ok(value: T) | Bad(reason: DecodeError)

  datatype DispatchPayload = DispatchPayload(message: MessageId, delayMs: Option<int>)
  datatype JobSpec = JobSpec(queue: QueueName, name: JobName, message: MessageId, delayMs: Option<int>)

  predicate IsWholeNumber(value: real) {
    value == value.Floor as real
  }

  function Field(fields: map<FieldName, Json>, name: FieldName): Option<Json> {
    if name in fields then Some(fields[name]) else None
  }

  function ReadDispatchPayload(payload: Json): Decoded<DispatchPayload> {
    match payload
    case Object(fields) =>
      var id := Field(fields, MessageIdField);
      var delay := Field(fields, DelayMsField);
      if id.None? || !id.value.Text? then Bad(MissingMessageId)
      else if delay.None? then Ok(DispatchPayload(Uuid(id.value.text), None))
      else if !delay.value.Number? || !IsWholeNumber(delay.value.number) || delay.value.number < 0.0 then
        Bad(InvalidDelay)
      else Ok(DispatchPayload(Uuid(id.value.text), Some(delay.value.number.Floor)))
    case List(_) => Bad(MissingMessageId)
    case _ => Bad(InvalidPayload)
  }

  function QueueJobFor(event: OutboxEvent): Decoded<JobSpec> {
    match ReadDispatchPayload(event.payload)
    case Bad(reason) => Bad(reason)
    case Ok(payload) =>
      match event.eventType
      case RetryDue =>
        if payload.delayMs.None? then Bad(MissingDelay)
        else Ok(JobSpec(DispatchQueue, RetryJob, payload.message, payload.delayMs))
      case MessageQueued => Ok(JobSpec(DispatchQueue, DispatchJob, payload.message, None))
      case DeadLettered => Ok(JobSpec(DeadLetterQueue, DeadLetterJob, payload.message, None))
      case Requeued => Ok(JobSpec(DispatchQueue, RequeueJob, payload.message, None))
      case ProcessingRecovered => Ok(JobSpec(DispatchQueue, RecoveredJob, payload.message, None))
      case AmbiguousExpiryScheduled =>
        if payload.delayMs.None? then Bad(MissingDelay)
        else Ok(JobSpec(MaintenanceQueue, ExpiryJob, payload.message, payload.delayMs))
      case Unsupported(_) => Bad(UnsupportedType)
  }

  /** The event types that hand a message back to the workers. */
  predicate IsDispatchType(t: EventType) {
    t == MessageQueued || t == RetryDue || t == Requeued || t == ProcessingRecovered
  }

  /** Workers, the dead-letter queue, and maintenance share the event types between them. */
  function QueueOf(t: EventType): (queue: QueueName)
    ensures queue == DispatchQueue <==> IsDispatchType(t)
  {
    if IsDispatchType(t) then DispatchQueue else if t == DeadLettered then DeadLetterQueue else MaintenanceQueue
  }

  /** Each job name belongs to one event type. */
  predicate IsNameOf(name: JobName, t: EventType) {
    && (name == DispatchJob <==> t == MessageQueued)
    && (name == RetryJob <==> t == RetryDue)
    && (name == RequeueJob <==> t == Requeued)
    && (name == RecoveredJob <==> t == ProcessingRecovered)
    && (name == DeadLetterJob <==> t == DeadLettered)
    && (name == ExpiryJob <==> t == AmbiguousExpiryScheduled)
  }

  /** The relay can publish the event, to its own message, on the queue and under the name of its type. */
  predicate WellFormed(event: OutboxEvent) {
    var decoded := QueueJobFor(event);
    && decoded.Ok?
    && decoded.value.message == event.aggregateId
    && decoded.value.queue == QueueOf(event.eventType) && IsNameOf(decoded.value.name, event.eventType)
  }

  ghost predicate AllWellFormed(db: Db) {
    forall e :: e in db.outbox ==> WellFormed(db.outbox[e])
  }

  /** Reading back a payload written by either repository gives the written id and delay. */
  lemma PayloadRoundTrip(m: MessageId, delayMs: int)
    ensures ReadDispatchPayload(MessagePayload(m)) == Ok(DispatchPayload(m, None))
    ensures delayMs >= 0 ==> ReadDispatchPayload(DelayedPayload(m, delayMs)) == Ok(DispatchPayload(m, Some(delayMs)))
    ensures delayMs < 0 ==> ReadDispatchPayload(DelayedPayload(m, delayMs)).Bad?
  {
    assert (delayMs as real).Floor == delayMs;
  }

  predicate Counts(value: real, ms: nat) {
    value == ms as real
  }

  /** A delay that the relay accepts: none, or a whole number of milliseconds that is not negative. */
  ghost predicate HasGoodDelay(fields: map<FieldName, Json>) {
    DelayMsField in fields ==>
      fields[DelayMsField].Number? && exists ms: nat :: Counts(fields[DelayMsField].number, ms)
  }

  /** Exactly which events decode. */
  lemma DecodesIff(event: OutboxEvent)
    ensures QueueJobFor(event).Ok? <==>
      && event.payload.Object? && MessageIdField in event.payload.fields && event.payload.fields[MessageIdField].Text?
      && HasGoodDelay(event.payload.fields)
      && !event.eventType.Unsupported?
      && (event.eventType == RetryDue || event.eventType == AmbiguousExpiryScheduled ==> DelayMsField in event.payload.fields)
    ensures QueueJobFor(event).Ok? ==>
      var job := QueueJobFor(event).value;
      && job.message == Uuid(event.payload.fields[MessageIdField].text)
      && job.delayMs == if event.eventType == RetryDue || event.eventType == AmbiguousExpiryScheduled
                        then Some(event.payload.fields[DelayMsField].number.Floor) else None
  {
    if event.payload.Object? && DelayMsField in event.payload.fields && event.payload.fields[DelayMsField].Number? {
      var value := event.payload.fields[DelayMsField].number;
      if IsWholeNumber(value) && value >= 0.0 {
        var ms: nat := value.Floor;
        assert Counts(value, ms);
      }
      forall ms: nat | Counts(value, ms) ensures IsWholeNumber(value) && value >= 0.0 {
        assert (ms as real).Floor == ms;
      }
    }
  }

  /** And what the relay reports about one that does not. */
  lemma DecodeErrors(event: OutboxEvent)
    requires QueueJobFor(event).Bad?
    ensures var payload := event.payload;
      QueueJobFor(event).reason ==
        if !payload.Object? && !payload.List? then InvalidPayload
        else if payload.List? || MessageIdField !in payload.fields || !payload.fields[MessageIdField].Text? then MissingMessageId
        else if !HasGoodDelay(payload.fields) then InvalidDelay
        else if event.eventType.Unsupported? then UnsupportedType
        else MissingDelay
  {
    DecodesIff(event);
    DecodesIff(event.(eventType := MessageQueued));
  }

  /** Every undelayed event that a repository writes decodes to its own message, on the right queue. */
  lemma PlainEventDecodes(m: MessageId, t: EventType)
    requires t == MessageQueued || t == DeadLettered || t == Requeued || t == ProcessingRecovered
    ensures var event := OutboxEvent(m, t, MessagePayload(m), false, 0, None);
      && WellFormed(event)
      && (t == MessageQueued ==> QueueJobFor(event) == Ok(JobSpec(DispatchQueue, DispatchJob, m, None)))
      && (t == Requeued ==> QueueJobFor(event) == Ok(JobSpec(DispatchQueue, RequeueJob, m, None)))
      && (t == ProcessingRecovered ==> QueueJobFor(event) == Ok(JobSpec(DispatchQueue, RecoveredJob, m, None)))
      && (t == DeadLettered ==> QueueJobFor(event) == Ok(JobSpec(DeadLetterQueue, DeadLetterJob, m, None)))
  {
    PayloadRoundTrip(m, 0);
  }

  /** Every delayed event decodes to its own message and to exactly the delay that was written. */
  lemma DelayedEventDecodes(m: MessageId, t: EventType, delayMs: nat)
    requires t == RetryDue || t == AmbiguousExpiryScheduled
    ensures var event := OutboxEvent(m, t, DelayedPayload(m, delayMs), false, 0, None);
      && WellFormed(event)
      && (t == RetryDue ==> QueueJobFor(event) == Ok(JobSpec(DispatchQueue, RetryJob, m, Some(delayMs))))
      && (t == AmbiguousExpiryScheduled ==> QueueJobFor(event) == Ok(JobSpec(MaintenanceQueue, ExpiryJob, m, Some(delayMs))))
  {
    PayloadRoundTrip(m, delayMs);
  }
}
