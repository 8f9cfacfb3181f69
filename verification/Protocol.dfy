// The whole dispatch protocol as a state machine: any number of workers, relays, recoveries,
// operators and webhooks over one committed database and one job queue. Each action is one atomic
// commit or one statement of a worker; every choice that the environment makes is a parameter
// of the action, and `Next` is then a function. `calls`, `ledger`, `author`, `enqueued`, `births`
// and `lastPurge` are history kept for the theorems. No action reads them, except that a creation
// draws an id that is not in `ledger`: ids are UUIDs, and a used one never comes back.
module Protocol {
  import opened StateMachine
  import opened Tables
  import opened Lifecycle
  import opened Persistence
  import opened Retention
  import opened Providers
  import opened Outbox

  datatype Config = Config(providers: seq<string>, maxRounds: nat, backoffBase: nat, expiryMs: int, ttlMs: int)

  type WorkerId = nat
  type OpId = nat
  type RelayId = nat

  // --- Workers --------------------------------------------------------------------------------

  /** Where a worker stands: before its next statement, inside a provider call, after the answer,
      or between reading the status and deciding the round. */
  datatype Phase =
    | Ready
    | InFlight(attempt: AttemptId)
    | Answered(answered: AttemptId, result: SendResult, call: nat)
    | Deciding(seen: SmsStatus)

  /** `round` is the `retryRounds` snapshot taken at the claim. */
  datatype Worker = Worker(message: MessageId, round: nat, failures: seq<bool>, phase: Phase)
  {
    /** The reservation the worker is acting on. */
    function Held(): Option<AttemptId> {
      match phase
      case InFlight(a) => Some(a)
      case Answered(a, _, _) => Some(a)
      case _ => None
    }
  }

  /** One provider call: `accepted` is what really happened at the provider. */
  datatype Call = Call(message: MessageId, attempt: AttemptId, result: SendResult, accepted: bool)

  function DecisionTarget(cfg: Config, w: Worker): SmsStatus {
    if RetriesAgain(cfg, w) then RetryScheduled else FatalFailure
  }

  predicate RetriesAgain(cfg: Config, w: Worker) {
    w.failures != [] && AllTrue(w.failures) && w.round < cfg.maxRounds
  }

  function DecisionPatch(cfg: Config, w: Worker): Patch {
    var summary := SummarizeFailures(if |w.failures| <= |cfg.providers| then cfg.providers[..|w.failures|] else []);
    if RetriesAgain(cfg, w) then RetryPatch(true, Some(summary), BackoffDelayMs(w.round, cfg.backoffBase))
    else FatalPatch(summary)
  }

  // --- Operators, webhooks, jobs, relays ---------------------------------------------------------

  /** A transaction that has made its reads and not yet its conditional update. */
  datatype Op =
    | ReportOp(message: MessageId, seen: SmsStatus, terminal: SmsStatus)
    | ResolveOp(message: MessageId, attempt: AttemptId, input: ResolveInput)
    | PermanentOp(message: MessageId, seen: SmsStatus, to: SmsStatus, error: Note)

  /** The deterministic job id `messageId#eventId`. */
  datatype JobId = JobId(message: MessageId, event: EventId)

  /** `begun`: a worker has committed an outcome of the claim for this job. */
  datatype Job = Job(queue: QueueName, name: JobName, message: MessageId, begun: bool)

  datatype Fetched = Fetched(id: EventId, event: OutboxEvent)

  /** A relay's remaining batch; `added` when the job of its first event has been enqueued. */
  datatype Relay = Relay(batch: seq<Fetched>, added: bool)

  // --- World ---------------------------------------------------------------------------------------

  datatype Ledger = Ledger(
    claims: nat, recoveries: nat, requeues: nat, retries: nat, deadLetters: nat,
    retriesSinceRequeue: nat, delaySinceRequeue: nat,
    claimant: WorkerId)

  const EMPTY_LEDGER := Ledger(0, 0, 0, 0, 0, 0, 0, 0)

  datatype Birth = Birth(id: MessageId, key: string, at: Time)

  /** Of which message and type an event number was issued. */
  datatype Origin = Origin(message: MessageId, eventType: EventType)

  datatype World = World(
    db: Db,
    jobs: map<JobId, Job>,
    workers: map<WorkerId, Worker>,
    ops: map<OpId, Op>,
    relays: map<RelayId, Relay>,
    calls: seq<Call>,
    ledger: map<MessageId, Ledger>,
    author: map<EventId, Origin>,
    enqueued: set<EventId>,
    births: seq<Birth>,
    lastPurge: Option<Time>)

  function InitialDb(clock: Time): Db {
    Db(map[], map[], map[], map[], map[], 0, 0, clock)
  }

  function Init(clock: Time): World {
    World(InitialDb(clock), map[], map[], map[], map[], [], map[], map[], {}, [], None)
  }

  function BookOf(w: World, m: MessageId): Ledger {
    if m in w.ledger then w.ledger[m] else EMPTY_LEDGER
  }

  function OriginOf(event: OutboxEvent): Origin {
    Origin(event.aggregateId, event.eventType)
  }

  /** Install a committed database, remembering the origin of an event it may have appended. */
  function Commit(w: World, after: Db): (v: World)
    ensures v == w.(db := after, author := v.author)
  {
    w.(db := after,
       author := if after.nextEvent > w.db.nextEvent && w.db.nextEvent in after.outbox
                 then w.author[w.db.nextEvent := OriginOf(after.outbox[w.db.nextEvent])]
                 else w.author)
  }

  // --- Actions -------------------------------------------------------------------------------------

  datatype WorkerStep =
    | Claim(job: JobId)
    | Reserve
    | CallProvider(answer: SendResult, accepted: bool)
    | Finalize
    | ReadForDecision
    | Decide
    | Crash

  datatype OperatorStep =
    | Recover(message: MessageId, cutoff: Time)
    | Requeue(message: MessageId)
    | ReadReport(op: OpId, pmid: string, terminal: SmsStatus, found: Option<MessageId>)
    | ReadResolve(op: OpId, message: MessageId, attempt: AttemptId, input: ResolveInput)
    | ReadPermanent(op: OpId, message: MessageId, to: SmsStatus, error: Note)
    | CommitOp(op: OpId)

  datatype RelayStep =
    | Fetch(limit: nat)
    | Add
    | AddUnseen
    | Mark
    | MarkUnseen
    | NoteFailure(recorded: bool)
    | StopRelay

  datatype Action =
    | Create(newId: MessageId, key: string, now: Time, owner: Option<KeyOwner>)
    | Work(worker: WorkerId, step: WorkerStep)
    | Operate(operation: OperatorStep)
    | Publish(relay: RelayId, publishing: RelayStep)
    | RunMaintenance(job: JobId, effective: bool)
    | RemoveJob(job: JobId)
    | PurgeBatch(ids: set<MessageId>, now: Time)
    | Tick(ms: nat)

  predicate IsRelaying(w: World, r: RelayId) {
    r in w.relays && w.relays[r].batch != []
  }

  predicate WorkEnabled(cfg: Config, w: World, id: WorkerId, step: WorkerStep) {
    match step
    case Claim(job) => job in w.jobs && w.jobs[job].queue == DispatchQueue && id !in w.workers
    case Reserve => id in w.workers && w.workers[id].phase.Ready? && |w.workers[id].failures| < |cfg.providers|
    case CallProvider(answer, accepted) =>
      // The one fact assumed of providers: a clean refusal is true.
      id in w.workers && w.workers[id].phase.InFlight? && (IsDefinitiveFailure(answer) ==> !accepted)
    case Finalize => id in w.workers && w.workers[id].phase.Answered?
    case ReadForDecision =>
      id in w.workers && w.workers[id].phase.Ready? && |w.workers[id].failures| >= |cfg.providers|
    case Decide => id in w.workers && w.workers[id].phase.Deciding?
    case Crash => id in w.workers
  }

  ghost predicate OperateEnabled(w: World, step: OperatorStep) {
    match step
    case Recover(_, _) => true
    case Requeue(_) => true
    case ReadReport(op, pmid, terminal, found) =>
      op !in w.ops && IsDeliveryTerminal(terminal) && IsFound(w.db, pmid, found)
    case ReadResolve(op, _, _, _) => op !in w.ops
    case ReadPermanent(op, _, to, error) => op !in w.ops && PatchFits(to, PermanentPatch(error))
    case CommitOp(op) => op in w.ops
  }

  predicate PublishEnabled(w: World, r: RelayId, step: RelayStep) {
    match step
    case Fetch(_) => !IsRelaying(w, r)
    case Add => IsRelaying(w, r) && !w.relays[r].added && QueueJobFor(w.relays[r].batch[0].event).Ok?
    case Mark => IsRelaying(w, r) && w.relays[r].added && w.relays[r].batch[0].id in w.db.outbox
    // A call takes effect, but the relay sees an error; its `catch` branch is a later `NoteFailure`.
    case AddUnseen => IsRelaying(w, r) && !w.relays[r].added && QueueJobFor(w.relays[r].batch[0].event).Ok?
    case MarkUnseen => IsRelaying(w, r) && w.relays[r].added
    case NoteFailure(_) => IsRelaying(w, r)
    case StopRelay => r in w.relays
  }

  ghost predicate Enabled(cfg: Config, w: World, act: Action) {
    match act
    case Create(newId, _, now, owner) => newId !in w.ledger && newId !in w.db.messages && !IsLive(owner, now)
    case Work(id, step) => WorkEnabled(cfg, w, id, step)
    case Operate(step) => OperateEnabled(w, step)
    case Publish(r, step) => PublishEnabled(w, r, step)
    case RunMaintenance(job, _) => job in w.jobs && w.jobs[job].queue == MaintenanceQueue
    // A job leaves the dispatch queue only after its claim has committed an outcome.
    case RemoveJob(job) => job in w.jobs && (w.jobs[job].queue == DispatchQueue ==> w.jobs[job].begun)
    case PurgeBatch(ids, now) => ids <= ExpiredIds(w.db, now)
    case Tick(_) => true
  }

  // --- Effects -------------------------------------------------------------------------------------

  /** No call is logged and no attempt row changes. */
  ghost predicate SameCalls(w: World, v: World) {
    v.calls == w.calls && v.db.attempts == w.db.attempts && v.db.nextAttempt == w.db.nextAttempt
  }

  ghost predicate SameQueues(w: World, v: World) {
    v.jobs == w.jobs && v.relays == w.relays && v.enqueued == w.enqueued
  }

  ghost predicate SameHistory(w: World, v: World) {
    v.births == w.births && v.lastPurge == w.lastPurge && v.db.keys == w.db.keys
  }

  /** No audit row and no event is written. */
  ghost predicate SameTables(w: World, v: World) {
    v.db.resolutions == w.db.resolutions && v.db.outbox == w.db.outbox && v.db.nextEvent == w.db.nextEvent
  }

  function NextCreate(cfg: Config, w: World, newId: MessageId, key: string, now: Time, owner: Option<KeyOwner>): (v: World)
    requires newId !in w.db.messages && !IsLive(owner, now)
    ensures SameCalls(w, v) && v.workers == w.workers && SameQueues(w, v) && v.ops == w.ops
  {
    var (after, r) := CreateCommit(w.db, newId, key, now, cfg.ttlMs, owner);
    if r.Created? then
      Commit(w, after).(
        ledger := w.ledger[newId := EMPTY_LEDGER],
        births := w.births + [Birth(newId, key, now)])
    else
      w
  }

  function NextClaim(w: World, job: JobId, id: WorkerId): (v: World)
    requires job in w.jobs
    ensures v.db == BeginProcessing(w.db, w.jobs[job].message).0
    ensures SameCalls(w, v) && v.ops == w.ops && v.relays == w.relays && OnlyRowOf(w.db, v.db, w.jobs[job].message)
    ensures SameHistory(w, v) && SameTables(w, v)
  {
    var m := w.jobs[job].message;
    var (after, r) := BeginProcessing(w.db, m);
    var begun := w.(jobs := w.jobs[job := w.jobs[job].(begun := true)]);
    match r
    case NotStartable => begun
    case Started(row) =>
      var book := BookOf(w, m);
      Commit(begun, after).(
        workers := w.workers[id := Worker(m, row.retryRounds, [], Ready)],
        ledger := w.ledger[m := book.(claims := book.claims + 1, claimant := id)])
  }

  function NextReserve(cfg: Config, w: World, id: WorkerId): (v: World)
    requires id in w.workers && |w.workers[id].failures| < |cfg.providers|
    ensures v.db == ReserveProviderAttempt(w.db, w.workers[id].message, cfg.providers[|w.workers[id].failures|]).0
    ensures v.calls == w.calls && v.ledger == w.ledger && SameQueues(w, v) && v.ops == w.ops
    ensures SameHistory(w, v) && v.db.outbox == w.db.outbox && v.db.nextEvent == w.db.nextEvent
  {
    var worker := w.workers[id];
    var (after, r) := ReserveProviderAttempt(w.db, worker.message, cfg.providers[|worker.failures|]);
    match r
    case NotReservable => w.(workers := w.workers - {id})
    case ReservedAs(a) => Commit(w, after).(workers := w.workers[id := worker.(phase := InFlight(a))])
  }

  function NextCall(w: World, id: WorkerId, answer: SendResult, accepted: bool): (v: World)
    requires id in w.workers && w.workers[id].phase.InFlight?
    ensures v.db == w.db && v.ledger == w.ledger && SameQueues(w, v) && v.ops == w.ops && SameHistory(w, v)
  {
    var worker := w.workers[id];
    var a := worker.phase.attempt;
    w.(calls := w.calls + [Call(worker.message, a, answer, accepted)],
       workers := w.workers[id := worker.(phase := Answered(a, answer, |w.calls|))])
  }

  function NextFinalize(cfg: Config, w: World, id: WorkerId): (v: World)
    requires id in w.workers && w.workers[id].phase.Answered?
    ensures v.db == FinalizeProviderAttempt(w.db, w.workers[id].message, w.workers[id].phase.answered,
                                            AnswerOf(w.workers[id].phase.result, cfg.expiryMs)).0
    ensures v.calls == w.calls && v.ledger == w.ledger && SameQueues(w, v) && v.ops == w.ops && SameHistory(w, v)
    ensures v.author == Commit(w, v.db).author
  {
    var worker := w.workers[id];
    var answer := worker.phase.result;
    var (after, r) := FinalizeProviderAttempt(w.db, worker.message, worker.phase.answered, AnswerOf(answer, cfg.expiryMs));
    if r.Finalized? && IsDefinitiveFailure(answer) then
      Commit(w, after).(workers :=
        w.workers[id := worker.(phase := Ready, failures := worker.failures + [answer.isRetryable])])
    else
      Commit(w, after).(workers := w.workers - {id})
  }

  function NextReadForDecision(cfg: Config, w: World, id: WorkerId): (v: World)
    requires id in w.workers
    ensures v == w.(workers := v.workers)
  {
    var worker := w.workers[id];
    match GuardedCheck(w.db, worker.message, DecisionTarget(cfg, worker))
    case Refused(_) => w.(workers := w.workers - {id})
    case Validated(seen) => w.(workers := w.workers[id := worker.(phase := Deciding(seen))])
  }

  function DecidedBook(cfg: Config, worker: Worker, book: Ledger): Ledger {
    if RetriesAgain(cfg, worker) then
      book.(retries := book.retries + 1,
            retriesSinceRequeue := book.retriesSinceRequeue + 1,
            delaySinceRequeue := book.delaySinceRequeue + BackoffDelayMs(worker.round, cfg.backoffBase))
    else
      book.(deadLetters := book.deadLetters + 1)
  }

  function NextDecide(cfg: Config, w: World, id: WorkerId): (v: World)
    requires id in w.workers && w.workers[id].phase.Deciding?
    ensures SameCalls(w, v) && v.workers == w.workers - {id} && SameQueues(w, v) && v.ops == w.ops && SameHistory(w, v)
    ensures v.author == Commit(w, v.db).author
    ensures v.db == GuardedCommit(w.db, w.workers[id].message, w.workers[id].phase.seen,
                                  DecisionTarget(cfg, w.workers[id]), DecisionPatch(cfg, w.workers[id])).0
  {
    var worker := w.workers[id];
    var m := worker.message;
    var (after, r) := GuardedCommit(w.db, m, worker.phase.seen, DecisionTarget(cfg, worker), DecisionPatch(cfg, worker));
    var done := w.(workers := w.workers - {id});
    if r.Moved? then
      Commit(done, after).(ledger := w.ledger[m := DecidedBook(cfg, worker, BookOf(w, m))])
    else
      done
  }

  function NextRecover(w: World, m: MessageId, cutoff: Time): (v: World)
    ensures v.db == RecoverOne(w.db, m, cutoff).0
    ensures SameCalls(w, v) && v.workers == w.workers && SameQueues(w, v) && v.ops == w.ops && SameHistory(w, v)
  {
    var (after, recovered) := RecoverOne(w.db, m, cutoff);
    var book := BookOf(w, m);
    if recovered then
      Commit(w, after).(ledger := w.ledger[m := book.(recoveries := book.recoveries + 1)])
    else
      w
  }

  function NextRequeue(w: World, m: MessageId): (v: World)
    ensures v.db == RequeueCommit(w.db, m, FatalFailure).0
    ensures SameCalls(w, v) && v.workers == w.workers && SameQueues(w, v) && v.ops == w.ops && SameHistory(w, v)
  {
    var (after, r) := RequeueCommit(w.db, m, FatalFailure);
    var book := BookOf(w, m);
    if r.RequeuedAs? then
      Commit(w, after).(ledger := w.ledger[m := book.(
        requeues := book.requeues + 1, retriesSinceRequeue := 0, delaySinceRequeue := 0)])
    else
      w
  }

  function NextReadReport(w: World, op: OpId, pmid: string, terminal: SmsStatus, found: Option<MessageId>): (v: World)
    requires IsFound(w.db, pmid, found)
    ensures v == w.(ops := v.ops)
  {
    match ReportCheck(w.db, pmid, terminal, found)
    case ReportStop(_) => w
    case ReportValidated(m, seen) => w.(ops := w.ops[op := ReportOp(m, seen, terminal)])
  }

  function NextReadResolve(w: World, op: OpId, m: MessageId, a: AttemptId, input: ResolveInput): (v: World)
    ensures v == w.(ops := v.ops)
  {
    match ResolveCheck(w.db, m, a, input)
    case Stop(_) => w
    case Proceed => w.(ops := w.ops[op := ResolveOp(m, a, input)])
  }

  function NextReadPermanent(w: World, op: OpId, m: MessageId, to: SmsStatus, error: Note): (v: World)
    ensures v == w.(ops := v.ops)
  {
    match GuardedCheck(w.db, m, to)
    case Refused(_) => w
    case Validated(seen) => w.(ops := w.ops[op := PermanentOp(m, seen, to, error)])
  }

  function OpEffect(db: Db, op: Op): Db {
    match op
    case ReportOp(m, seen, terminal) => ReportCommit(db, m, seen, terminal).0
    case ResolveOp(m, a, input) => ResolveCommit(db, m, a, input).0
    case PermanentOp(m, seen, to, error) => GuardedCommit(db, m, seen, to, PermanentPatch(error)).0
  }

  function NextCommitOp(w: World, op: OpId): (v: World)
    requires op in w.ops
    ensures v.db == OpEffect(w.db, w.ops[op])
    ensures SameCalls(w, v) && v.workers == w.workers && v.ledger == w.ledger && SameQueues(w, v) && SameHistory(w, v)
    ensures v.ops == w.ops - {op}
  {
    Commit(w, OpEffect(w.db, w.ops[op])).(ops := w.ops - {op})
  }

  /** Another processor of the same queue may consume the job with no effect. */
  function NextMaintenance(w: World, job: JobId, effective: bool): (v: World)
    requires job in w.jobs
    ensures v.db == if effective then ExpireAmbiguousOutcome(w.db, w.jobs[job].message).0 else w.db
    ensures SameCalls(w, v) && v.workers == w.workers && v.ops == w.ops && v.relays == w.relays && v.ledger == w.ledger
    ensures SameHistory(w, v) && SameTables(w, v)
  {
    var consumed := w.(jobs := w.jobs - {job});
    if effective then Commit(consumed, ExpireAmbiguousOutcome(w.db, w.jobs[job].message).0) else consumed
  }

  function NextPurge(w: World, ids: set<MessageId>, now: Time): World {
    w.(db := Purge(w.db, ids),
       lastPurge := if w.lastPurge.Some? && w.lastPurge.value >= now then w.lastPurge else Some(now))
  }

  /** Relays write only the queue, their own batch, and the marks on existing events. */
  ghost predicate OnlyPublishes(w: World, v: World) {
    && SameCalls(w, v) && SameHistory(w, v)
    && v.workers == w.workers && v.ops == w.ops && v.ledger == w.ledger && v.author == w.author
    && v.db == w.db.(outbox := v.db.outbox)
  }

  function NextFetch(w: World, r: RelayId, limit: nat): (v: World)
    ensures OnlyPublishes(w, v)
  {
    var ids := FetchFrom(w.db, 0, limit);
    w.(relays := w.relays[r := Relay(FetchedRows(w.db, ids), false)])
  }

  function FetchedRows(db: Db, ids: seq<EventId>): (rows: seq<Fetched>)
    ensures forall k :: 0 <= k < |rows| ==> rows[k].id in ids && rows[k].id in db.outbox && rows[k].event == db.outbox[rows[k].id]
  {
    if ids == [] then []
    else if ids[0] in db.outbox then [Fetched(ids[0], db.outbox[ids[0]])] + FetchedRows(db, ids[1..])
    else FetchedRows(db, ids[1..])
  }

  /** `add` under a job id that is still live keeps the live job. */
  function AddJob(w: World, first: Fetched): (v: World)
    requires QueueJobFor(first.event).Ok?
    ensures OnlyPublishes(w, v)
  {
    var spec := QueueJobFor(first.event).value;
    var id := JobId(spec.message, first.id);
    w.(jobs := if id in w.jobs then w.jobs else w.jobs[id := Job(spec.queue, spec.name, spec.message, false)],
       enqueued := w.enqueued + {first.id})
  }

  function NextAdd(w: World, r: RelayId): (v: World)
    requires IsRelaying(w, r) && QueueJobFor(w.relays[r].batch[0].event).Ok?
    ensures OnlyPublishes(w, v)
  {
    AddJob(w, w.relays[r].batch[0]).(relays := w.relays[r := w.relays[r].(added := true)])
  }

  /** The failure is recorded and the batch goes on, or recording throws too and the tick ends. */
  function FailFirst(w: World, r: RelayId, recorded: bool): (v: World)
    requires IsRelaying(w, r)
    ensures OnlyPublishes(w, v)
  {
    var batch := w.relays[r].batch;
    var noted := RecordFailure(w.db, batch[0].id, PublishFailed);
    if recorded && noted.Some? then
      w.(db := noted.value, relays := w.relays[r := Relay(batch[1..], false)])
    else
      w.(relays := w.relays[r := Relay([], false)])
  }

  function NextMark(w: World, r: RelayId): (v: World)
    requires IsRelaying(w, r) && w.relays[r].batch[0].id in w.db.outbox
    ensures OnlyPublishes(w, v)
  {
    var batch := w.relays[r].batch;
    w.(db := MarkPublished(w.db, batch[0].id).value, relays := w.relays[r := Relay(batch[1..], false)])
  }

  function NextMarkUnseen(w: World, r: RelayId): (v: World)
    requires IsRelaying(w, r)
    ensures OnlyPublishes(w, v) && v.relays == w.relays && v.jobs == w.jobs && v.enqueued == w.enqueued
  {
    var marked := MarkPublished(w.db, w.relays[r].batch[0].id);
    if marked.Some? then w.(db := marked.value) else w
  }

  function NextWork(cfg: Config, w: World, id: WorkerId, step: WorkerStep): World
    requires WorkEnabled(cfg, w, id, step)
  {
    match step
    case Claim(job) => NextClaim(w, job, id)
    case Reserve => NextReserve(cfg, w, id)
    case CallProvider(answer, accepted) => NextCall(w, id, answer, accepted)
    case Finalize => NextFinalize(cfg, w, id)
    case ReadForDecision => NextReadForDecision(cfg, w, id)
    case Decide => NextDecide(cfg, w, id)
    case Crash => w.(workers := w.workers - {id})
  }

  function NextOperate(w: World, step: OperatorStep): World
    requires OperateEnabled(w, step)
  {
    match step
    case Recover(m, cutoff) => NextRecover(w, m, cutoff)
    case Requeue(m) => NextRequeue(w, m)
    case ReadReport(op, pmid, terminal, found) => NextReadReport(w, op, pmid, terminal, found)
    case ReadResolve(op, m, a, input) => NextReadResolve(w, op, m, a, input)
    case ReadPermanent(op, m, to, error) => NextReadPermanent(w, op, m, to, error)
    case CommitOp(op) => NextCommitOp(w, op)
  }

  function NextPublish(w: World, r: RelayId, step: RelayStep): (v: World)
    requires PublishEnabled(w, r, step)
    ensures OnlyPublishes(w, v)
  {
    match step
    case Fetch(limit) => NextFetch(w, r, limit)
    case Add => NextAdd(w, r)
    case AddUnseen => AddJob(w, w.relays[r].batch[0])
    case Mark => NextMark(w, r)
    case MarkUnseen => NextMarkUnseen(w, r)
    case NoteFailure(recorded) => FailFirst(w, r, recorded)
    case StopRelay => w.(relays := w.relays - {r})
  }

  function Next(cfg: Config, w: World, act: Action): World
    requires Enabled(cfg, w, act)
  {
    match act
    case Create(newId, key, now, owner) => NextCreate(cfg, w, newId, key, now, owner)
    case Work(id, step) => NextWork(cfg, w, id, step)
    case Operate(step) => NextOperate(w, step)
    case Publish(r, step) => NextPublish(w, r, step)
    case RunMaintenance(job, effective) => NextMaintenance(w, job, effective)
    case RemoveJob(job) => w.(jobs := w.jobs - {job})
    case PurgeBatch(ids, now) => NextPurge(w, ids, now)
    case Tick(ms) => w.(db := w.db.(clock := w.db.clock + ms))
  }

  // --- Runs ------------------------------------------------------------------------------------------

  ghost predicate IsRun(cfg: Config, w: World, acts: seq<Action>)
    decreases |acts|
  {
    acts == [] || (Enabled(cfg, w, acts[0]) && IsRun(cfg, Next(cfg, w, acts[0]), acts[1..]))
  }

  ghost function After(cfg: Config, w: World, acts: seq<Action>): World
    requires IsRun(cfg, w, acts)
    decreases |acts|
  {
    if acts == [] then w else After(cfg, Next(cfg, w, acts[0]), acts[1..])
  }
}
