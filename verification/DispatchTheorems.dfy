// The dispatch invariant over whole runs: no lost message, and what the relay guarantees under any
// pattern of failures.
module DispatchTheorems {
  import opened StateMachine
  import opened Tables
  import opened Lifecycle
  import opened Persistence
  import opened Outbox
  import opened Protocol
  import opened Safety
  import opened SafetyTheorems
  import opened Dispatch

  lemma OpEffectWaiting(w: World, op: OpId)
    requires OpsAreSound(w) && op in w.ops
    ensures SameEvents(w.db, OpEffect(w.db, w.ops[op]))
    ensures forall n :: IsWaiting(OpEffect(w.db, w.ops[op]), n) ==> IsWaiting(w.db, n)
  {
  }

  lemma CommitOpKeepsDispatching(w: World, op: OpId)
    requires OpsAreSound(w) && Dispatching(w) && op in w.ops
    ensures Dispatching(NextCommitOp(w, op))
  {
    OpEffectWaiting(w, op);
    SilentStep(w, NextCommitOp(w, op));
  }

  lemma OperateKeepsDispatching(w: World, step: OperatorStep)
    requires OpsAreSound(w) && Dispatching(w) && OperateEnabled(w, step)
    ensures Dispatching(NextOperate(w, step))
  {
    match step
    case Recover(m, cutoff) => RecoverKeepsDispatching(w, m, cutoff);
    case Requeue(m) => RequeueKeepsDispatching(w, m);
    case CommitOp(op) => CommitOpKeepsDispatching(w, op);
    case _ => SilentStep(w, NextOperate(w, step));
  }

  lemma ReserveWaiting(db: Db, m: MessageId, provider: string)
    ensures forall n :: IsWaiting(ReserveProviderAttempt(db, m, provider).0, n) ==> IsWaiting(db, n)
  {
  }

  lemma WorkKeepsDispatching(cfg: Config, w: World, id: WorkerId, step: WorkerStep)
    requires Dispatching(w) && WorkEnabled(cfg, w, id, step)
    ensures Dispatching(NextWork(cfg, w, id, step))
  {
    match step
    case Claim(job) => ClaimKeepsDispatching(cfg, w, id, job);
    case Reserve =>
      ReserveWaiting(w.db, w.workers[id].message, cfg.providers[|w.workers[id].failures|]);
      SilentStep(w, NextWork(cfg, w, id, step));
    case CallProvider(answer, accepted) => SilentStep(w, NextWork(cfg, w, id, step));
    case Finalize => FinalizeKeepsDispatching(cfg, w, id);
    case ReadForDecision => SilentStep(w, NextWork(cfg, w, id, step));
    case Decide => DecideKeepsDispatching(cfg, w, id);
    case Crash => SilentStep(w, NextWork(cfg, w, id, step));
  }

  lemma AddUnseenKeepsDispatching(w: World, r: RelayId)
    requires Dispatching(w) && PublishEnabled(w, r, AddUnseen)
    ensures Dispatching(NextPublish(w, r, AddUnseen))
  {
    var first := w.relays[r].batch[0];
    assert FetchedMatchesOrigin(w, first);
    AddJobKeepsDispatching(w, first);
  }

  lemma StopKeepsDispatching(w: World, r: RelayId)
    requires Dispatching(w)
    ensures Dispatching(w.(relays := w.relays - {r}))
  {
    var v := w.(relays := w.relays - {r});
    forall id | id in v.jobs ensures JobMatchesOrigin(v, id) {
      assert JobMatchesOrigin(w, id);
    }
    forall q, k | q in v.relays && 0 <= k < |v.relays[q].batch|
      ensures FetchedMatchesOrigin(v, v.relays[q].batch[k])
    {
      assert FetchedMatchesOrigin(w, w.relays[q].batch[k]);
    }
    forall n | IsWaiting(v.db, n) ensures HasHope(v, n) {
      assert IsWaiting(w.db, n);
      var e :| GivesHope(w, n, e);
      assert GivesHope(v, n, e);
    }
  }

  lemma PublishKeepsDispatching(w: World, r: RelayId, step: RelayStep)
    requires Dispatching(w) && PublishEnabled(w, r, step)
    ensures Dispatching(NextPublish(w, r, step))
  {
    match step
    case Fetch(limit) => FetchKeepsDispatching(w, r, limit);
    case Add => AddKeepsDispatching(w, r);
    case AddUnseen => AddUnseenKeepsDispatching(w, r);
    case Mark => MarkKeepsDispatching(w, r);
    case MarkUnseen => MarkUnseenKeepsDispatching(w, r);
    case NoteFailure(recorded) => FailFirstKeepsDispatching(w, r, recorded);
    case StopRelay => StopKeepsDispatching(w, r);
  }

  lemma MaintenanceKeepsDispatching(w: World, job: JobId, effective: bool)
    requires Dispatching(w) && job in w.jobs && w.jobs[job].queue == MaintenanceQueue
    ensures Dispatching(NextMaintenance(w, job, effective))
  {
    RemovalKeepsDispatching(w, NextMaintenance(w, job, effective), job);
  }

  lemma NextKeepsDispatching(cfg: Config, w: World, act: Action)
    requires OpsAreSound(w) && Dispatching(w) && Enabled(cfg, w, act)
    ensures Dispatching(Next(cfg, w, act))
  {
    match act
    case Create(newId, key, now, owner) => CreateKeepsDispatching(cfg, w, newId, key, now, owner);
    case Work(id, step) => WorkKeepsDispatching(cfg, w, id, step);
    case Operate(step) => OperateKeepsDispatching(w, step);
    case Publish(r, step) => PublishKeepsDispatching(w, r, step);
    case RunMaintenance(job, effective) => MaintenanceKeepsDispatching(w, job, effective);
    case RemoveJob(job) => RemovalKeepsDispatching(w, Next(cfg, w, act), job);
    case PurgeBatch(ids, now) => PurgeKeepsDispatching(w, ids, now);
    case Tick(ms) => SilentStep(w, Next(cfg, w, act));
  }

  lemma {:induction false} RunKeepsDispatching(cfg: Config, w: World, acts: seq<Action>)
    requires Safe(w) && Dispatching(w) && IsRun(cfg, w, acts)
    ensures Dispatching(After(cfg, w, acts))
    decreases |acts|
  {
    if acts != [] {
      NextKeepsSafe(cfg, w, acts[0]);
      NextKeepsDispatching(cfg, w, acts[0]);
      RunKeepsDispatching(cfg, Next(cfg, w, acts[0]), acts[1..]);
    }
  }

  /** Some dispatch event of `m` is still unpublished, or its job waits in the dispatch queue, untried. */
  ghost predicate WillBeTried(w: World, m: MessageId) {
    exists e :: e in w.db.outbox && LeadsTo(w, m, e)
  }

  predicate LeadsTo(w: World, m: MessageId, e: EventId)
    requires e in w.db.outbox
  {
    && w.db.outbox[e].aggregateId == m && IsDispatchType(w.db.outbox[e].eventType)
    && (!w.db.outbox[e].published || HasFreshJob(w, JobId(m, e)))
  }

  predicate HasFreshJob(w: World, id: JobId) {
    id in w.jobs && w.jobs[id].queue == DispatchQueue && !w.jobs[id].begun && w.jobs[id].message == id.message
  }

  /** In every run, under any relay failures, replays, crashes and purges, a message that waits for a
      worker will be tried: it cannot be lost. */
  lemma NoLostMessage(cfg: Config, clock: Time, acts: seq<Action>, m: MessageId)
    requires IsRun(cfg, Init(clock), acts)
    requires IsWaiting(After(cfg, Init(clock), acts).db, m)
    ensures WillBeTried(After(cfg, Init(clock), acts), m)
  {
    InitIsSafe(clock);
    RunKeepsDispatching(cfg, Init(clock), acts);
    DispatchingStrandsNone(After(cfg, Init(clock), acts));
  }

  /** In every run each event has at most one live job, an event marked published was enqueued first,
      and every live job carries the message of its own event. */
  lemma RelayCrashSafety(cfg: Config, clock: Time, acts: seq<Action>)
    requires IsRun(cfg, Init(clock), acts)
    ensures var w := After(cfg, Init(clock), acts);
      && (forall i, j :: i in w.jobs && j in w.jobs && i.event == j.event ==> i == j)
      && (forall e :: e in w.db.outbox && w.db.outbox[e].published ==> e in w.enqueued)
      && (forall id :: id in w.jobs && id.event in w.db.outbox ==>
            w.jobs[id].message == w.db.outbox[id.event].aggregateId)
  {
    InitIsSafe(clock);
    RunKeepsDispatching(cfg, Init(clock), acts);
    var w := After(cfg, Init(clock), acts);
    forall i, j | i in w.jobs && j in w.jobs && i.event == j.event ensures i == j {
      assert JobMatchesOrigin(w, i) && JobMatchesOrigin(w, j);
    }
    forall id | id in w.jobs && id.event in w.db.outbox
      ensures w.jobs[id].message == w.db.outbox[id.event].aggregateId
    {
      assert JobMatchesOrigin(w, id);
    }
  }

  /** An event is published only by a mark that commits, seen or unseen, after its relay's own `add`;
      every other step of a relay, failed or not, leaves it for the next fetch. */
  lemma FailedEventStaysFetchable(w: World, r: RelayId, step: RelayStep, e: EventId)
    requires PublishEnabled(w, r, step) && e in w.db.outbox && !w.db.outbox[e].published
    ensures var v := NextPublish(w, r, step);
      && e in v.db.outbox
      && (v.db.outbox[e].published <==> (step.Mark? || step.MarkUnseen?) && w.relays[r].batch[0].id == e)
      && (v.db.outbox[e].published ==> w.relays[r].added)
  {
    match step
    case Mark => MarkPublishesFirst(w, r, e);
    case MarkUnseen => MarkUnseenPublishesFirst(w, r, e);
    case NoteFailure(recorded) => FailFirstPublishesNothing(w, r, recorded, e);
    case _ =>
  }

  lemma FailFirstPublishesNothing(w: World, r: RelayId, recorded: bool, e: EventId)
    requires IsRelaying(w, r) && e in w.db.outbox
    ensures var v := FailFirst(w, r, recorded);
      e in v.db.outbox && v.db.outbox[e].published == w.db.outbox[e].published
  {
  }

  lemma MarkUnseenPublishesFirst(w: World, r: RelayId, e: EventId)
    requires IsRelaying(w, r) && e in w.db.outbox
    ensures var v := NextMarkUnseen(w, r);
      e in v.db.outbox && (v.db.outbox[e].published <==> w.db.outbox[e].published || w.relays[r].batch[0].id == e)
  {
  }

  lemma MarkPublishesFirst(w: World, r: RelayId, e: EventId)
    requires PublishEnabled(w, r, Mark) && e in w.db.outbox
    ensures var v := NextMark(w, r);
      e in v.db.outbox && (v.db.outbox[e].published <==> w.db.outbox[e].published || w.relays[r].batch[0].id == e)
  {
  }

  // --- Why a job must not leave the queue before its claim has committed ----------------------------

  /** The queue drops a job whose processing threw, whatever it had done (`removeOnFail`). */
  function DropJob(w: World, id: JobId): World {
    w.(jobs := w.jobs - {id})
  }

  /** No waiting message is stranded: each will be tried. */
  ghost predicate NoneStranded(w: World) {
    forall m :: IsWaiting(w.db, m) ==> WillBeTried(w, m)
  }

  lemma DispatchingStrandsNone(w: World)
    requires Dispatching(w)
    ensures NoneStranded(w)
  {
    forall m | IsWaiting(w.db, m) ensures WillBeTried(w, m) {
      var e :| GivesHope(w, m, e);
      assert JobId(m, e) in w.jobs ==> JobMatchesOrigin(w, JobId(m, e));
      assert LeadsTo(w, m, e);
    }
  }

  /** Nothing but this job will have its waiting message tried: the job is untried, its event is marked
      published, and no other event of the message is unpublished or has an untried job. */
  ghost predicate IsLastHope(w: World, id: JobId) {
    && IsWaiting(w.db, id.message) && HasFreshJob(w, id)
    && id.event in w.db.outbox && w.db.outbox[id.event].published
    && forall e :: e in w.db.outbox && e != id.event ==> !LeadsTo(w, id.message, e)
  }

  /** Right after the drop a waiting message is stranded if and only if the job was its last hope. What the
      relays do next can strand more (`JobRemoval`). */
  lemma DroppingLosesExactly(w: World, id: JobId)
    requires Dispatching(w) && id in w.jobs
    ensures NoneStranded(DropJob(w, id)) <==> !IsLastHope(w, id)
  {
    var v := DropJob(w, id);
    assert forall m, e :: e in w.db.outbox && JobId(m, e) != id ==> (LeadsTo(v, m, e) <==> LeadsTo(w, m, e));
    if IsLastHope(w, id) {
      assert !WillBeTried(v, id.message);
    } else {
      DispatchingStrandsNone(w);
      forall m | IsWaiting(v.db, m) ensures WillBeTried(v, m) {
        var e :| e in w.db.outbox && LeadsTo(w, m, e);
        if JobId(m, e) == id && w.db.outbox[e].published {
          var other :| other in w.db.outbox && other != e && LeadsTo(w, m, other);
          assert LeadsTo(v, m, other);
        } else {
          assert LeadsTo(v, m, e);
        }
      }
    }
  }

  function QueuedEvent(m: MessageId): OutboxEvent {
    OutboxEvent(m, MessageQueued, MessagePayload(m), false, 0, None)
  }

  lemma AfterCreate(cfg: Config, m: MessageId)
    ensures var w := NextCreate(cfg, Init(0), m, "", 0, None);
      && w.db.outbox == map[0 := QueuedEvent(m)] && w.db.nextEvent == 1
      && HasStatus(w.db, m, Queued) && w.db.messages[m].retryRounds == 0 && w.db.clock == 0
      && w.jobs == map[] && w.relays == map[] && w.workers == map[]
  {
  }

  /** The message is the only one ever created, at time 0, and nothing has been done for it. */
  ghost predicate IsUntouched(cfg: Config, w: World, m: MessageId) {
    && m in w.db.messages && w.db.messages[m].retentionExpiresAt == RETENTION_MS
    && w.db.attempts == map[] && w.db.nextAttempt == 0 && w.db.resolutions == map[]
    && w.db.keys == map["" := KeyOwner(m, cfg.ttlMs)]
    && w.births == [Birth(m, "", 0)] && w.lastPurge == None
    && w.ops == map[] && w.calls == [] && (forall n :: n in w.ledger ==> n == m)
  }

  lemma CreatedIsUntouched(cfg: Config, m: MessageId)
    ensures IsUntouched(cfg, NextCreate(cfg, Init(0), m, "", 0, None), m)
  {
  }

  lemma AfterFetch(w: World, m: MessageId)
    requires w.db.outbox == map[0 := QueuedEvent(m)] && w.db.nextEvent == 1 && w.relays == map[]
    ensures NextFetch(w, 0, 1) == w.(relays := map[0 := Relay([Fetched(0, QueuedEvent(m))], false)])
  {
    assert FetchFrom(w.db, 1, 0) == [];
    assert FetchFrom(w.db, 0, 1) == [0];
    assert [0][1..] == [];
    assert FetchedRows(w.db, []) == [];
    assert FetchedRows(w.db, [0]) == [Fetched(0, QueuedEvent(m))];
  }

  lemma AfterAdd(w: World, m: MessageId)
    requires w.jobs == map[] && w.relays == map[0 := Relay([Fetched(0, QueuedEvent(m))], false)]
    ensures PublishEnabled(w, 0, Add)
    ensures var added := NextAdd(w, 0);
      && added.db == w.db && added.relays == map[0 := Relay([Fetched(0, QueuedEvent(m))], true)]
      && added.jobs == map[JobId(m, 0) := Job(DispatchQueue, DispatchJob, m, false)]
  {
    PlainEventDecodes(m, MessageQueued);
    assert QueueJobFor(QueuedEvent(m)).Ok?;
  }

  lemma AfterMark(added: World, m: MessageId)
    requires added.db.outbox == map[0 := QueuedEvent(m)]
    requires added.relays == map[0 := Relay([Fetched(0, QueuedEvent(m))], true)]
    ensures PublishEnabled(added, 0, Mark)
    ensures var v := NextMark(added, 0);
      && v.jobs == added.jobs && v.db.messages == added.db.messages
      && v.db.outbox == map[0 := QueuedEvent(m).(published := true)]
  {
  }

  lemma AfterAddAndMark(w: World, m: MessageId)
    requires w.db.outbox == map[0 := QueuedEvent(m)] && w.jobs == map[]
    requires w.relays == map[0 := Relay([Fetched(0, QueuedEvent(m))], false)]
    ensures PublishEnabled(w, 0, Add) && PublishEnabled(NextAdd(w, 0), 0, Mark)
    ensures var v := NextMark(NextAdd(w, 0), 0);
      && v.jobs == map[JobId(m, 0) := Job(DispatchQueue, DispatchJob, m, false)]
      && v.db.messages == w.db.messages
      && v.db.outbox == map[0 := QueuedEvent(m).(published := true)]
  {
    AfterAdd(w, m);
    AfterMark(NextAdd(w, 0), m);
  }

  /** Extending a run by one enabled action. */
  lemma {:induction false} RunExtends(cfg: Config, w: World, acts: seq<Action>, act: Action)
    requires IsRun(cfg, w, acts) && Enabled(cfg, After(cfg, w, acts), act)
    ensures IsRun(cfg, w, acts + [act])
    ensures After(cfg, w, acts + [act]) == Next(cfg, After(cfg, w, acts), act)
    decreases |acts|
  {
    if acts == [] {
      assert acts + [act] == [act] && [act][1..] == [];
      assert IsRun(cfg, Next(cfg, w, act), []);
    } else {
      assert (acts + [act])[0] == acts[0] && (acts + [act])[1..] == acts[1..] + [act];
      RunExtends(cfg, Next(cfg, w, acts[0]), acts[1..], act);
    }
  }

  /** One message is created, and its event is fetched, enqueued and marked. */
  function LosingRun(m: MessageId): seq<Action> {
    [] + [Create(m, "", 0, None)] + [Publish(0, Fetch(1))] + [Publish(0, Add)] + [Publish(0, Mark)]
  }

  lemma FirstHalf(cfg: Config, m: MessageId)
    ensures var acts := [] + [Create(m, "", 0, None)] + [Publish(0, Fetch(1))];
      && IsRun(cfg, Init(0), acts)
      && After(cfg, Init(0), acts) == NextFetch(NextCreate(cfg, Init(0), m, "", 0, None), 0, 1)
  {
    AfterCreate(cfg, m);
    RunExtends(cfg, Init(0), [], Create(m, "", 0, None));
    RunExtends(cfg, Init(0), [] + [Create(m, "", 0, None)], Publish(0, Fetch(1)));
  }

  lemma SecondHalf(cfg: Config, acts: seq<Action>, m: MessageId, w: World)
    requires IsRun(cfg, Init(0), acts) && After(cfg, Init(0), acts) == w
    requires PublishEnabled(w, 0, Add) && PublishEnabled(NextAdd(w, 0), 0, Mark)
    ensures IsRun(cfg, Init(0), acts + [Publish(0, Add)] + [Publish(0, Mark)])
    ensures After(cfg, Init(0), acts + [Publish(0, Add)] + [Publish(0, Mark)]) == NextMark(NextAdd(w, 0), 0)
  {
    RunExtends(cfg, Init(0), acts, Publish(0, Add));
    RunExtends(cfg, Init(0), acts + [Publish(0, Add)], Publish(0, Mark));
  }

  /** The message is queued, its event published, and its job waits in the queue. */
  ghost predicate IsPublished(w: World, m: MessageId) {
    && w.jobs == map[JobId(m, 0) := Job(DispatchQueue, DispatchJob, m, false)]
    && HasStatus(w.db, m, Queued) && w.db.messages[m].retryRounds == 0
    && w.db.outbox == map[0 := QueuedEvent(m).(published := true)]
    && w.workers == map[] && w.db.clock == 0
  }

  lemma AfterLosingRun(cfg: Config, m: MessageId)
    ensures IsRun(cfg, Init(0), LosingRun(m)) && IsPublished(After(cfg, Init(0), LosingRun(m)), m)
    ensures IsUntouched(cfg, After(cfg, Init(0), LosingRun(m)), m)
  {
    CreatedIsUntouched(cfg, m);
    var w1 := NextCreate(cfg, Init(0), m, "", 0, None);
    var w2 := NextFetch(w1, 0, 1);
    AfterCreate(cfg, m);
    AfterFetch(w1, m);
    FirstHalf(cfg, m);
    AfterAddAndMark(w2, m);
    SecondHalf(cfg, [] + [Create(m, "", 0, None)] + [Publish(0, Fetch(1))], m, w2);
  }

  predicate LosesByDrop(w: World, id: JobId, m: MessageId) {
    && id in w.jobs && IsWaiting(w.db, m)
    && JobsOnlyOf(w, id)
    && forall e :: e in w.db.outbox ==> w.db.outbox[e].published
  }

  predicate JobsOnlyOf(w: World, id: JobId) {
    forall other :: other in w.jobs ==> other == id
  }

  /** After such a drop no unpublished event and no job is left for the waiting message. */
  lemma DropStrands(w: World, id: JobId, m: MessageId)
    requires LosesByDrop(w, id, m)
    ensures IsWaiting(DropJob(w, id).db, m) && !WillBeTried(DropJob(w, id), m)
  {
  }

  lemma LosesAtLast(w: World, m: MessageId)
    requires IsPublished(w, m)
    ensures LosesByDrop(w, JobId(m, 0), m)
  {
  }

  /** A concrete run in which a message is lost: its first claim throws, as when the database is
      briefly down, and the failed job is removed from the queue. */
  lemma ThrowingClaimLosesMessage(cfg: Config, m: MessageId)
    ensures IsRun(cfg, Init(0), LosingRun(m))
    ensures var w := After(cfg, Init(0), LosingRun(m));
      && LosesByDrop(w, JobId(m, 0), m)
      && IsWaiting(DropJob(w, JobId(m, 0)).db, m) && !WillBeTried(DropJob(w, JobId(m, 0)), m)
  {
    AfterLosingRun(cfg, m);
    var w := After(cfg, Init(0), LosingRun(m));
    LosesAtLast(w, m);
    DropStrands(w, JobId(m, 0), m);
  }
}
