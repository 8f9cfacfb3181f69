// The round counter and its delays, read off the outbox: the retry events of a message since its last
// requeue are its rounds, and their payloads hold the delays.
module Rounds {
  import opened StateMachine
  import opened Tables
  import opened Lifecycle
  import opened Persistence
  import opened Retention
  import opened Providers
  import opened Outbox
  import opened Protocol
  import opened Safety
  import opened SafetyTheorems
  import opened Accounting

  // --- Reading the outbox ---------------------------------------------------------------------------------

  predicate IsEventOf(outbox: map<EventId, OutboxEvent>, e: EventId, m: MessageId, t: EventType) {
    e in outbox && outbox[e].aggregateId == m && outbox[e].eventType == t
  }

  /** The retry events of `m` below `n` that no requeue event of `m` below `n` follows. */
  function RetriesSince(outbox: map<EventId, OutboxEvent>, m: MessageId, n: nat): set<EventId> {
    set e: nat | 0 <= e < n && IsEventOf(outbox, e, m, RetryDue) && NoRequeueAfter(outbox, m, e, n)
  }

  predicate NoRequeueAfter(outbox: map<EventId, OutboxEvent>, m: MessageId, e: EventId, n: nat) {
    forall f: nat :: e < f < n ==> !IsEventOf(outbox, f, m, Requeued)
  }

  /** The delay that the payload of an event asks for. */
  function DelayOf(event: OutboxEvent): nat {
    match ReadDispatchPayload(event.payload)
    case Ok(payload) => if payload.delayMs.Some? && payload.delayMs.value >= 0 then payload.delayMs.value else 0
    case Bad(_) => 0
  }

  /** The sum of those delays over the given events below `n`. */
  function DelaySum(outbox: map<EventId, OutboxEvent>, events: set<EventId>, n: nat): nat {
    if n == 0 then 0
    else DelaySum(outbox, events, n - 1) + if n - 1 in events && n - 1 in outbox then DelayOf(outbox[n - 1]) else 0
  }

  /** The same sum over `RetriesSince`, event by event. */
  function DelaysSince(outbox: map<EventId, OutboxEvent>, m: MessageId, n: nat): nat {
    if n == 0 || IsEventOf(outbox, n - 1, m, Requeued) then 0
    else DelaysSince(outbox, m, n - 1) + if IsEventOf(outbox, n - 1, m, RetryDue) then DelayOf(outbox[n - 1]) else 0
  }

  /** One more event number: a requeue clears, a retry counts, everything else passes. */
  lemma RetriesStep(outbox: map<EventId, OutboxEvent>, m: MessageId, n: nat)
    requires n > 0
    ensures |RetriesSince(outbox, m, n)| ==
      if IsEventOf(outbox, n - 1, m, Requeued) then 0
      else |RetriesSince(outbox, m, n - 1)| + One(IsEventOf(outbox, n - 1, m, RetryDue))
  {
    var before := RetriesSince(outbox, m, n - 1);
    if IsEventOf(outbox, n - 1, m, Requeued) {
      assert forall e: nat :: e < n - 1 ==> !NoRequeueAfter(outbox, m, e, n);
      assert RetriesSince(outbox, m, n) == {};
    } else if IsEventOf(outbox, n - 1, m, RetryDue) {
      SameRequeues(outbox, m, n);
      assert RetriesSince(outbox, m, n) == before + {n - 1};
    } else {
      SameRequeues(outbox, m, n);
      assert RetriesSince(outbox, m, n) == before;
    }
  }

  lemma SameRequeues(outbox: map<EventId, OutboxEvent>, m: MessageId, n: nat)
    requires n > 0 && !IsEventOf(outbox, n - 1, m, Requeued)
    ensures forall e: nat :: e < n - 1 ==> (NoRequeueAfter(outbox, m, e, n) <==> NoRequeueAfter(outbox, m, e, n - 1))
  {
    forall e: nat | e < n - 1 && NoRequeueAfter(outbox, m, e, n - 1) ensures NoRequeueAfter(outbox, m, e, n) {
      forall f: nat | e < f < n ensures !IsEventOf(outbox, f, m, Requeued) {
        assert f < n - 1 ==> !IsEventOf(outbox, f, m, Requeued);
      }
    }
  }

  lemma {:induction false} SameSum(outbox: map<EventId, OutboxEvent>, a: set<EventId>, b: set<EventId>, n: nat)
    requires forall e: nat :: e < n ==> (e in a <==> e in b)
    ensures DelaySum(outbox, a, n) == DelaySum(outbox, b, n)
  {
    if n > 0 {
      SameSum(outbox, a, b, n - 1);
    }
  }

  /** The step-by-step reading adds up exactly the retry events since the last requeue. */
  lemma {:induction false} DelaysAreSummed(outbox: map<EventId, OutboxEvent>, m: MessageId, n: nat)
    ensures DelaysSince(outbox, m, n) == DelaySum(outbox, RetriesSince(outbox, m, n), n)
  {
    if n > 0 {
      var events := RetriesSince(outbox, m, n);
      if IsEventOf(outbox, n - 1, m, Requeued) {
        RetriesStep(outbox, m, n);
        NothingToSum(outbox, events, n);
      } else {
        DelaysAreSummed(outbox, m, n - 1);
        SameRequeues(outbox, m, n);
        SameSum(outbox, events, RetriesSince(outbox, m, n - 1), n - 1);
      }
    }
  }

  lemma {:induction false} NothingToSum(outbox: map<EventId, OutboxEvent>, events: set<EventId>, n: nat)
    requires |events| == 0
    ensures DelaySum(outbox, events, n) == 0
  {
    if n > 0 {
      NothingToSum(outbox, events, n - 1);
    }
  }

  /** The rounds and the delays depend on the types and payloads of the message's own events only. */
  ghost predicate SameStory(before: map<EventId, OutboxEvent>, after: map<EventId, OutboxEvent>, m: MessageId, n: nat) {
    forall e: nat :: e < n ==>
      && (e in after && after[e].aggregateId == m <==> e in before && before[e].aggregateId == m)
      && (e in after && after[e].aggregateId == m ==>
            after[e].eventType == before[e].eventType && after[e].payload == before[e].payload)
  }

  lemma {:induction false} SameStorySameRounds(before: map<EventId, OutboxEvent>, after: map<EventId, OutboxEvent>,
                                               m: MessageId, n: nat)
    requires SameStory(before, after, m, n)
    ensures |RetriesSince(after, m, n)| == |RetriesSince(before, m, n)|
    ensures DelaysSince(after, m, n) == DelaysSince(before, m, n)
  {
    if n > 0 {
      SameStorySameRounds(before, after, m, n - 1);
      RetriesStep(before, m, n);
      RetriesStep(after, m, n);
      assert SameStory(before, after, m, n - 1);
      assert IsEventOf(before, n - 1, m, Requeued) <==> IsEventOf(after, n - 1, m, Requeued);
      assert IsEventOf(before, n - 1, m, RetryDue) <==> IsEventOf(after, n - 1, m, RetryDue);
    } else {
      assert RetriesSince(after, m, 0) == {} == RetriesSince(before, m, 0);
    }
  }

  // --- The invariant -----------------------------------------------------------------------------------------

  /** The outbox tells the rounds and delays that the books hold. */
  ghost predicate Tells(db: Db, m: MessageId, rounds: nat, delays: nat) {
    && |RetriesSince(db.outbox, m, db.nextEvent)| == rounds
    && DelaysSince(db.outbox, m, db.nextEvent) == delays
  }

  ghost predicate RoundsTold(w: World) {
    forall m :: m in w.db.messages ==>
      m in w.ledger && Tells(w.db, m, w.ledger[m].retriesSinceRequeue, w.ledger[m].delaySinceRequeue)
  }

  ghost predicate KeepsRounds(w: World, v: World, m: MessageId) {
    && m in w.db.messages && m in w.ledger && m in v.ledger
    && v.ledger[m].retriesSinceRequeue == w.ledger[m].retriesSinceRequeue
    && v.ledger[m].delaySinceRequeue == w.ledger[m].delaySinceRequeue
  }

  /** No event of a surviving message is written. */
  lemma SilentRounds(w: World, v: World)
    requires RoundsTold(w) && v.db.nextEvent == w.db.nextEvent
    requires forall m :: m in v.db.messages ==> KeepsRounds(w, v, m) && SameStory(w.db.outbox, v.db.outbox, m, w.db.nextEvent)
    ensures RoundsTold(v)
  {
    forall m | m in v.db.messages
      ensures m in v.ledger && Tells(v.db, m, v.ledger[m].retriesSinceRequeue, v.ledger[m].delaySinceRequeue)
    {
      SameStorySameRounds(w.db.outbox, v.db.outbox, m, w.db.nextEvent);
    }
  }

  /** What one appended event of type `t` makes of a story. */
  function RoundsAfter(rounds: nat, t: EventType): nat {
    if t == Requeued then 0 else if t == RetryDue then rounds + 1 else rounds
  }

  function DelaysAfter(delays: nat, t: EventType, delayMs: nat): nat {
    if t == Requeued then 0 else if t == RetryDue then delays + delayMs else delays
  }

  lemma AppendedStory(db: Db, after: Db, m0: MessageId, t: EventType, payload: Json, m: MessageId, rounds: nat, delays: nat)
    requires Appends(db, after, m0, t, payload) && Tells(db, m, rounds, delays)
    ensures m != m0 ==> Tells(after, m, rounds, delays)
    ensures m == m0 ==>
      Tells(after, m, RoundsAfter(rounds, t), DelaysAfter(delays, t, DelayOf(OutboxEvent(m0, t, payload, false, 0, None))))
  {
    var n := db.nextEvent;
    assert SameStory(db.outbox, after.outbox, m, n);
    SameStorySameRounds(db.outbox, after.outbox, m, n);
    RetriesStep(after.outbox, m, n + 1);
  }

  /** A step on `m0` that writes one event, and books it. */
  lemma WritingRounds(w: World, v: World, m0: MessageId, t: EventType, payload: Json)
    requires RoundsTold(w) && ConcernsOnly(w, v, m0) && Appends(w.db, v.db, m0, t, payload)
    requires m0 in w.db.messages && m0 in v.ledger
    requires v.ledger[m0].retriesSinceRequeue == RoundsAfter(w.ledger[m0].retriesSinceRequeue, t)
    requires v.ledger[m0].delaySinceRequeue
          == DelaysAfter(w.ledger[m0].delaySinceRequeue, t, DelayOf(OutboxEvent(m0, t, payload, false, 0, None)))
    ensures RoundsTold(v)
  {
    forall m | m in v.db.messages
      ensures m in v.ledger && Tells(v.db, m, v.ledger[m].retriesSinceRequeue, v.ledger[m].delaySinceRequeue)
    {
      AppendedStory(w.db, v.db, m0, t, payload, m, w.ledger[m].retriesSinceRequeue, w.ledger[m].delaySinceRequeue);
    }
  }

  lemma DelayIsRead(m: MessageId, t: EventType, delayMs: nat)
    ensures DelayOf(OutboxEvent(m, t, DelayedPayload(m, delayMs), false, 0, None)) == delayMs
  {
    PayloadRoundTrip(m, delayMs);
  }

  // --- Every action ----------------------------------------------------------------------------------------------

  /** A fresh message has no story. */
  lemma {:induction false} NoStoryYet(db: Db, m: MessageId, n: nat)
    requires ForeignKeys(db) && m !in db.messages
    ensures |RetriesSince(db.outbox, m, n)| == 0 && DelaysSince(db.outbox, m, n) == 0
  {
    assert forall e, t :: !IsEventOf(db.outbox, e, m, t);
    assert RetriesSince(db.outbox, m, n) == {};
    if n > 0 {
      NoStoryYet(db, m, n - 1);
    }
  }

  lemma CreateKeepsRounds(cfg: Config, w: World, newId: MessageId, key: string, now: Time, owner: Option<KeyOwner>)
    requires RoundsTold(w) && ForeignKeys(w.db) && Enabled(cfg, w, Create(newId, key, now, owner))
    ensures RoundsTold(NextCreate(cfg, w, newId, key, now, owner))
  {
    var r := CreateCommit(w.db, newId, key, now, cfg.ttlMs, owner).1;
    if r.Created? {
      CreateOthers(cfg, w, newId, key, now, owner);
      CreatedRounds(w, NextCreate(cfg, w, newId, key, now, owner), newId);
    }
  }

  lemma CreatedRounds(w: World, v: World, newId: MessageId)
    requires RoundsTold(w) && ForeignKeys(w.db) && newId !in w.db.messages && ConcernsOnly(w, v, newId)
    requires Appends(w.db, v.db, newId, MessageQueued, MessagePayload(newId))
    requires newId in v.ledger && v.ledger[newId].retriesSinceRequeue == 0 && v.ledger[newId].delaySinceRequeue == 0
    ensures RoundsTold(v)
  {
    NoStoryYet(w.db, newId, w.db.nextEvent);
    forall m | m in v.db.messages
      ensures m in v.ledger && Tells(v.db, m, v.ledger[m].retriesSinceRequeue, v.ledger[m].delaySinceRequeue)
    {
      AppendedStory(w.db, v.db, newId, MessageQueued, MessagePayload(newId), m,
                    v.ledger[m].retriesSinceRequeue, v.ledger[m].delaySinceRequeue);
    }
  }

  lemma DecideKeepsRounds(cfg: Config, w: World, id: WorkerId)
    requires RoundsTold(w) && DecidersAreSound(w) && WorkEnabled(cfg, w, id, Decide)
    ensures RoundsTold(NextDecide(cfg, w, id))
  {
    DecideOthers(cfg, w, id);
    DecidedRounds(cfg, w, NextDecide(cfg, w, id), w.workers[id]);
  }

  lemma DecidedRounds(cfg: Config, w: World, v: World, worker: Worker)
    requires RoundsTold(w) && ConcernsOnly(w, v, worker.message)
    requires v.db == GuardedCommit(w.db, worker.message, Processing, DecisionTarget(cfg, worker), DecisionPatch(cfg, worker)).0
    requires !HasStatus(w.db, worker.message, Processing) ==> v.ledger == w.ledger
    requires HasStatus(w.db, worker.message, Processing) ==>
      && worker.message in v.ledger
      && v.ledger[worker.message] == DecidedBook(cfg, worker, BookOf(w, worker.message))
    ensures RoundsTold(v)
  {
    var m := worker.message;
    var patch := DecisionPatch(cfg, worker);
    if !HasStatus(w.db, m, Processing) {
      SilentRounds(w, v);
    } else if RetriesAgain(cfg, worker) {
      DelayIsRead(m, RetryDue, patch.delayMs);
      WritingRounds(w, v, m, RetryDue, DelayedPayload(m, patch.delayMs));
    } else {
      WritingRounds(w, v, m, DeadLettered, MessagePayload(m));
    }
  }

  lemma FinalizeKeepsRounds(cfg: Config, w: World, id: WorkerId)
    requires RoundsTold(w) && WorkEnabled(cfg, w, id, Finalize)
    ensures RoundsTold(NextFinalize(cfg, w, id))
  {
    var worker := w.workers[id];
    var input := AnswerOf(worker.phase.result, cfg.expiryMs);
    FinalizedRounds(w, NextFinalize(cfg, w, id), worker.message, worker.phase.answered, input);
  }

  lemma FinalizedRounds(w: World, v: World, m0: MessageId, a: AttemptId, input: FinalizeInput)
    requires RoundsTold(w) && v.ledger == w.ledger && v.db == FinalizeProviderAttempt(w.db, m0, a, input).0
    ensures RoundsTold(v)
  {
    var r := FinalizeProviderAttempt(w.db, m0, a, input).1;
    if r.Finalized? && input.FailedWith? && input.isAmbiguous {
      forall m | m in v.db.messages
        ensures m in v.ledger && Tells(v.db, m, v.ledger[m].retriesSinceRequeue, v.ledger[m].delaySinceRequeue)
      {
        AppendedStory(w.db, v.db, m0, AmbiguousExpiryScheduled, DelayedPayload(m0, input.expiryMs.value), m,
                      w.ledger[m].retriesSinceRequeue, w.ledger[m].delaySinceRequeue);
      }
    } else {
      SilentRounds(w, v);
    }
  }

  lemma ClaimKeepsRounds(w: World, id: WorkerId, job: JobId)
    requires RoundsTold(w) && job in w.jobs && id !in w.workers
    ensures RoundsTold(NextClaim(w, job, id))
  {
    ClaimEffect(w, id, job);
    SilentRounds(w, NextClaim(w, job, id));
  }

  lemma WorkKeepsRounds(cfg: Config, w: World, id: WorkerId, step: WorkerStep)
    requires RoundsTold(w) && Safe(w) && WorkEnabled(cfg, w, id, step)
    ensures RoundsTold(NextWork(cfg, w, id, step))
  {
    match step
    case Claim(job) => ClaimKeepsRounds(w, id, job);
    case Finalize => FinalizeKeepsRounds(cfg, w, id);
    case Decide => DecideKeepsRounds(cfg, w, id);
    case _ => SilentRounds(w, NextWork(cfg, w, id, step));
  }

  lemma RecoverKeepsRounds(w: World, m: MessageId, cutoff: Time)
    requires RoundsTold(w)
    ensures RoundsTold(NextRecover(w, m, cutoff))
  {
    if RecoverOne(w.db, m, cutoff).1 {
      RecoverOthers(w, m, cutoff);
      WritingRounds(w, NextRecover(w, m, cutoff), m, ProcessingRecovered, MessagePayload(m));
    }
  }

  lemma RequeueKeepsRounds(w: World, m: MessageId)
    requires RoundsTold(w)
    ensures RoundsTold(NextRequeue(w, m))
  {
    if HasStatus(w.db, m, FatalFailure) {
      RequeueOthers(w, m);
      WritingRounds(w, NextRequeue(w, m), m, Requeued, MessagePayload(m));
    }
  }

  lemma OperateKeepsRounds(w: World, step: OperatorStep)
    requires RoundsTold(w) && Safe(w) && OperateEnabled(w, step)
    ensures RoundsTold(NextOperate(w, step))
  {
    match step
    case Recover(m, cutoff) => RecoverKeepsRounds(w, m, cutoff);
    case Requeue(m) => RequeueKeepsRounds(w, m);
    case CommitOp(op) => OpStanding(w, op); SilentRounds(w, NextCommitOp(w, op));
    case _ => SilentRounds(w, NextOperate(w, step));
  }

  lemma PublishKeepsRounds(w: World, r: RelayId, step: RelayStep)
    requires RoundsTold(w) && PublishEnabled(w, r, step)
    ensures RoundsTold(NextPublish(w, r, step))
  {
    PublishSameOrigins(w, r, step);
    SilentRounds(w, NextPublish(w, r, step));
  }

  lemma PurgeKeepsRounds(w: World, ids: set<MessageId>, now: Time)
    requires RoundsTold(w)
    ensures RoundsTold(NextPurge(w, ids, now))
  {
    PurgeIsExact(w.db, ids);
    SilentRounds(w, NextPurge(w, ids, now));
  }

  lemma MaintenanceKeepsRounds(w: World, job: JobId, effective: bool)
    requires RoundsTold(w) && job in w.jobs
    ensures RoundsTold(NextMaintenance(w, job, effective))
  {
    ExpireStanding(w.db, w.jobs[job].message);
    SilentRounds(w, NextMaintenance(w, job, effective));
  }

  lemma NextKeepsRounds(cfg: Config, w: World, act: Action)
    requires RoundsTold(w) && Safe(w) && Enabled(cfg, w, act)
    ensures RoundsTold(Next(cfg, w, act))
  {
    match act
    case Create(newId, key, now, owner) => CreateKeepsRounds(cfg, w, newId, key, now, owner);
    case Work(id, step) => WorkKeepsRounds(cfg, w, id, step);
    case Operate(step) => OperateKeepsRounds(w, step);
    case Publish(r, step) => PublishKeepsRounds(w, r, step);
    case PurgeBatch(ids, now) => PurgeKeepsRounds(w, ids, now);
    case RunMaintenance(job, effective) => MaintenanceKeepsRounds(w, job, effective);
    case RemoveJob(job) => SilentRounds(w, Next(cfg, w, act));
    case Tick(ms) => SilentRounds(w, Next(cfg, w, act));
  }

  lemma {:induction false} RunKeepsRounds(cfg: Config, w: World, acts: seq<Action>)
    requires RoundsTold(w) && Safe(w) && IsRun(cfg, w, acts)
    ensures RoundsTold(After(cfg, w, acts))
    decreases |acts|
  {
    if acts != [] {
      NextKeepsSafe(cfg, w, acts[0]);
      NextKeepsRounds(cfg, w, acts[0]);
      RunKeepsRounds(cfg, Next(cfg, w, acts[0]), acts[1..]);
    }
  }
}
