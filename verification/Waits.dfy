// How the wait for a provider's result ends when nobody reports one: the expiry job, from its event to the row.
module Waits {
  import opened StateMachine
  import opened Tables
  import opened Lifecycle
  import opened Outbox
  import opened Providers
  import opened Protocol
  import opened OutboxTheorems
  import opened Reachability
  import opened RelayRuns

  /** The expiry moves a message that awaits its provider to `UNDELIVERED` and touches nothing else; any other
      message, and a missing one, is left alone. */
  lemma ExpiryEffect(db: Db, m: MessageId)
    ensures var (after, expired) := ExpireAmbiguousOutcome(db, m);
      && (expired <==> m in db.messages && db.messages[m].status == AwaitingProviderResult)
      && (!expired ==> after == db)
      && (expired ==>
            && after == db.(messages := after.messages) && after.messages.Keys == db.messages.Keys
            && (forall n :: n in db.messages && n != m ==> after.messages[n] == db.messages[n])
            && after.messages[m] == db.messages[m].(
                 status := Undelivered, lastError := Some(AmbiguousOutcomeExpired), updatedAt := db.clock))
  {
  }

  /** The job does exactly that to its message, unless another processor of the queue swallows it. */
  lemma MaintenanceEffect(cfg: Config, w: World, job: JobId, effective: bool)
    requires Enabled(cfg, w, RunMaintenance(job, effective))
    ensures var v := Next(cfg, w, RunMaintenance(job, effective));
      var m := w.jobs[job].message;
      && v.jobs == w.jobs - {job}
      && (forall n :: n in w.db.messages ==>
            && n in v.db.messages
            && v.db.messages[n].providerMessageId == w.db.messages[n].providerMessageId
            && v.db.messages[n].status ==
                 if effective && n == m && w.db.messages[n].status == AwaitingProviderResult then Undelivered
                 else w.db.messages[n].status)
      && v.db.attempts == w.db.attempts && v.db.outbox == w.db.outbox && v.db.resolutions == w.db.resolutions
  {
    ExpiryEffect(w.db, w.jobs[job].message);
  }

  /** The message awaits its provider, and this job will end the wait. */
  ghost predicate IsExpiring(w: World, m: MessageId, job: JobId) {
    && HasStatus(w.db, m, AwaitingProviderResult)
    && job in w.jobs && w.jobs[job].queue == MaintenanceQueue && w.jobs[job].name == ExpiryJob && w.jobs[job].message == m
  }

  ghost predicate IsExpired(w: World, m: MessageId) {
    HasStatus(w.db, m, Undelivered) && w.db.messages[m].lastError == Some(AmbiguousOutcomeExpired)
  }

  /** Under every configuration with a provider a run leads from an ambiguous answer through the relay to the
      expiry job, and that job ends the wait. */
  lemma ExpiryEndsWait(cfg: Config, m: MessageId)
    requires cfg.providers != [] && cfg.expiryMs > 0
    ensures exists w, job :: IsReachable(cfg, w) && EndsWait(cfg, w, m, job)
  {
    var w := InFlightFirst(cfg, m);
    var parked := Park(cfg, w, m);
    var v, job := ExpiryIsQueued(cfg, parked, m, w.db.nextEvent);
    ExpiringEnds(cfg, v, m, job);
  }

  /** Running the job is enabled, and its message has expired afterwards. */
  ghost predicate EndsWait(cfg: Config, w: World, m: MessageId, job: JobId) {
    && IsExpiring(w, m, job) && Enabled(cfg, w, RunMaintenance(job, true))
    && IsExpired(Next(cfg, w, RunMaintenance(job, true)), m)
  }

  lemma ExpiringEnds(cfg: Config, w: World, m: MessageId, job: JobId)
    requires IsExpiring(w, m, job)
    ensures EndsWait(cfg, w, m, job)
  {
    ExpiryEffect(w.db, m);
  }

  /** The provider does not answer in time. */
  lemma Park(cfg: Config, w: World, m: MessageId) returns (v: World)
    requires IsReachable(cfg, w) && IsInFlight(w, m) && cfg.expiryMs > 0
    ensures IsReachable(cfg, v) && HasStatus(v.db, m, AwaitingProviderResult)
    ensures Appends(w.db, v.db, m, AmbiguousExpiryScheduled, DelayedPayload(m, cfg.expiryMs))
  {
    var answer := SendResult(false, None, None, true, Some(true));
    ReachNext(cfg, w, Work(0, CallProvider(answer, true)));
    var called := NextCall(w, 0, answer, true);
    ReachNext(cfg, called, Work(0, Finalize));
    v := NextFinalize(cfg, called, 0);
    Parked(cfg, called, m);
  }

  lemma Parked(cfg: Config, w: World, m: MessageId)
    requires 0 in w.workers && w.workers[0].message == m && w.workers[0].phase.Answered? && cfg.expiryMs > 0
    requires w.workers[0].phase.result == SendResult(false, None, None, true, Some(true))
    requires HasStatus(w.db, m, AwaitingProviderResult) && IsReservedFor(w.db, m, w.workers[0].phase.answered)
    ensures var v := NextFinalize(cfg, w, 0);
      HasStatus(v.db, m, AwaitingProviderResult)
      && Appends(w.db, v.db, m, AmbiguousExpiryScheduled, DelayedPayload(m, cfg.expiryMs))
  {
  }

  /** A relay enqueues the expiry. */
  lemma ExpiryIsQueued(cfg: Config, w: World, m: MessageId, e: EventId) returns (v: World, job: JobId)
    requires IsReachable(cfg, w) && HasStatus(w.db, m, AwaitingProviderResult) && cfg.expiryMs > 0
    requires e in w.db.outbox && e < w.db.nextEvent
    requires w.db.outbox[e] == OutboxEvent(m, AmbiguousExpiryScheduled, DelayedPayload(m, cfg.expiryMs), false, 0, None)
    ensures IsReachable(cfg, v) && IsExpiring(v, m, job)
  {
    v := Enqueue(cfg, w, m, e);
    ReachFurther(cfg, w, v);
    job := JobId(m, e);
    ReachableJob(cfg, v, job);
  }

  lemma Enqueue(cfg: Config, w: World, m: MessageId, e: EventId) returns (v: World)
    requires cfg.expiryMs > 0 && e in w.db.outbox && e < w.db.nextEvent
    requires w.db.outbox[e] == OutboxEvent(m, AmbiguousExpiryScheduled, DelayedPayload(m, cfg.expiryMs), false, 0, None)
    ensures GoesTo(cfg, w, v) && JobId(m, e) in v.jobs && v.db.messages == w.db.messages
    ensures e in v.db.outbox && v.db.outbox[e].eventType == AmbiguousExpiryScheduled
  {
    DelayedEventDecodes(m, AmbiguousExpiryScheduled, cfg.expiryMs);
    GoesNowhere(cfg, w);
    var front, r := BringToFront(cfg, w, w, e);
    AddAtFront(w, front, r, e);
    GoesNext(cfg, w, front, Publish(r, Add));
    v := NextAdd(front, r);
    assert OriginOf(v.db.outbox[e]) == OriginOf(w.db.outbox[e]);
  }

  /** Every job in a reachable world has the queue and the name of its event's type. */
  lemma ReachableJob(cfg: Config, w: World, id: JobId)
    requires IsReachable(cfg, w) && id in w.jobs && id.event in w.db.outbox
    requires w.db.outbox[id.event].eventType == AmbiguousExpiryScheduled
    ensures w.jobs[id].queue == MaintenanceQueue && w.jobs[id].name == ExpiryJob && w.jobs[id].message == id.message
  {
    var clock, acts :| IsRun(cfg, Init(clock), acts) && After(cfg, Init(clock), acts) == w;
    EveryJobIsRouted(cfg, clock, acts, id);
  }
}
