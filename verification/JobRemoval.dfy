// Exactly which job removals lose a message: after the removal of one job, as when its processing throws,
// every run keeps every waiting message alive if and only if another of its events still gives hope.
module JobRemoval {
  import opened Tables
  import opened Outbox
  import opened Protocol
  import opened Safety
  import opened SafetyTheorems
  import opened Dispatch
  import opened DispatchTheorems
  import opened Reachability
  import opened RelayRuns

  // --- The condition --------------------------------------------------------------------------------------

  /** Some relay has enqueued the event and will mark it next. */
  ghost predicate IsAboutToBeMarked(w: World, e: EventId) {
    exists r :: r in w.relays && w.relays[r].added && w.relays[r].batch != [] && w.relays[r].batch[0].id == e
  }

  /** Without job `id`, dispatch event `e` of its message will still be tried: it has another job that is
      untried, or it is unpublished with no other job, and no relay is about to mark it. */
  ghost predicate IsOtherHope(w: World, id: JobId, e: EventId) {
    var own := JobId(id.message, e);
    && e in w.db.outbox && w.db.outbox[e].aggregateId == id.message && IsDispatchType(w.db.outbox[e].eventType)
    && (|| (own != id && HasFreshJob(w, own))
        || (!w.db.outbox[e].published && (own == id || own !in w.jobs) && !IsAboutToBeMarked(w, e)))
  }

  /** The job's message waits, and nothing but the job keeps it alive. */
  ghost predicate Loses(w: World, id: JobId) {
    IsWaiting(w.db, id.message) && forall e :: !IsOtherHope(w, id, e)
  }

  /** Whatever happens from here on, no waiting message is ever stranded. */
  ghost predicate NeverStrands(cfg: Config, w: World) {
    forall later :: IsRun(cfg, w, later) ==> NoneStranded(After(cfg, w, later))
  }

  // --- The drop and the hopes ------------------------------------------------------------------------------

  lemma HopeAfterDrop(w: World, id: JobId, e: EventId)
    requires Origins(w)
    ensures GivesHope(DropJob(w, id), id.message, e) <==> IsOtherHope(w, id, e)
  {
    var own := JobId(id.message, e);
    if own in w.jobs {
      assert JobMatchesOrigin(w, own);
    }
  }

  /** The drop can lose only its own message. */
  lemma OthersKeepHope(w: World, id: JobId, m: MessageId)
    requires HasHope(w, m) && m != id.message
    ensures HasHope(DropJob(w, id), m)
  {
    var e :| GivesHope(w, m, e);
    assert GivesHope(DropJob(w, id), m, e);
  }

  lemma DropKeepsOrigins(w: World, id: JobId)
    requires Origins(w)
    ensures Origins(DropJob(w, id))
  {
    var v := DropJob(w, id);
    forall other | other in v.jobs ensures JobMatchesOrigin(v, other) {
      assert JobMatchesOrigin(w, other);
    }
    forall r, k | r in v.relays && 0 <= k < |v.relays[r].batch|
      ensures FetchedMatchesOrigin(v, v.relays[r].batch[k])
    {
      assert FetchedMatchesOrigin(w, w.relays[r].batch[k]);
    }
  }

  lemma DropKeepsDispatching(w: World, id: JobId)
    requires Dispatching(w) && !Loses(w, id)
    ensures Dispatching(DropJob(w, id))
  {
    var v := DropJob(w, id);
    DropKeepsOrigins(w, id);
    forall m | IsWaiting(v.db, m) ensures HasHope(v, m) {
      if m == id.message {
        var e :| IsOtherHope(w, id, e);
        HopeAfterDrop(w, id, e);
      } else {
        assert IsWaiting(w.db, m);
        OthersKeepHope(w, id, m);
      }
    }
  }

  // --- Without hope the relays lose the message ---------------------------------------------------------------

  ghost predicate IsHopeless(w: World, m: MessageId) {
    IsWaiting(w.db, m) && forall e :: !GivesHope(w, m, e)
  }

  predicate IsOpenEvent(db: Db, m: MessageId, e: EventId) {
    && e in db.outbox && db.outbox[e].aggregateId == m
    && IsDispatchType(db.outbox[e].eventType) && !db.outbox[e].published
  }

  function OpenEvents(db: Db, m: MessageId): set<EventId> {
    set e | e in db.outbox && IsOpenEvent(db, m, e)
  }

  /** A hopeless message with nothing left to publish is stranded. */
  lemma HopelessIsStranded(w: World, m: MessageId)
    requires IsHopeless(w, m) && OpenEvents(w.db, m) == {}
    ensures !NoneStranded(w)
  {
    forall e | e in w.db.outbox && LeadsTo(w, m, e) ensures false {
      assert e !in OpenEvents(w.db, m);
      assert GivesHope(w, m, e);
    }
    assert !WillBeTried(w, m);
  }

  /** A mark publishes its event and gives no hope. */
  lemma MarkTakesHope(w: World, m: MessageId, r: RelayId, e: EventId)
    requires IsHopeless(w, m) && IsOpenEvent(w.db, m, e)
    requires IsRelaying(w, r) && w.relays[r].added && w.relays[r].batch[0].id == e
    ensures var v := NextMark(w, r);
      IsHopeless(v, m) && OpenEvents(v.db, m) == OpenEvents(w.db, m) - {e}
  {
    var v := NextMark(w, r);
    forall d ensures !GivesHope(v, m, d) {
      if GivesHope(v, m, d) {
        MarkedHopeIsOld(w, m, r, d);
      }
    }
    forall d ensures d in OpenEvents(v.db, m) <==> d in OpenEvents(w.db, m) && d != e {
      assert IsOpenEvent(v.db, m, d) <==> IsOpenEvent(w.db, m, d) && d != e;
    }
  }

  lemma MarkedHopeIsOld(w: World, m: MessageId, r: RelayId, e: EventId)
    requires PublishEnabled(w, r, Mark) && GivesHope(NextMark(w, r), m, e)
    ensures GivesHope(w, m, e)
  {
    var v := NextMark(w, r);
    forall q | q in w.relays && w.relays[q].added && w.relays[q].batch != [] && w.relays[q].batch[0].id == e
      ensures JobId(m, e) in w.jobs
    {
      assert q != r ==> v.relays[q] == w.relays[q];
      assert q == r ==> v.db.outbox[e].published;
    }
  }

  lemma HopeIsOld(w: World, v: World, m: MessageId, r: RelayId, e: EventId)
    requires GivesHope(v, m, e) && r !in w.relays && r in v.relays && v.relays == w.relays[r := v.relays[r]]
    requires v.jobs == w.jobs && SameMarks(w.db, v.db)
    ensures GivesHope(w, m, e)
  {
    assert OriginOf(v.db.outbox[e]) == OriginOf(w.db.outbox[e]);
    forall q | q in w.relays && w.relays[q].added && w.relays[q].batch != [] && w.relays[q].batch[0].id == e
      ensures JobId(m, e) in w.jobs
    {
      assert v.relays[q] == w.relays[q];
    }
  }

  /** Fetching, noting failures, and enqueueing what is in the queue give no hope. */
  lemma RelayingGivesNoHope(w: World, v: World, m: MessageId, r: RelayId)
    requires IsHopeless(w, m) && r !in w.relays && r in v.relays && v.relays == w.relays[r := v.relays[r]]
    requires v.jobs == w.jobs && SameMarks(w.db, v.db)
    ensures IsHopeless(v, m) && OpenEvents(v.db, m) == OpenEvents(w.db, m)
  {
    forall d ensures !GivesHope(v, m, d) {
      if GivesHope(v, m, d) {
        HopeIsOld(w, v, m, r, d);
      }
    }
    forall d ensures d in OpenEvents(v.db, m) <==> d in OpenEvents(w.db, m) {
      assert IsOpenEvent(v.db, m, d) <==> IsOpenEvent(w.db, m, d);
    }
  }

  /** An unpublished event of a hopeless message has a relay that is about to mark it, or gets one. */
  lemma ReadyToMark(cfg: Config, u: World, w: World, m: MessageId, e: EventId) returns (v: World, r: RelayId)
    requires GoesTo(cfg, u, w) && IsHopeless(w, m) && IsOpenEvent(w.db, m, e)
    requires AllWellFormed(w.db) && e < w.db.nextEvent
    ensures GoesTo(cfg, u, v) && IsHopeless(v, m) && IsOpenEvent(v.db, m, e) && OpenEvents(v.db, m) == OpenEvents(w.db, m)
    ensures IsRelaying(v, r) && v.relays[r].added && v.relays[r].batch[0].id == e
    ensures SameMarks(w.db, v.db)
  {
    if IsAboutToBeMarked(w, e) {
      r :| r in w.relays && w.relays[r].added && w.relays[r].batch != [] && w.relays[r].batch[0].id == e;
      v := w;
    } else {
      assert !GivesHope(w, m, e);
      assert JobId(m, e) in w.jobs;
      var front;
      front, r := BringToFront(cfg, u, w, e);
      AddAtFront(w, front, r, e);
      GoesNext(cfg, u, front, Publish(r, Add));
      v := NextAdd(front, r);
      RelayingGivesNoHope(w, v, m, r);
    }
  }

  lemma SameMarksWellFormed(db: Db, after: Db)
    requires SameMarks(db, after) && AllWellFormed(db)
    ensures AllWellFormed(after)
  {
    forall e | e in after.outbox ensures WellFormed(after.outbox[e]) {
      assert WellFormed(db.outbox[e]);
      assert QueueJobFor(after.outbox[e]) == QueueJobFor(db.outbox[e]);
    }
  }

  lemma MarkedWellFormed(w: World, r: RelayId)
    requires PublishEnabled(w, r, Mark) && AllWellFormed(w.db) && ForeignEvents(w.db)
    ensures AllWellFormed(NextMark(w, r).db) && ForeignEvents(NextMark(w, r).db)
  {
    var e := w.relays[r].batch[0].id;
    MarkedIsWellFormed(w.db, NextMark(w, r).db, e, NextMark(w, r).db.outbox[e]);
  }

  lemma PublishOne(cfg: Config, u: World, w: World, m: MessageId, e: EventId) returns (v: World)
    requires GoesTo(cfg, u, w) && IsHopeless(w, m) && AllWellFormed(w.db) && ForeignEvents(w.db)
    requires e in OpenEvents(w.db, m)
    ensures GoesTo(cfg, u, v) && IsHopeless(v, m) && AllWellFormed(v.db) && ForeignEvents(v.db)
    ensures OpenEvents(v.db, m) == OpenEvents(w.db, m) - {e}
  {
    var ready, r := ReadyToMark(cfg, u, w, m, e);
    SameMarksWellFormed(w.db, ready.db);
    GoesNext(cfg, u, ready, Publish(r, Mark));
    v := NextMark(ready, r);
    MarkTakesHope(ready, m, r, e);
    MarkedWellFormed(ready, r);
  }

  /** From a hopeless message, publication after publication leads to one that is stranded. */
  lemma {:induction false} HopelessGetsStranded(cfg: Config, u: World, w: World, m: MessageId)
    requires GoesTo(cfg, u, w) && IsHopeless(w, m) && AllWellFormed(w.db) && ForeignEvents(w.db)
    ensures exists v :: GoesTo(cfg, u, v) && !NoneStranded(v)
    decreases |OpenEvents(w.db, m)|
  {
    if OpenEvents(w.db, m) == {} {
      HopelessIsStranded(w, m);
    } else {
      var e :| e in OpenEvents(w.db, m);
      var v := PublishOne(cfg, u, w, m, e);
      HopelessGetsStranded(cfg, u, v, m);
    }
  }

  lemma LosingDropStrands(cfg: Config, w: World, id: JobId)
    requires Dispatching(w) && Loses(w, id)
    ensures !NeverStrands(cfg, DropJob(w, id))
  {
    var u := DropJob(w, id);
    forall e ensures !GivesHope(u, id.message, e) {
      HopeAfterDrop(w, id, e);
    }
    GoesNowhere(cfg, u);
    HopelessGetsStranded(cfg, u, u, id.message);
    var v :| GoesTo(cfg, u, v) && !NoneStranded(v);
    var later :| HasNoRecovery(later) && IsRun(cfg, u, later) && After(cfg, u, later) == v;
  }

  lemma HarmlessDropStrandsNone(cfg: Config, w: World, id: JobId)
    requires Safe(w) && Dispatching(w) && !Loses(w, id)
    ensures NeverStrands(cfg, DropJob(w, id))
  {
    var u := DropJob(w, id);
    DropKeepsDispatching(w, id);
    DropKeepsSafe(w, id);
    forall later | IsRun(cfg, u, later) ensures NoneStranded(After(cfg, u, later)) {
      RunKeepsDispatching(cfg, u, later);
      DispatchingStrandsNone(After(cfg, u, later));
    }
  }

  lemma DropKeepsSafe(w: World, id: JobId)
    requires Safe(w)
    ensures Safe(DropJob(w, id))
  {
  }

  /** After every run: the removal of a job never leads to a stranded message, whatever happens later, if and
      only if it does not lose the job's message. */
  lemma RunsLoseExactly(cfg: Config, clock: Time, acts: seq<Action>, id: JobId)
    requires IsRun(cfg, Init(clock), acts) && id in After(cfg, Init(clock), acts).jobs
    ensures var w := After(cfg, Init(clock), acts); NeverStrands(cfg, DropJob(w, id)) <==> !Loses(w, id)
  {
    var w := After(cfg, Init(clock), acts);
    InitIsSafe(clock);
    RunKeepsSafe(cfg, Init(clock), acts);
    RunKeepsDispatching(cfg, Init(clock), acts);
    if Loses(w, id) {
      LosingDropStrands(cfg, w, id);
    } else {
      HarmlessDropStrandsNone(cfg, w, id);
    }
  }
}
