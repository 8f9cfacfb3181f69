// Runs of one new relay: it can be brought to the front of any unpublished event, touching nothing but
// failure notes on the way.
module RelayRuns {
  import opened Tables
  import opened Lifecycle
  import opened Outbox
  import opened Protocol
  import opened Reachability
  import Drain

  lemma {:induction false} UnusedId(ids: set<nat>) returns (id: nat)
    ensures forall other :: other in ids ==> other < id
  {
    if ids == {} {
      id := 0;
    } else {
      var one :| one in ids;
      var rest := UnusedId(ids - {one});
      id := if one < rest then rest else one + 1;
      forall other | other in ids ensures other < id {
        assert other == one || other in ids - {one};
      }
    }
  }

  /** The same events with the same publication marks; failure notes may differ. */
  ghost predicate SameMarks(db: Db, after: Db) {
    && after == db.(outbox := after.outbox)
    && (forall e :: e in after.outbox <==> e in db.outbox)
    && (forall e :: e in db.outbox ==>
          && OriginOf(after.outbox[e]) == OriginOf(db.outbox[e])
          && after.outbox[e].payload == db.outbox[e].payload
          && after.outbox[e].published == db.outbox[e].published)
  }

  /** Only relay `r` has acted, and all it did was to fetch, or to note failures. */
  ghost predicate OnlyRelayed(w: World, v: World, r: RelayId) {
    && r !in w.relays && r in v.relays && v.relays == w.relays[r := v.relays[r]]
    && SameMarks(w.db, v.db) && v == w.(db := v.db, relays := v.relays)
  }

  /** Relay `r` has `event` first in its batch, not yet enqueued. */
  predicate IsAt(v: World, r: RelayId, e: EventId, event: OutboxEvent) {
    IsRelaying(v, r) && !v.relays[r].added && v.relays[r].batch[0] == Fetched(e, event)
  }

  predicate IsListed(db: Db, batch: seq<Fetched>) {
    forall k :: 0 <= k < |batch| ==> batch[k].id in db.outbox
  }

  /** `v` after noting the failure of the first `k` events of the batch of `r`. */
  function Skip(v: World, r: RelayId, k: nat): World
    requires r in v.relays && k <= |v.relays[r].batch| && IsListed(v.db, v.relays[r].batch)
    ensures Skip(v, r, k).db.outbox.Keys == v.db.outbox.Keys
    ensures r in Skip(v, r, k).relays
    ensures k > 0 ==> Skip(v, r, k).relays[r] == Relay(v.relays[r].batch[k..], false)
  {
    if k == 0 then v else FailFirst(Skip(v, r, k - 1), r, true)
  }

  lemma SkipStep(w: World, v: World, r: RelayId)
    requires OnlyRelayed(w, v, r) && IsRelaying(v, r) && v.relays[r].batch[0].id in v.db.outbox
    ensures OnlyRelayed(w, FailFirst(v, r, true), r)
  {
  }

  lemma {:induction false} SkipShape(w: World, v: World, r: RelayId, k: nat)
    requires OnlyRelayed(w, v, r) && k <= |v.relays[r].batch| && IsListed(v.db, v.relays[r].batch)
    ensures OnlyRelayed(w, Skip(v, r, k), r)
  {
    if k > 0 {
      SkipShape(w, v, r, k - 1);
      SkipStep(w, Skip(v, r, k - 1), r);
    }
  }

  lemma {:induction false} GoesSkipping(cfg: Config, u: World, v: World, r: RelayId, k: nat)
    requires GoesTo(cfg, u, v) && r in v.relays && k <= |v.relays[r].batch| && IsListed(v.db, v.relays[r].batch)
    ensures GoesTo(cfg, u, Skip(v, r, k))
  {
    if k == 0 {
      assert Skip(v, r, 0) == v;
    } else {
      GoesSkipping(cfg, u, v, r, k - 1);
      GoesSkippingOne(cfg, u, v, r, k);
    }
  }

  lemma GoesSkippingOne(cfg: Config, u: World, v: World, r: RelayId, k: nat)
    requires r in v.relays && 0 < k <= |v.relays[r].batch| && IsListed(v.db, v.relays[r].batch)
    requires GoesTo(cfg, u, Skip(v, r, k - 1))
    ensures GoesTo(cfg, u, Skip(v, r, k))
  {
    var w, next := Skip(v, r, k - 1), Skip(v, r, k);
    SkipIsRelaying(v, r, k - 1);
    SkipIsNoting(v, r, k);
    GoesNoting(cfg, u, w, r, next);
  }

  lemma GoesNoting(cfg: Config, u: World, v: World, r: RelayId, next: World)
    requires GoesTo(cfg, u, v) && IsRelaying(v, r) && next == FailFirst(v, r, true)
    ensures GoesTo(cfg, u, next)
  {
    GoesNext(cfg, u, v, Publish(r, NoteFailure(true)));
  }

  lemma SkipIsRelaying(v: World, r: RelayId, k: nat)
    requires r in v.relays && k < |v.relays[r].batch| && IsListed(v.db, v.relays[r].batch)
    ensures IsRelaying(Skip(v, r, k), r)
  {
  }

  lemma SkipIsNoting(v: World, r: RelayId, k: nat)
    requires r in v.relays && 0 < k <= |v.relays[r].batch| && IsListed(v.db, v.relays[r].batch)
    ensures Skip(v, r, k) == FailFirst(Skip(v, r, k - 1), r, true)
  {
  }

  /** A new relay fetches everything and skips what comes before `e`. */
  lemma BringToFront(cfg: Config, u: World, w: World, e: EventId) returns (v: World, r: RelayId)
    requires GoesTo(cfg, u, w) && e in w.db.outbox && !w.db.outbox[e].published && e < w.db.nextEvent
    ensures GoesTo(cfg, u, v) && OnlyRelayed(w, v, r) && IsAt(v, r, e, w.db.outbox[e])
  {
    r := UnusedId(w.relays.Keys);
    assert r !in w.relays.Keys;
    var k := FetchAll(w, r, e);
    v := Skip(NextFetch(w, r, w.db.nextEvent + 1), r, k);
    GoesFetching(cfg, u, w, r, k);
  }

  lemma GoesFetching(cfg: Config, u: World, w: World, r: RelayId, k: nat)
    requires GoesTo(cfg, u, w) && r !in w.relays
    requires var v := NextFetch(w, r, w.db.nextEvent + 1);
      k <= |v.relays[r].batch| && IsListed(v.db, v.relays[r].batch)
    ensures GoesTo(cfg, u, Skip(NextFetch(w, r, w.db.nextEvent + 1), r, k))
  {
    GoesNext(cfg, u, w, Publish(r, Fetch(w.db.nextEvent + 1)));
    GoesSkipping(cfg, u, NextFetch(w, r, w.db.nextEvent + 1), r, k);
  }

  lemma FetchAll(w: World, r: RelayId, e: EventId) returns (k: nat)
    requires r !in w.relays && e in w.db.outbox && !w.db.outbox[e].published && e < w.db.nextEvent
    ensures var v := NextFetch(w, r, w.db.nextEvent + 1);
      && k < |v.relays[r].batch| && IsListed(v.db, v.relays[r].batch)
      && OnlyRelayed(w, Skip(v, r, k), r) && IsAt(Skip(v, r, k), r, e, w.db.outbox[e])
  {
    var v := NextFetch(w, r, w.db.nextEvent + 1);
    k := FetchFinds(w, r, e);
    SkipShape(w, v, r, k);
    assert v.relays[r].batch[k..][0] == v.relays[r].batch[k];
  }

  lemma FetchFinds(w: World, r: RelayId, e: EventId) returns (k: nat)
    requires r !in w.relays && e in w.db.outbox && !w.db.outbox[e].published && e < w.db.nextEvent
    ensures var v := NextFetch(w, r, w.db.nextEvent + 1);
      && OnlyRelayed(w, v, r) && !v.relays[r].added && IsListed(v.db, v.relays[r].batch)
      && k < |v.relays[r].batch| && v.relays[r].batch[k] == Fetched(e, w.db.outbox[e])
  {
    var ids := FetchFrom(w.db, 0, w.db.nextEvent + 1);
    Drain.FetchIsOldest(w.db, 0, w.db.nextEvent + 1);
    FetchIsShort(w.db, 0, w.db.nextEvent + 1);
    Drain.RowsOfIds(w.db, ids);
    assert e in Drain.Unpublished(w.db);
    k :| 0 <= k < |ids| && ids[k] == e;
  }

  lemma {:induction false} FetchIsShort(db: Db, from: EventId, limit: nat)
    requires from <= db.nextEvent
    ensures |FetchFrom(db, from, limit)| <= db.nextEvent - from
    decreases db.nextEvent - from
  {
    if from < db.nextEvent && limit > 0 {
      if from in db.outbox && !db.outbox[from].published {
        FetchIsShort(db, from + 1, limit - 1);
      } else {
        FetchIsShort(db, from + 1, limit);
      }
    }
  }

  /** Enqueueing that event leaves its job in the queue, the old one if there was one. */
  lemma AddAtFront(w: World, v: World, r: RelayId, e: EventId)
    requires OnlyRelayed(w, v, r) && e in w.db.outbox && WellFormed(w.db.outbox[e]) && IsAt(v, r, e, w.db.outbox[e])
    ensures PublishEnabled(v, r, Add)
    ensures var added := NextAdd(v, r);
      var event := w.db.outbox[e];
      var id := JobId(event.aggregateId, e);
      && added == v.(jobs := added.jobs, enqueued := added.enqueued, relays := w.relays[r := v.relays[r].(added := true)])
      && id in added.jobs && (id in w.jobs ==> added.jobs == w.jobs)
      && (id !in w.jobs && IsDispatchType(event.eventType) ==>
            added.jobs == w.jobs[id := added.jobs[id]] && added.jobs[id].queue == DispatchQueue
            && added.jobs[id].message == event.aggregateId)
  {
  }
}
