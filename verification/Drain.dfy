// With working queues and no new writes, N unpublished events are all published after ceil(N / B) ticks
// of batch size B, each with a job for its own message.
module Drain {
  import opened Tables
  import opened Lifecycle
  import opened Outbox
  import opened Relay
  import Protocol

  function Unpublished(db: Db): set<EventId> {
    set e | e in db.outbox && !db.outbox[e].published
  }

  ghost predicate AreNumbered(db: Db) {
    forall e :: e in db.outbox ==> e < db.nextEvent
  }

  // --- What a fetch returns -------------------------------------------------------------------------

  predicate IsAscending(ids: seq<EventId>) {
    forall i, j :: 0 <= i < j < |ids| ==> ids[i] < ids[j]
  }

  /** A fetch returns the oldest unpublished events, each once: `limit` of them, or all. */
  lemma {:induction false} FetchIsOldest(db: Db, from: EventId, limit: nat)
    ensures var ids := FetchFrom(db, from, limit);
      && |ids| <= limit && IsAscending(ids)
      && (forall i :: 0 <= i < |ids| ==> ids[i] in Unpublished(db) && ids[i] >= from)
      && (forall e, i :: e in Unpublished(db) && from <= e < db.nextEvent && 0 <= i < |ids| && e < ids[i] ==> e in ids)
      && (|ids| < limit ==> forall e :: e in Unpublished(db) && from <= e < db.nextEvent ==> e in ids)
    decreases db.nextEvent - from
  {
    if from < db.nextEvent && limit > 0 {
      if from in db.outbox && !db.outbox[from].published {
        FetchIsOldest(db, from + 1, limit - 1);
      } else {
        FetchIsOldest(db, from + 1, limit);
      }
    }
  }

  function Elements(ids: seq<EventId>): set<EventId> {
    set i | 0 <= i < |ids| :: ids[i]
  }

  lemma {:induction false} AscendingCount(ids: seq<EventId>)
    requires IsAscending(ids)
    ensures |Elements(ids)| == |ids|
    decreases |ids|
  {
    if ids != [] {
      var last := ids[|ids| - 1];
      var rest := ids[..|ids| - 1];
      AscendingCount(rest);
      assert Elements(ids) == Elements(rest) + {last} by {
        forall e | e in Elements(ids) ensures e in Elements(rest) + {last} {
          var i :| 0 <= i < |ids| && ids[i] == e;
          assert i < |rest| ==> rest[i] == e;
        }
        forall e | e in Elements(rest) ensures e in Elements(ids) {
          var i :| 0 <= i < |rest| && rest[i] == e;
          assert ids[i] == e;
        }
      }
      assert last !in Elements(rest);
    }
  }

  function Min(a: nat, b: nat): nat {
    if a <= b then a else b
  }

  lemma FetchCount(db: Db, limit: nat)
    requires AreNumbered(db)
    ensures var ids := FetchFrom(db, 0, limit);
      && |ids| == Min(limit, |Unpublished(db)|) && |Elements(ids)| == |ids| && Elements(ids) <= Unpublished(db)
  {
    var ids := FetchFrom(db, 0, limit);
    FetchIsOldest(db, 0, limit);
    AscendingCount(ids);
    if |ids| < limit {
      forall e | e in Unpublished(db) ensures e in Elements(ids) {
        assert e in ids;
      }
      assert Elements(ids) == Unpublished(db);
    } else {
      SubsetCount(Elements(ids), Unpublished(db));
    }
  }

  lemma SubsetCount(a: set<EventId>, b: set<EventId>)
    requires a <= b
    ensures |a| <= |b| && |b - a| == |b| - |a|
  {
    assert b == a + (b - a);
  }

  lemma {:induction false} RowsOfIds(db: Db, ids: seq<EventId>)
    requires forall i :: 0 <= i < |ids| ==> ids[i] in db.outbox
    ensures var rows := Protocol.FetchedRows(db, ids);
      |rows| == |ids| && forall i :: 0 <= i < |ids| ==> rows[i] == Protocol.Fetched(ids[i], db.outbox[ids[i]])
    decreases |ids|
  {
    if ids != [] {
      RowsOfIds(db, ids[1..]);
    }
  }

  // --- One tick without failures ------------------------------------------------------------------------

  /** Nobody else acts. */
  function Calm(i: nat): Shared -> Shared {
    s => s
  }

  /** The event's job is in the queue under its own id. */
  predicate IsQueued(s: Shared, e: EventId)
    requires e in s.db.outbox
  {
    Protocol.JobId(s.db.outbox[e].aggregateId, e) in s.jobs
  }

  /** `after` is `before` with exactly `ids` published and queued, and nothing else changed. */
  ghost predicate Publishes(before: Shared, after: Shared, ids: set<EventId>) {
    && after.db == before.db.(outbox := after.db.outbox)
    && (forall e :: e in after.db.outbox <==> e in before.db.outbox)
    && (forall e :: e in before.db.outbox && e in ids ==> after.db.outbox[e] == before.db.outbox[e].(published := true))
    && (forall e :: e in before.db.outbox && e !in ids ==> after.db.outbox[e] == before.db.outbox[e])
    && (forall e :: e in ids && e in after.db.outbox ==> IsQueued(after, e))
    && (forall id :: id in before.jobs ==> id in after.jobs && after.jobs[id] == before.jobs[id])
  }

  lemma RelayOnePublishes(s: Shared, e: EventId, k: nat)
    requires e in s.db.outbox && WellFormed(s.db.outbox[e])
    ensures var (after, alive) := RelayOne(s, Protocol.Fetched(e, s.db.outbox[e]), NO_FAULTS, k, Calm);
      alive && Publishes(s, after, {e})
  {
  }

  lemma PublishesMore(s: Shared, before: Shared, after: Shared, ids: set<EventId>, e: EventId)
    requires Publishes(s, before, ids) && Publishes(before, after, {e})
    ensures Publishes(s, after, ids + {e})
  {
    forall d | d in ids + {e} && d in after.db.outbox ensures IsQueued(after, d) {
      if d in ids {
        assert IsQueued(before, d);
      }
    }
  }

  lemma {:induction false} FirstArePublished(s: Shared, ids: seq<EventId>, k: nat)
    requires k <= |ids| && IsAscending(ids) && AllWellFormed(s.db)
    requires forall i :: 0 <= i < |ids| ==> ids[i] in s.db.outbox
    ensures var batch := Protocol.FetchedRows(s.db, ids);
      && |batch| == |ids|
      && var (after, alive) := RelayFirst(s, batch, k, _ => NO_FAULTS, Calm);
        alive && Publishes(s, after, Elements(ids[..k]))
  {
    RowsOfIds(s.db, ids);
    var batch := Protocol.FetchedRows(s.db, ids);
    if k > 0 {
      FirstArePublished(s, ids, k - 1);
      OneMorePublished(s, RelayFirst(s, batch, k - 1, _ => NO_FAULTS, Calm).0, ids, k);
    }
  }

  lemma OneMorePublished(s: Shared, before: Shared, ids: seq<EventId>, k: nat)
    requires 0 < k <= |ids| && IsAscending(ids) && AllWellFormed(s.db) && ids[k - 1] in s.db.outbox
    requires Publishes(s, before, Elements(ids[..k - 1]))
    ensures var e := ids[k - 1];
      var (after, alive) := RelayOne(before, Protocol.Fetched(e, s.db.outbox[e]), NO_FAULTS, k - 1, Calm);
      alive && Publishes(s, after, Elements(ids[..k]))
  {
    var e := ids[k - 1];
    assert e !in Elements(ids[..k - 1]);
    assert before.db.outbox[e] == s.db.outbox[e];
    RelayOnePublishes(before, e, k - 1);
    var after := RelayOne(before, Protocol.Fetched(e, s.db.outbox[e]), NO_FAULTS, k - 1, Calm).0;
    PublishesMore(s, before, after, Elements(ids[..k - 1]), e);
    LastElement(ids, k);
  }

  lemma LastElement(ids: seq<EventId>, k: nat)
    requires 0 < k <= |ids|
    ensures Elements(ids[..k]) == Elements(ids[..k - 1]) + {ids[k - 1]}
  {
    forall e | e in Elements(ids[..k]) ensures e in Elements(ids[..k - 1]) + {ids[k - 1]} {
      var i :| 0 <= i < k && ids[..k][i] == e;
      assert i < k - 1 ==> ids[..k - 1][i] == e;
    }
    forall e | e in Elements(ids[..k - 1]) ensures e in Elements(ids[..k]) {
      var i :| 0 <= i < k - 1 && ids[..k - 1][i] == e;
      assert ids[..k][i] == e;
    }
    assert ids[..k][k - 1] == ids[k - 1];
  }

  function CalmTick(s: Shared, limit: nat): Shared {
    RelayOnce(s, limit, _ => NO_FAULTS, Calm)
  }

  /** A tick publishes the oldest B events, or all that are left. */
  lemma TickPublishes(s: Shared, limit: nat)
    requires AllWellFormed(s.db) && AreNumbered(s.db)
    ensures var after := CalmTick(s, limit);
      && Publishes(s, after, Unpublished(s.db) - Unpublished(after.db))
      && Unpublished(after.db) <= Unpublished(s.db)
      && |Unpublished(after.db)| == |Unpublished(s.db)| - Min(limit, |Unpublished(s.db)|)
  {
    var ids := FetchFrom(s.db, 0, limit);
    FetchIsOldest(s.db, 0, limit);
    FetchCount(s.db, limit);
    FirstArePublished(s, ids, |ids|);
    assert ids[..|ids|] == ids;
    var after := CalmTick(s, limit);
    assert Publishes(s, after, Elements(ids));
    assert Unpublished(after.db) == Unpublished(s.db) - Elements(ids);
    SubsetCount(Elements(ids), Unpublished(s.db));
    assert Unpublished(s.db) - Unpublished(after.db) == Elements(ids);
  }

  // --- Draining ---------------------------------------------------------------------------------------------

  function Ticks(s: Shared, n: nat, limit: nat): Shared
    decreases n
  {
    if n == 0 then s else Ticks(CalmTick(s, limit), n - 1, limit)
  }

  /** The ticks needed for `count` events in batches of `limit`. */
  function TicksNeeded(count: nat, limit: nat): nat
    requires limit > 0
  {
    if count == 0 then 0 else 1 + TicksNeeded(count - Min(limit, count), limit)
  }

  /** That is the ceiling of `count / limit`. */
  lemma {:induction false} TicksNeededIsCeiling(count: nat, limit: nat)
    requires limit > 0
    ensures count <= TicksNeeded(count, limit) * limit < count + limit
  {
    if count > limit {
      TicksNeededIsCeiling(count - limit, limit);
      assert TicksNeeded(count, limit) * limit == TicksNeeded(count - limit, limit) * limit + limit;
    } else if count > 0 {
      assert TicksNeeded(count, limit) == 1 + TicksNeeded(0, limit) == 1;
    }
  }

  lemma TicksStep(s: Shared, n: nat, limit: nat)
    requires n > 0
    ensures Ticks(s, n, limit) == Ticks(CalmTick(s, limit), n - 1, limit)
  {
  }

  ghost predicate IsDrained(s: Shared, after: Shared) {
    Unpublished(after.db) == {} && Publishes(s, after, Unpublished(s.db))
  }

  lemma MarkKeepsWellFormed(event: OutboxEvent)
    ensures WellFormed(event.(published := true)) <==> WellFormed(event)
  {
    assert QueueJobFor(event.(published := true)) == QueueJobFor(event);
  }

  lemma StaysWellFormed(s: Shared, next: Shared, ids: set<EventId>)
    requires AllWellFormed(s.db) && AreNumbered(s.db) && Publishes(s, next, ids)
    ensures AllWellFormed(next.db) && AreNumbered(next.db)
  {
    forall e | e in next.db.outbox ensures WellFormed(next.db.outbox[e]) {
      MarkKeepsWellFormed(s.db.outbox[e]);
      assert WellFormed(s.db.outbox[e]);
    }
  }

  lemma PublishesAll(s: Shared, next: Shared, after: Shared)
    requires Unpublished(next.db) <= Unpublished(s.db)
    requires Publishes(s, next, Unpublished(s.db) - Unpublished(next.db))
    requires IsDrained(next, after)
    ensures IsDrained(s, after)
  {
    forall e | e in Unpublished(s.db) && e in after.db.outbox ensures IsQueued(after, e) {
      if e !in Unpublished(next.db) {
        assert IsQueued(next, e);
      }
    }
  }

  /** All unpublished events, and no others, are published after ceil(N / B) ticks, each with its job. */
  lemma {:induction false} TicksDrain(s: Shared, limit: nat)
    requires limit > 0 && AllWellFormed(s.db) && AreNumbered(s.db)
    ensures IsDrained(s, Ticks(s, TicksNeeded(|Unpublished(s.db)|, limit), limit))
    decreases |Unpublished(s.db)|
  {
    if Unpublished(s.db) != {} {
      var next := CalmTick(s, limit);
      TickIsProgress(s, limit);
      TicksDrain(next, limit);
      var left := TicksNeeded(|Unpublished(next.db)|, limit);
      TicksStep(s, left + 1, limit);
      DrainedThrough(s, next, Ticks(next, left, limit));
    }
  }

  /** `next` is as well formed as `s`, and draining it drains `s`. */
  ghost predicate LeadsOn(s: Shared, next: Shared) {
    && AllWellFormed(next.db) && AreNumbered(next.db)
    && Unpublished(next.db) <= Unpublished(s.db)
    && Publishes(s, next, Unpublished(s.db) - Unpublished(next.db))
  }

  lemma TickIsProgress(s: Shared, limit: nat)
    requires limit > 0 && AllWellFormed(s.db) && AreNumbered(s.db) && Unpublished(s.db) != {}
    ensures var next := CalmTick(s, limit);
      && LeadsOn(s, next) && |Unpublished(next.db)| < |Unpublished(s.db)|
      && TicksNeeded(|Unpublished(s.db)|, limit) == TicksNeeded(|Unpublished(next.db)|, limit) + 1
  {
    TickPublishes(s, limit);
    StaysWellFormed(s, CalmTick(s, limit), Unpublished(s.db) - Unpublished(CalmTick(s, limit).db));
  }

  lemma DrainedThrough(s: Shared, next: Shared, after: Shared)
    requires LeadsOn(s, next) && IsDrained(next, after)
    ensures IsDrained(s, after)
  {
    PublishesAll(s, next, after);
  }
}
