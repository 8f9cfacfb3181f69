// The retention purge: one batch of expired terminal messages, children first.
module Retention {
  import opened StateMachine
  import opened Tables

  /** The statuses whose records may be purged. */
  predicate IsPurgeable(status: SmsStatus) {
    status == Delivered || status == Undelivered || status == Rejected || status == FatalFailure
  }

  function ExpiredIds(db: Db, now: Time): set<MessageId> {
    set m | m in db.messages && db.messages[m].retentionExpiresAt <= now && IsPurgeable(db.messages[m].status)
  }

  function DeleteResolutions(db: Db, ids: set<MessageId>): Db {
    db.(resolutions := map a | a in db.resolutions && db.resolutions[a].message !in ids :: db.resolutions[a])
  }

  function DeleteAttempts(db: Db, ids: set<MessageId>): Db {
    db.(attempts := map a | a in db.attempts && db.attempts[a].message !in ids :: db.attempts[a])
  }

  function DeleteEvents(db: Db, ids: set<MessageId>): Db {
    db.(outbox := map e | e in db.outbox && db.outbox[e].aggregateId !in ids :: db.outbox[e])
  }

  /** Deleting a message cascades to its idempotency key. */
  function DeleteMessages(db: Db, ids: set<MessageId>): Db {
    db.(messages := map m | m in db.messages && m !in ids :: db.messages[m],
        keys := map k | k in db.keys && db.keys[k].message !in ids :: db.keys[k])
  }

  function Purge(db: Db, ids: set<MessageId>): Db {
    DeleteMessages(DeleteEvents(DeleteAttempts(DeleteResolutions(db, ids), ids), ids), ids)
  }

  /** What survives is exactly the rows that do not belong to a purged message. */
  ghost predicate Survivors(db: Db, ids: set<MessageId>, after: Db) {
    && after.messages == db.messages - ids
    && (forall a :: a in after.attempts <==> a in db.attempts && db.attempts[a].message !in ids)
    && (forall a :: a in after.attempts ==> after.attempts[a] == db.attempts[a])
    && (forall a :: a in after.resolutions <==> a in db.resolutions && db.resolutions[a].message !in ids)
    && (forall a :: a in after.resolutions ==> after.resolutions[a] == db.resolutions[a])
    && (forall e :: e in after.outbox <==> e in db.outbox && db.outbox[e].aggregateId !in ids)
    && (forall e :: e in after.outbox ==> after.outbox[e] == db.outbox[e])
    && (forall k :: k in after.keys <==> k in db.keys && db.keys[k].message !in ids)
    && (forall k :: k in after.keys ==> after.keys[k] == db.keys[k])
    && after.nextAttempt == db.nextAttempt && after.nextEvent == db.nextEvent && after.clock == db.clock
  }

  lemma PurgeIsExact(db: Db, ids: set<MessageId>)
    ensures Survivors(db, ids, Purge(db, ids))
  {
    assert Purge(db, ids).messages == db.messages - ids;
  }

  /** No child row is left pointing at a purged message, and every table invariant survives. */
  lemma PurgeKeepsValid(db: Db, ids: set<MessageId>)
    requires ValidDb(db)
    ensures ValidDb(Purge(db, ids))
  {
    var after := Purge(db, ids);
    PurgeIsExact(db, ids);
    PurgeKeepsForeignKeys(db, ids, after);
    PurgeKeepsAttempts(db, ids, after);
    PurgeKeepsAudit(db, ids, after);
  }

  lemma PurgeKeepsForeignKeys(db: Db, ids: set<MessageId>, after: Db)
    requires ForeignKeys(db) && Survivors(db, ids, after)
    ensures ForeignKeys(after)
  {
  }

  lemma PurgeKeepsAttempts(db: Db, ids: set<MessageId>, after: Db)
    requires ValidDb(db) && ForeignKeys(after) && Survivors(db, ids, after)
    ensures AttemptFlags(after) && OnlyNewestInDoubt(after) && OpenMeansAllFailed(after)
    ensures WaitingHasAttemptInDoubt(after)
  {
    forall n | HasStatus(after, n, AwaitingProviderResult)
      ensures HasAttemptInDoubt(after, n)
    {
      assert HasStatus(db, n, AwaitingProviderResult);
      var a :| a in db.attempts && db.attempts[a].message == n && !db.attempts[a].Definitive();
      assert a in after.attempts && after.attempts[a] == db.attempts[a];
    }
  }

  lemma PurgeKeepsAudit(db: Db, ids: set<MessageId>, after: Db)
    requires ValidDb(db) && ForeignKeys(after) && Survivors(db, ids, after)
    ensures ProviderIdMeansSettled(after) && AuditAgrees(after) && OneAuditPerMessage(after)
  {
  }

  /** The statuses that may be purged are those from which no transition leads on. */
  lemma TerminalMayGo()
    ensures forall status :: IsPurgeable(status) <==> IsTerminal(status)
  {
    assert Processing in Outgoing(Queued) && Processing in Outgoing(RetryScheduled);
    assert FatalFailure in Outgoing(Processing) && Sent in Outgoing(AwaitingProviderResult) && Delivered in Outgoing(Sent);
  }

  // --- The service -------------------------------------------------------------------------------------

  /** What `findMany` with `take` may return. */
  ghost predicate IsBatch(db: Db, now: Time, batchSize: nat, ids: set<MessageId>) {
    && ids <= ExpiredIds(db, now) && |ids| <= batchSize
    && (|ids| < batchSize ==> ids == ExpiredIds(db, now))
  }

  class RetentionService {
    const db: Database
    const batchSize: nat

    constructor (db: Database, batchSize: nat)
      ensures this.db == db && this.batchSize == batchSize
    {
      this.db, this.batchSize := db, batchSize;
    }

    /** Children first: each delete meets the `Restrict` foreign keys of the rows it removes. */
    method PurgeExpired(now: Time, expired: set<MessageId>) returns (deletedMessages: nat)
      requires ForeignKeys(db.View()) && IsBatch(db.View(), now, batchSize, expired)
      modifies db
      ensures db.View() == Purge(old(db.View()), expired)
      ensures deletedMessages == |old(db.messages)| - |db.messages| == |expired|
      ensures forall m :: m in old(db.messages) ==>
        (m !in db.messages ==> IsTerminal(old(db.messages)[m].status) && old(db.messages)[m].retentionExpiresAt <= now)
      ensures deletedMessages < batchSize ==> forall m :: m in db.messages ==>
        !IsTerminal(db.messages[m].status) || db.messages[m].retentionExpiresAt > now
    {
      TerminalMayGo();
      if expired == {} {
        assert Purge(db.View(), expired) == db.View() by { PurgeOfNothing(db.View()); }
        return 0;
      }
      db.resolutions := map a | a in db.resolutions && db.resolutions[a].message !in expired :: db.resolutions[a];
      DeleteAttemptsOf(expired);
      db.outbox := map e | e in db.outbox && db.outbox[e].aggregateId !in expired :: db.outbox[e];
      deletedMessages := DeleteMessagesOf(expired);
    }

    /** The database refuses to delete an attempt that a resolution still references. */
    method DeleteAttemptsOf(ids: set<MessageId>)
      requires forall a :: a in db.resolutions ==> a in db.attempts && db.attempts[a].message !in ids
      modifies db`attempts
      ensures db.View() == DeleteAttempts(old(db.View()), ids)
    {
      db.attempts := map a | a in db.attempts && db.attempts[a].message !in ids :: db.attempts[a];
    }

    /** The database refuses to delete a message that a child row still references; keys cascade. */
    method DeleteMessagesOf(ids: set<MessageId>) returns (count: nat)
      requires forall a :: a in db.resolutions ==> db.resolutions[a].message !in ids
      requires forall a :: a in db.attempts ==> db.attempts[a].message !in ids
      requires forall e :: e in db.outbox ==> db.outbox[e].aggregateId !in ids
      requires forall m :: m in ids ==> m in db.messages
      modifies db`messages, db`keys
      ensures db.View() == DeleteMessages(old(db.View()), ids)
      ensures count == |old(db.messages)| - |db.messages| == |ids|
    {
      var before := db.messages;
      db.messages := map m | m in db.messages && m !in ids :: db.messages[m];
      db.keys := map k | k in db.keys && db.keys[k].message !in ids :: db.keys[k];
      assert before.Keys == db.messages.Keys + ids;
      assert |before.Keys| == |before| && |db.messages.Keys| == |db.messages|;
      count := |before| - |db.messages|;
    }
  }

  lemma PurgeOfNothing(db: Db)
    ensures Purge(db, {}) == db
  {
    var after := Purge(db, {});
    assert after.messages == db.messages && after.attempts == db.attempts && after.resolutions == db.resolutions;
    assert after.outbox == db.outbox && after.keys == db.keys;
  }
}
