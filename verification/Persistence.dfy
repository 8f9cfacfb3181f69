// Idempotent creation: one transaction that returns the key's live owner, or replaces an expired
// owner by a new message; a lost unique-key race rolls back and runs once more.
module Persistence {
  import opened StateMachine
  import opened Tables
  import opened LifecycleInvariant

  const RETENTION_MS: int := 90 * 24 * 60 * 60 * 1000

  function HoursToMs(hours: int): int {
    hours * 60 * 60 * 1000
  }

  datatype CreateResult =
    | Created(id: MessageId, row: Message)
    | Existing(id: MessageId, row: Message)
    | UniqueViolation

  /** The owner row that the first query of the transaction sees. */
  function FindOwner(db: Db, key: string): Option<KeyOwner> {
    if key in db.keys then Some(db.keys[key]) else None
  }

  predicate IsLive(owner: Option<KeyOwner>, now: Time) {
    owner.Some? && owner.value.expiresAt > now
  }

  function NewMessage(db: Db, key: string, now: Time): Message {
    Message(key, Queued, None, None, None, 0, 0, now + RETENTION_MS, db.clock)
  }

  /** The writing half of the transaction, after `seen` was read and found missing or expired. */
  function CreateCommit(db: Db, newId: MessageId, key: string, now: Time, ttlMs: int,
                        seen: Option<KeyOwner>): (r: (Db, CreateResult))
    requires newId !in db.messages && !IsLive(seen, now)
    ensures r.1.Created? ==>
      && Appends(db, r.0, newId, MessageQueued, MessagePayload(newId))
      && r.0.messages == db.messages[newId := r.1.row] && r.1.row.status == Queued
    ensures !r.1.Created? ==> r.0 == db
    ensures r.0.attempts == db.attempts && r.0.resolutions == db.resolutions && r.0.nextAttempt == db.nextAttempt
  {
    var cleared :=
      if seen.Some? && key in db.keys && db.keys[key].expiresAt <= now then db.(keys := db.keys - {key}) else db;
    if key in cleared.keys then
      (db, UniqueViolation)
    else
      var inserted := cleared.(messages := cleared.messages[newId := NewMessage(db, key, now)]);
      var queued := AppendEvent(inserted, newId, MessageQueued, MessagePayload(newId));
      (queued.(keys := queued.keys[key := KeyOwner(newId, now + ttlMs)]), Created(newId, NewMessage(db, key, now)))
  }

  predicate OwnersExist(db: Db) {
    forall k :: k in db.keys ==> db.keys[k].message in db.messages
  }

  /** One transaction; `env` is what other transactions commit between its read and its writes. */
  function CreateOnce(db: Db, newId: MessageId, key: string, now: Time, ttlMs: int, env: Db -> Db): (Db, CreateResult)
    requires OwnersExist(db) && newId !in env(db).messages
  {
    var seen := FindOwner(db, key);
    if IsLive(seen, now) then
      (db, Existing(seen.value.message, db.messages[seen.value.message]))
    else
      CreateCommit(env(db), newId, key, now, ttlMs, seen)
  }

  /** `after` adds one fresh open message, with events and keys that point at existing messages. */
  ghost predicate Inserts(db: Db, after: Db, newId: MessageId, row: Message) {
    && newId !in db.messages && row.status == Queued && row.providerMessageId == None
    && after.messages == db.messages[newId := row]
    && after.attempts == db.attempts && after.resolutions == db.resolutions
    && after.nextAttempt == db.nextAttempt
  }

  lemma InsertKeepsOpenAndAudit(db: Db, after: Db, newId: MessageId, row: Message)
    requires ForeignKeys(db) && ForeignKeys(after) && Inserts(db, after, newId, row)
    requires OpenMeansAllFailed(db) && AuditAgrees(db) && ProviderIdMeansSettled(db)
    ensures OpenMeansAllFailed(after) && AuditAgrees(after) && ProviderIdMeansSettled(after)
  {
  }

  lemma CreateCommitKeepsForeignKeys(db: Db, newId: MessageId, key: string, now: Time, ttlMs: int, seen: Option<KeyOwner>)
    requires ForeignKeys(db) && newId !in db.messages && !IsLive(seen, now)
    ensures ForeignKeys(CreateCommit(db, newId, key, now, ttlMs, seen).0)
  {
  }

  lemma CreateCommitKeepsValid(db: Db, newId: MessageId, key: string, now: Time, ttlMs: int, seen: Option<KeyOwner>)
    requires ValidDb(db) && newId !in db.messages && !IsLive(seen, now)
    ensures ValidDb(CreateCommit(db, newId, key, now, ttlMs, seen).0)
  {
    var (after, r) := CreateCommit(db, newId, key, now, ttlMs, seen);
    if r.Created? {
      CreateCommitKeepsForeignKeys(db, newId, key, now, ttlMs, seen);
      SameAttemptsKeepDoubt(db, after);
      SameAttemptRows(db, after);
      InsertKeepsOpenAndAudit(db, after, newId, r.row);
    }
  }

  /** A failing call writes no rows; a successful one returns the owner the key has at that moment. */
  lemma CreateOutcome(db: Db, newId: MessageId, key: string, now: Time, ttlMs: int, env: Db -> Db)
    requires ValidDb(db) && ValidDb(env(db)) && newId !in env(db).messages
    ensures var (after, r) := CreateOnce(db, newId, key, now, ttlMs, env);
      match r
      case Existing(id, row) =>
        after == db && key in db.keys && db.keys[key].message == id && db.keys[key].expiresAt > now
        && db.messages[id] == row
      case Created(id, row) =>
        && id == newId && after.keys[key] == KeyOwner(id, now + ttlMs)
        && after.messages == env(db).messages[id := row] && row.status == Queued
        && after.outbox.Keys == env(db).outbox.Keys + {env(db).nextEvent}
        && after.outbox[env(db).nextEvent].aggregateId == id
        && (key in env(db).keys ==> env(db).keys[key].expiresAt <= now)
      case UniqueViolation => after == env(db) && key in env(db).keys
  {
  }

  /** A new message owns its key for the given hours of 3600 seconds, and is kept for 90 days. */
  lemma NewKeyLasts(db: Db, newId: MessageId, key: string, now: Time, hours: int, env: Db -> Db)
    requires OwnersExist(db) && newId !in env(db).messages
    ensures var (after, r) := CreateOnce(db, newId, key, now, HoursToMs(hours), env);
      r.Created? ==>
        && key in after.keys && after.keys[key] == KeyOwner(newId, now + hours * 3600 * 1000)
        && newId in after.messages && after.messages[newId].key == key && after.messages[newId].status == Queued
        && after.messages[newId].retentionExpiresAt == now + 90 * 24 * 3600 * 1000
  {
  }

  /** The whole call: a lost unique-key race is caught and the transaction runs once more. `env(0)` and
      `env(2)` are commits inside the two transactions, `env(1)` those between them. */
  function CreateOrGet(db: Db, first: MessageId, second: MessageId, key: string, now: Time, ttlMs: int,
                       env: nat -> Db -> Db): (Db, CreateResult)
    requires OwnersExist(db) && first !in env(0)(db).messages
    requires var reread := env(1)(env(0)(db)); OwnersExist(reread) && second !in env(2)(reread).messages
  {
    var (after, r) := CreateOnce(db, first, key, now, ttlMs, env(0));
    if r.UniqueViolation? then CreateOnce(env(1)(after), second, key, now, ttlMs, env(2)) else (after, r)
  }

  /** A loser whose key is live when it retries returns the winner's message; and whenever the call
      succeeds, it returns the message that owns the key, whose window is still open. */
  lemma CreateOrGetReturnsOwner(db: Db, first: MessageId, second: MessageId, key: string, now: Time, ttlMs: int,
                                env: nat -> Db -> Db)
    requires ttlMs > 0 && ValidDb(db) && ValidDb(env(0)(db)) && first !in env(0)(db).messages
    requires var reread := env(1)(env(0)(db));
      ValidDb(reread) && ValidDb(env(2)(reread)) && second !in env(2)(reread).messages
    ensures var (after, r) := CreateOrGet(db, first, second, key, now, ttlMs, env);
      && (r.Existing? || r.Created? ==>
            && key in after.keys && after.keys[key].message == r.id && after.keys[key].expiresAt > now
            && r.id in after.messages && after.messages[r.id] == r.row)
      && (r.UniqueViolation? ==> after == env(2)(env(1)(env(0)(db))))
    ensures var reread := env(1)(env(0)(db));
      CreateOnce(db, first, key, now, ttlMs, env(0)).1.UniqueViolation? && IsLive(FindOwner(reread, key), now) ==>
        CreateOrGet(db, first, second, key, now, ttlMs, env)
        == (reread, Existing(reread.keys[key].message, reread.messages[reread.keys[key].message]))
  {
    CreateOutcome(db, first, key, now, ttlMs, env(0));
    if CreateOnce(db, first, key, now, ttlMs, env(0)).1.UniqueViolation? {
      CreateOutcome(env(1)(env(0)(db)), second, key, now, ttlMs, env(2));
    }
  }

  class SmsPersistenceRepository {
    const db: Database

    constructor (db: Database)
      ensures this.db == db
    {
      this.db := db;
    }

    method CreateOrGetMessage(first: MessageId, second: MessageId, key: string, now: Time, ttlHours: int, env: nat -> Db -> Db)
      returns (r: CreateResult)
      requires OwnersExist(db.View()) && first !in env(0)(db.View()).messages
      requires var reread := env(1)(env(0)(db.View())); OwnersExist(reread) && second !in env(2)(reread).messages
      modifies db
      ensures (db.View(), r) == CreateOrGet(old(db.View()), first, second, key, now, HoursToMs(ttlHours), env)
    {
      r := CreateOrGetMessageInTransaction(first, key, now, ttlHours, env(0));
      if r.UniqueViolation? {
        db.Load(env(1)(db.View()));
        r := CreateOrGetMessageInTransaction(second, key, now, ttlHours, env(2));
      }
    }

    method CreateOrGetMessageInTransaction(newId: MessageId, key: string, now: Time, ttlHours: int, env: Db -> Db)
      returns (r: CreateResult)
      requires OwnersExist(db.View()) && newId !in env(db.View()).messages
      modifies db
      ensures (db.View(), r) == CreateOnce(old(db.View()), newId, key, now, HoursToMs(ttlHours), env)
    {
      var existingOwner := if key in db.keys then Some(db.keys[key]) else None;
      if existingOwner.Some? && existingOwner.value.expiresAt > now {
        var id := existingOwner.value.message;
        return Existing(id, db.messages[id]);
      }
      db.Load(env(db.View()));
      var begun := db.View();
      if existingOwner.Some? && key in db.keys && db.keys[key].expiresAt <= now {
        db.keys := db.keys - {key};
      }
      var row := Message(key, Queued, None, None, None, 0, 0, now + RETENTION_MS, db.clock);
      db.messages := db.messages[newId := row];
      db.CreateEvent(newId, MessageQueued, MessagePayload(newId));
      if key in db.keys {
        db.Load(begun);
        return UniqueViolation;
      }
      db.keys := db.keys[key := KeyOwner(newId, now + HoursToMs(ttlHours))];
      r := Created(newId, row);
    }
  }
}
