// Idempotency windows over whole runs: messages created under one key lie at least one TTL apart,
// for any interleaving of creations, lost unique-key races, retries and purges.
module Idempotency {
  import opened StateMachine
  import opened Tables
  import opened Persistence
  import opened Retention
  import opened Outbox
  import opened Protocol
  import opened Safety
  import opened SafetyTheorems
  import opened DispatchTheorems

  /** The clock of a creation is behind no purge by more than retention exceeds the TTL. */
  predicate IsTimely(cfg: Config, w: World, act: Action) {
    act.Create? && w.lastPurge.Some? ==> w.lastPurge.value <= act.now + (RETENTION_MS - cfg.ttlMs)
  }

  ghost predicate IsTimelyRun(cfg: Config, w: World, acts: seq<Action>)
    requires IsRun(cfg, w, acts)
    decreases |acts|
  {
    acts == [] || (IsTimely(cfg, w, acts[0]) && IsTimelyRun(cfg, Next(cfg, w, acts[0]), acts[1..]))
  }

  // --- The invariant ---------------------------------------------------------------------------------

  ghost predicate Apart(cfg: Config, births: seq<Birth>) {
    forall i, j :: 0 <= i < j < |births| && births[i].key == births[j].key ==> births[i].at + cfg.ttlMs <= births[j].at
  }

  /** The key row still covers the birth's window, or a purge has passed its retention time. */
  predicate IsCovered(cfg: Config, w: World, birth: Birth) {
    || (birth.key in w.db.keys && w.db.keys[birth.key].expiresAt >= birth.at + cfg.ttlMs)
    || (w.lastPurge.Some? && w.lastPurge.value >= birth.at + RETENTION_MS)
  }

  /** A key row and the message it points at were written by one creation. */
  predicate KeyFits(cfg: Config, db: Db, k: string)
    requires k in db.keys
  {
    var owner := db.keys[k];
    && owner.message in db.messages && db.messages[owner.message].key == k
    && db.messages[owner.message].retentionExpiresAt == owner.expiresAt - cfg.ttlMs + RETENTION_MS
  }

  /** Every message row stems from a recorded birth. */
  ghost predicate WasBorn(w: World, m: MessageId)
    requires m in w.db.messages
  {
    exists i :: 0 <= i < |w.births| && w.births[i].id == m && IsBirthOf(w.births[i], w.db.messages[m])
  }

  predicate IsBirthOf(birth: Birth, row: Message) {
    birth.key == row.key && row.retentionExpiresAt == birth.at + RETENTION_MS
  }

  ghost predicate Windows(cfg: Config, w: World) {
    && Apart(cfg, w.births)
    && (forall i :: 0 <= i < |w.births| ==> IsCovered(cfg, w, w.births[i]))
    && (forall k :: k in w.db.keys ==> KeyFits(cfg, w.db, k))
    && (forall m :: m in w.db.messages ==> WasBorn(w, m))
  }

  // --- Creation ---------------------------------------------------------------------------------------------

  /** A creation that succeeds finds every earlier window of its key closed. */
  lemma WindowsAreClosed(cfg: Config, w: World, newId: MessageId, key: string, now: Time, owner: Option<KeyOwner>, i: nat)
    requires Windows(cfg, w) && IsTimely(cfg, w, Create(newId, key, now, owner))
    requires newId !in w.db.messages && !Persistence.IsLive(owner, now)
    requires CreateCommit(w.db, newId, key, now, cfg.ttlMs, owner).1.Created?
    requires i < |w.births| && w.births[i].key == key
    ensures w.births[i].at + cfg.ttlMs <= now
  {
    assert IsCovered(cfg, w, w.births[i]);
  }

  /** What a successful creation writes to the tables of keys and messages. */
  lemma CreatedRows(db: Db, newId: MessageId, key: string, now: Time, ttlMs: int, owner: Option<KeyOwner>)
    requires newId !in db.messages && !Persistence.IsLive(owner, now)
    ensures var (after, r) := CreateCommit(db, newId, key, now, ttlMs, owner);
      r.Created? ==>
        && after.keys == db.keys[key := KeyOwner(newId, now + ttlMs)]
        && after.messages == db.messages[newId := after.messages[newId]]
        && after.messages[newId].key == key && after.messages[newId].retentionExpiresAt == now + RETENTION_MS
  {
  }

  lemma CreateKeepsWindows(cfg: Config, w: World, newId: MessageId, key: string, now: Time, owner: Option<KeyOwner>)
    requires cfg.ttlMs >= 0 && Windows(cfg, w) && Enabled(cfg, w, Create(newId, key, now, owner))
    requires IsTimely(cfg, w, Create(newId, key, now, owner))
    ensures Windows(cfg, NextCreate(cfg, w, newId, key, now, owner))
  {
    if CreateCommit(w.db, newId, key, now, cfg.ttlMs, owner).1.Created? {
      forall i: nat | i < |w.births| && w.births[i].key == key
        ensures w.births[i].at + cfg.ttlMs <= now
      {
        WindowsAreClosed(cfg, w, newId, key, now, owner, i);
      }
      CreatedRows(w.db, newId, key, now, cfg.ttlMs, owner);
      CreateStep(cfg, w, NextCreate(cfg, w, newId, key, now, owner), Birth(newId, key, now));
    }
  }

  lemma CreateStep(cfg: Config, w: World, v: World, birth: Birth)
    requires cfg.ttlMs >= 0 && Windows(cfg, w) && birth.id !in w.db.messages
    requires forall i: nat :: i < |w.births| && w.births[i].key == birth.key ==> w.births[i].at + cfg.ttlMs <= birth.at
    requires v.births == w.births + [birth] && v.lastPurge == w.lastPurge
    requires v.db.keys == w.db.keys[birth.key := KeyOwner(birth.id, birth.at + cfg.ttlMs)]
    requires birth.id in v.db.messages && v.db.messages == w.db.messages[birth.id := v.db.messages[birth.id]]
    requires IsBirthOf(birth, v.db.messages[birth.id])
    ensures Windows(cfg, v)
  {
    CreateKeepsCover(cfg, w, v, birth);
    CreateKeepsKeys(cfg, w, v, birth);
    CreateKeepsApart(cfg, w.births, birth);
    CreateKeepsBorn(w, v, birth);
  }

  lemma CreateKeepsApart(cfg: Config, births: seq<Birth>, birth: Birth)
    requires Apart(cfg, births)
    requires forall i: nat :: i < |births| && births[i].key == birth.key ==> births[i].at + cfg.ttlMs <= birth.at
    ensures Apart(cfg, births + [birth])
  {
  }

  lemma CreateKeepsBorn(w: World, v: World, birth: Birth)
    requires forall m :: m in w.db.messages ==> WasBorn(w, m)
    requires v.births == w.births + [birth]
    requires birth.id in v.db.messages && v.db.messages == w.db.messages[birth.id := v.db.messages[birth.id]]
    requires IsBirthOf(birth, v.db.messages[birth.id])
    ensures forall m :: m in v.db.messages ==> WasBorn(v, m)
  {
    forall m | m in v.db.messages ensures WasBorn(v, m) {
      if m == birth.id {
        assert v.births[|w.births|] == birth;
      } else {
        BirthIsKept(w, v, m);
      }
    }
  }

  lemma CreateKeepsCover(cfg: Config, w: World, v: World, birth: Birth)
    requires cfg.ttlMs >= 0 && (forall i :: 0 <= i < |w.births| ==> IsCovered(cfg, w, w.births[i]))
    requires forall i: nat :: i < |w.births| && w.births[i].key == birth.key ==> w.births[i].at + cfg.ttlMs <= birth.at
    requires v.births == w.births + [birth] && v.lastPurge == w.lastPurge
    requires v.db.keys == w.db.keys[birth.key := KeyOwner(birth.id, birth.at + cfg.ttlMs)]
    ensures forall i :: 0 <= i < |v.births| ==> IsCovered(cfg, v, v.births[i])
  {
    forall i | 0 <= i < |v.births| ensures IsCovered(cfg, v, v.births[i]) {
      if i < |w.births| {
        assert IsCovered(cfg, w, w.births[i]);
      }
    }
  }

  lemma CreateKeepsKeys(cfg: Config, w: World, v: World, birth: Birth)
    requires (forall k :: k in w.db.keys ==> KeyFits(cfg, w.db, k)) && birth.id !in w.db.messages
    requires v.db.keys == w.db.keys[birth.key := KeyOwner(birth.id, birth.at + cfg.ttlMs)]
    requires birth.id in v.db.messages && v.db.messages == w.db.messages[birth.id := v.db.messages[birth.id]]
    requires IsBirthOf(birth, v.db.messages[birth.id])
    ensures forall k :: k in v.db.keys ==> KeyFits(cfg, v.db, k)
  {
    forall k | k in v.db.keys ensures KeyFits(cfg, v.db, k) {
      if k != birth.key {
        assert KeyFits(cfg, w.db, k);
      }
    }
  }

  /** A message that keeps its key and retention time keeps its birth. */
  lemma BirthIsKept(w: World, v: World, m: MessageId)
    requires m in w.db.messages && WasBorn(w, m) && m in v.db.messages
    requires v.db.messages[m].key == w.db.messages[m].key
    requires v.db.messages[m].retentionExpiresAt == w.db.messages[m].retentionExpiresAt
    requires w.births <= v.births
    ensures WasBorn(v, m)
  {
    var i :| 0 <= i < |w.births| && w.births[i].id == m && IsBirthOf(w.births[i], w.db.messages[m]);
    assert v.births[i] == w.births[i];
  }

  // --- Purge and all other steps -----------------------------------------------------------------------------

  lemma PurgeKeepsWindows(cfg: Config, w: World, ids: set<MessageId>, now: Time)
    requires Windows(cfg, w) && ids <= ExpiredIds(w.db, now)
    ensures Windows(cfg, NextPurge(w, ids, now))
  {
    PurgeIsExact(w.db, ids);
    PurgeStep(cfg, w, NextPurge(w, ids, now), ids, now);
  }

  lemma PurgeStep(cfg: Config, w: World, v: World, ids: set<MessageId>, now: Time)
    requires Windows(cfg, w) && Survivors(w.db, ids, v.db) && v.births == w.births
    requires forall m :: m in ids ==> m in w.db.messages && w.db.messages[m].retentionExpiresAt <= now
    requires v.lastPurge.Some? && v.lastPurge.value >= now
    requires w.lastPurge.Some? ==> v.lastPurge.value >= w.lastPurge.value
    ensures Windows(cfg, v)
  {
    forall i | 0 <= i < |v.births| ensures IsCovered(cfg, v, v.births[i]) {
      assert IsCovered(cfg, w, w.births[i]);
      if w.births[i].key in w.db.keys {
        assert KeyFits(cfg, w.db, w.births[i].key);
      }
    }
    forall k | k in v.db.keys ensures KeyFits(cfg, v.db, k) {
      assert KeyFits(cfg, w.db, k);
    }
    forall m | m in v.db.messages ensures WasBorn(v, m) {
      BirthIsKept(w, v, m);
    }
  }

  /** The columns and tables that the windows depend on stay as they are. */
  ghost predicate KeepsHistory(w: World, v: World) {
    && SameHistory(w, v)
    && (forall m :: m in v.db.messages <==> m in w.db.messages)
    && (forall m :: m in w.db.messages ==>
          && v.db.messages[m].key == w.db.messages[m].key
          && v.db.messages[m].retentionExpiresAt == w.db.messages[m].retentionExpiresAt)
  }

  lemma HistoryKeepsWindows(cfg: Config, w: World, v: World)
    requires Windows(cfg, w) && KeepsHistory(w, v)
    ensures Windows(cfg, v)
  {
    forall i | 0 <= i < |v.births| ensures IsCovered(cfg, v, v.births[i]) {
      assert IsCovered(cfg, w, w.births[i]);
    }
    forall k | k in v.db.keys ensures KeyFits(cfg, v.db, k) {
      assert KeyFits(cfg, w.db, k);
    }
    forall m | m in v.db.messages ensures WasBorn(v, m) {
      BirthIsKept(w, v, m);
    }
  }

  lemma WorkKeepsHistory(cfg: Config, w: World, id: WorkerId, step: WorkerStep)
    requires WorkEnabled(cfg, w, id, step)
    ensures KeepsHistory(w, NextWork(cfg, w, id, step))
  {
  }

  lemma OperateKeepsHistory(w: World, step: OperatorStep)
    requires OperateEnabled(w, step)
    ensures KeepsHistory(w, NextOperate(w, step))
  {
    match step
    case CommitOp(op) => CommitOpKeepsHistory(w, op);
    case _ =>
  }

  lemma CommitOpKeepsHistory(w: World, op: OpId)
    requires op in w.ops
    ensures KeepsHistory(w, NextCommitOp(w, op))
  {
  }

  lemma MaintenanceKeepsHistory(w: World, job: JobId, effective: bool)
    requires job in w.jobs
    ensures KeepsHistory(w, NextMaintenance(w, job, effective))
  {
  }

  lemma NextKeepsWindows(cfg: Config, w: World, act: Action)
    requires cfg.ttlMs >= 0 && Windows(cfg, w) && Enabled(cfg, w, act) && IsTimely(cfg, w, act)
    ensures Windows(cfg, Next(cfg, w, act))
  {
    match act
    case Create(newId, key, now, owner) => CreateKeepsWindows(cfg, w, newId, key, now, owner);
    case Work(id, step) =>
      WorkKeepsHistory(cfg, w, id, step);
      HistoryKeepsWindows(cfg, w, Next(cfg, w, act));
    case Operate(step) =>
      OperateKeepsHistory(w, step);
      HistoryKeepsWindows(cfg, w, Next(cfg, w, act));
    case Publish(r, step) => HistoryKeepsWindows(cfg, w, Next(cfg, w, act));
    case RunMaintenance(job, effective) =>
      MaintenanceKeepsHistory(w, job, effective);
      HistoryKeepsWindows(cfg, w, Next(cfg, w, act));
    case RemoveJob(job) => HistoryKeepsWindows(cfg, w, Next(cfg, w, act));
    case PurgeBatch(ids, now) => PurgeKeepsWindows(cfg, w, ids, now);
    case Tick(ms) => HistoryKeepsWindows(cfg, w, Next(cfg, w, act));
  }

  lemma {:induction false} RunKeepsWindows(cfg: Config, w: World, acts: seq<Action>)
    requires cfg.ttlMs >= 0 && Windows(cfg, w) && IsRun(cfg, w, acts) && IsTimelyRun(cfg, w, acts)
    ensures Windows(cfg, After(cfg, w, acts))
    decreases |acts|
  {
    if acts != [] {
      NextKeepsWindows(cfg, w, acts[0]);
      RunKeepsWindows(cfg, Next(cfg, w, acts[0]), acts[1..]);
    }
  }

  ghost predicate WindowsHold(cfg: Config, w: World) {
    && Apart(cfg, w.births)
    && (forall m, n :: m in w.db.messages && n in w.db.messages && m != n && w.db.messages[m].key == w.db.messages[n].key ==>
          || w.db.messages[m].retentionExpiresAt + cfg.ttlMs <= w.db.messages[n].retentionExpiresAt
          || w.db.messages[n].retentionExpiresAt + cfg.ttlMs <= w.db.messages[m].retentionExpiresAt)
  }

  /** In every timely run, two messages ever created under one key were created at least one TTL apart,
      and the stored rows show it. */
  lemma OneMessagePerWindow(cfg: Config, clock: Time, acts: seq<Action>)
    requires cfg.ttlMs >= 0 && IsRun(cfg, Init(clock), acts) && IsTimelyRun(cfg, Init(clock), acts)
    ensures WindowsHold(cfg, After(cfg, Init(clock), acts))
  {
    RunKeepsWindows(cfg, Init(clock), acts);
    RowsAreApart(cfg, After(cfg, Init(clock), acts));
  }

  lemma RowsAreApart(cfg: Config, w: World)
    requires Windows(cfg, w)
    ensures WindowsHold(cfg, w)
  {
    forall m, n | m in w.db.messages && n in w.db.messages && m != n && w.db.messages[m].key == w.db.messages[n].key
      ensures || w.db.messages[m].retentionExpiresAt + cfg.ttlMs <= w.db.messages[n].retentionExpiresAt
              || w.db.messages[n].retentionExpiresAt + cfg.ttlMs <= w.db.messages[m].retentionExpiresAt
    {
      assert WasBorn(w, m) && WasBorn(w, n);
      var i :| 0 <= i < |w.births| && w.births[i].id == m && IsBirthOf(w.births[i], w.db.messages[m]);
      var j :| 0 <= j < |w.births| && w.births[j].id == n && IsBirthOf(w.births[j], w.db.messages[n]);
      assert i != j;
      assert i < j ==> w.births[i].at + cfg.ttlMs <= w.births[j].at;
      assert j < i ==> w.births[j].at + cfg.ttlMs <= w.births[i].at;
    }
  }

  predicate IsMonotone(w: World, act: Action) {
    act.Create? && w.lastPurge.Some? ==> w.lastPurge.value <= act.now
  }

  /** No creation reads a clock that is behind a purge. */
  ghost predicate IsMonotoneRun(cfg: Config, w: World, acts: seq<Action>)
    requires IsRun(cfg, w, acts)
    decreases |acts|
  {
    acts == [] || (IsMonotone(w, acts[0]) && IsMonotoneRun(cfg, Next(cfg, w, acts[0]), acts[1..]))
  }

  lemma {:induction false} MonotoneRunIsTimely(cfg: Config, w: World, acts: seq<Action>)
    requires cfg.ttlMs <= HoursToMs(2160) && IsRun(cfg, w, acts) && IsMonotoneRun(cfg, w, acts)
    ensures IsTimelyRun(cfg, w, acts)
    decreases |acts|
  {
    if acts != [] {
      MonotoneRunIsTimely(cfg, Next(cfg, w, acts[0]), acts[1..]);
    }
  }

  /** With clocks that do not run backwards, a TTL of at most 2160 hours is enough. */
  lemma OneMessagePerWindowOfMonotoneRuns(cfg: Config, clock: Time, acts: seq<Action>)
    requires 0 <= cfg.ttlMs <= HoursToMs(2160)
    requires IsRun(cfg, Init(clock), acts) && IsMonotoneRun(cfg, Init(clock), acts)
    ensures WindowsHold(cfg, After(cfg, Init(clock), acts))
  {
    MonotoneRunIsTimely(cfg, Init(clock), acts);
    OneMessagePerWindow(cfg, clock, acts);
  }

  // --- Why the TTL must not exceed the retention time ------------------------------------------------------------

  ghost predicate MonotoneRunsKeepWindows(cfg: Config) {
    forall clock, acts :: IsRun(cfg, Init(clock), acts) && IsMonotoneRun(cfg, Init(clock), acts) ==>
      WindowsHold(cfg, After(cfg, Init(clock), acts))
  }

  /** Reachable from time 0 by a run whose clocks do not run backwards. */
  ghost predicate IsMonotoneReachable(cfg: Config, w: World) {
    exists acts :: IsRun(cfg, Init(0), acts) && IsMonotoneRun(cfg, Init(0), acts) && After(cfg, Init(0), acts) == w
  }

  lemma {:induction false} MonotoneExtends(cfg: Config, w: World, acts: seq<Action>, act: Action)
    requires IsRun(cfg, w, acts) && IsMonotoneRun(cfg, w, acts)
    requires Enabled(cfg, After(cfg, w, acts), act) && IsMonotone(After(cfg, w, acts), act)
    ensures IsRun(cfg, w, acts + [act]) && IsMonotoneRun(cfg, w, acts + [act])
    decreases |acts|
  {
    RunExtends(cfg, w, acts, act);
    if acts == [] {
      assert acts + [act] == [act] && [act][1..] == [];
      assert IsMonotoneRun(cfg, Next(cfg, w, act), []);
    } else {
      assert (acts + [act])[0] == acts[0] && (acts + [act])[1..] == acts[1..] + [act];
      MonotoneExtends(cfg, Next(cfg, w, acts[0]), acts[1..], act);
    }
  }

  lemma MonotoneReachNext(cfg: Config, w: World, act: Action)
    requires IsMonotoneReachable(cfg, w) && Enabled(cfg, w, act) && IsMonotone(w, act)
    ensures IsMonotoneReachable(cfg, Next(cfg, w, act))
  {
    var acts :| IsRun(cfg, Init(0), acts) && IsMonotoneRun(cfg, Init(0), acts) && After(cfg, Init(0), acts) == w;
    MonotoneExtends(cfg, Init(0), acts, act);
    RunExtends(cfg, Init(0), acts, act);
  }

  lemma {:induction false} NoCreationIsMonotone(cfg: Config, w: World, acts: seq<Action>)
    requires IsRun(cfg, w, acts) && forall i :: 0 <= i < |acts| ==> !acts[i].Create?
    ensures IsMonotoneRun(cfg, w, acts)
    decreases |acts|
  {
    if acts != [] {
      NoCreationIsMonotone(cfg, Next(cfg, w, acts[0]), acts[1..]);
    }
  }

  lemma PublishedMonotonely(cfg: Config, m: MessageId) returns (w: World)
    ensures IsMonotoneReachable(cfg, w) && IsPublished(w, m) && IsUntouched(cfg, w, m)
  {
    AfterLosingRun(cfg, m);
    var acts := LosingRun(m);
    NoCreationIsMonotone(cfg, Next(cfg, Init(0), acts[0]), acts[1..]);
    w := After(cfg, Init(0), acts);
  }

  /** The message is still the only one ever created, under the empty key, and no purge has come. */
  ghost predicate IsOnlyBirth(cfg: Config, w: World, m: MessageId) {
    && m in w.db.messages && w.db.messages[m].retentionExpiresAt == RETENTION_MS
    && w.db.keys == map["" := KeyOwner(m, cfg.ttlMs)]
    && w.births == [Birth(m, "", 0)] && w.lastPurge == None
    && (forall n :: n in w.ledger || n in w.db.messages ==> n == m)
  }

  lemma ClaimKeepsBirth(cfg: Config, w: World, m: MessageId)
    requires IsOnlyBirth(cfg, w, m) && HasStatus(w.db, m, Queued) && JobId(m, 0) in w.jobs
    requires w.jobs[JobId(m, 0)].queue == DispatchQueue && w.jobs[JobId(m, 0)].message == m && 0 !in w.workers
    ensures WorkEnabled(cfg, w, 0, Claim(JobId(m, 0)))
    ensures var v := NextClaim(w, JobId(m, 0), 0);
      IsOnlyBirth(cfg, v, m) && HasStatus(v.db, m, Processing) && v.ops == w.ops
  {
  }

  /** A permanent provider failure, read and committed. */
  lemma RejectKeepsBirth(cfg: Config, w: World, m: MessageId, read: World)
    requires IsOnlyBirth(cfg, w, m) && HasStatus(w.db, m, Processing) && 0 !in w.ops
    requires read == NextReadPermanent(w, 0, m, Rejected, UnknownProviderError)
    ensures 0 in read.ops
    ensures IsOnlyBirth(cfg, NextCommitOp(read, 0), m) && HasStatus(NextCommitOp(read, 0).db, m, Rejected)
  {
    assert read.ops[0] == PermanentOp(m, Processing, Rejected, UnknownProviderError);
  }

  /** The purge at the end of retention takes the message and, by cascade, its key. */
  lemma PurgeTakesKey(cfg: Config, w: World, m: MessageId)
    requires IsOnlyBirth(cfg, w, m) && HasStatus(w.db, m, Rejected)
    ensures {m} <= ExpiredIds(w.db, RETENTION_MS)
    ensures var v := NextPurge(w, {m}, RETENTION_MS);
      && "" !in v.db.keys && v.births == w.births && v.lastPurge == Some(RETENTION_MS)
      && (forall n :: n in v.ledger ==> n == m) && v.db.messages == map[]
  {
    PurgeIsExact(w.db, {m});
  }

  /** Then the key is free, and a second message is born while the window of the first is open. */
  lemma SecondBirth(cfg: Config, w: World, m: MessageId, other: MessageId)
    requires cfg.ttlMs > RETENTION_MS && other != m && "" !in w.db.keys && w.births == [Birth(m, "", 0)]
    requires (forall n :: n in w.ledger ==> n == m) && w.db.messages == map[]
    ensures Enabled(cfg, w, Create(other, "", RETENTION_MS, None))
    ensures !WindowsHold(cfg, NextCreate(cfg, w, other, "", RETENTION_MS, None))
  {
    var v := NextCreate(cfg, w, other, "", RETENTION_MS, None);
    assert v.births[0] == Birth(m, "", 0) && v.births[1] == Birth(other, "", RETENTION_MS);
  }

  lemma Rejection(cfg: Config, m: MessageId) returns (w: World)
    ensures IsMonotoneReachable(cfg, w) && IsOnlyBirth(cfg, w, m) && HasStatus(w.db, m, Rejected)
  {
    w := PublishedMonotonely(cfg, m);
    OnlyBirthPublished(cfg, w, m);
    ClaimKeepsBirth(cfg, w, m);
    MonotoneReachNext(cfg, w, Work(0, Claim(JobId(m, 0))));
    w := RejectClaimed(cfg, NextClaim(w, JobId(m, 0), 0), m);
  }

  lemma OnlyBirthPublished(cfg: Config, w: World, m: MessageId)
    requires IsPublished(w, m) && IsUntouched(cfg, w, m) && IsMonotoneReachable(cfg, w)
    ensures IsOnlyBirth(cfg, w, m)
  {
    var acts :| IsRun(cfg, Init(0), acts) && IsMonotoneRun(cfg, Init(0), acts) && After(cfg, Init(0), acts) == w;
    InitIsSafe(0);
    RunKeepsSafe(cfg, Init(0), acts);
    assert Known(w);
  }

  lemma RejectClaimed(cfg: Config, w: World, m: MessageId) returns (v: World)
    requires IsMonotoneReachable(cfg, w) && IsOnlyBirth(cfg, w, m) && HasStatus(w.db, m, Processing) && w.ops == map[]
    ensures IsMonotoneReachable(cfg, v) && IsOnlyBirth(cfg, v, m) && HasStatus(v.db, m, Rejected)
  {
    var read := NextReadPermanent(w, 0, m, Rejected, UnknownProviderError);
    RejectKeepsBirth(cfg, w, m, read);
    MonotoneReachNext(cfg, w, Operate(ReadPermanent(0, m, Rejected, UnknownProviderError)));
    MonotoneReachNext(cfg, read, Operate(CommitOp(0)));
    v := NextCommitOp(read, 0);
  }

  /** With a longer TTL a monotone run breaks a window: a message fails permanently, is purged at the end
      of its retention while its key is live, and the key creates a second one at once. */
  lemma LongTtlBreaksWindow(cfg: Config)
    requires cfg.ttlMs > RETENTION_MS
    ensures !MonotoneRunsKeepWindows(cfg)
  {
    var m, other := Uuid("a"), Uuid("b");
    var w := Rejection(cfg, m);
    PurgeTakesKey(cfg, w, m);
    MonotoneReachNext(cfg, w, PurgeBatch({m}, RETENTION_MS));
    var purged := NextPurge(w, {m}, RETENTION_MS);
    SecondBirth(cfg, purged, m, other);
    MonotoneReachNext(cfg, purged, Create(other, "", RETENTION_MS, None));
  }

  /** Every run with clocks that do not run backwards keeps the windows if and only if the TTL is at most
      2160 hours, the retention time. */
  lemma WindowsHoldIffTtlWithinRetention(cfg: Config)
    requires cfg.ttlMs >= 0
    ensures MonotoneRunsKeepWindows(cfg) <==> cfg.ttlMs <= HoursToMs(2160)
  {
    if cfg.ttlMs <= HoursToMs(2160) {
      forall clock, acts | IsRun(cfg, Init(clock), acts) && IsMonotoneRun(cfg, Init(clock), acts)
        ensures WindowsHold(cfg, After(cfg, Init(clock), acts))
      {
        OneMessagePerWindowOfMonotoneRuns(cfg, clock, acts);
      }
    } else {
      LongTtlBreaksWindow(cfg);
    }
  }
}
