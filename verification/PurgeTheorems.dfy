// Which messages a purge may delete, from the transition table: those that can never move again and whose
// retention has run out. Every other message survives every run.
module PurgeTheorems {
  import opened StateMachine
  import opened Tables
  import opened Retention
  import opened Protocol
  import opened Safety
  import opened SafetyTheorems
  import opened StatusTheorems

  /** The message has come to its end, and its records are due. */
  predicate IsDue(row: Message, now: Time) {
    Outgoing(row.status) == {} && row.retentionExpiresAt <= now
  }

  /** A purge may take any set of such messages, and no other. */
  lemma PurgeTakesDue(cfg: Config, w: World, ids: set<MessageId>, now: Time)
    ensures Enabled(cfg, w, PurgeBatch(ids, now)) <==> forall m :: m in ids ==> m in w.db.messages && IsDue(w.db.messages[m], now)
  {
    TerminalMayGo();
    assert forall m :: m in ExpiredIds(w.db, now) <==> m in w.db.messages && IsDue(w.db.messages[m], now);
  }

  /** A batch that is not full leaves nothing behind that is due. */
  lemma ShortBatchTakesAll(db: Db, now: Time, batchSize: nat, ids: set<MessageId>)
    requires IsBatch(db, now, batchSize, ids)
    ensures |ids| <= batchSize && forall m :: m in ids ==> m in db.messages && IsDue(db.messages[m], now)
    ensures |ids| < batchSize ==> forall m :: m in Purge(db, ids).messages ==> !IsDue(Purge(db, ids).messages[m], now)
  {
    TerminalMayGo();
    assert forall m :: m in ExpiredIds(db, now) <==> m in db.messages && IsDue(db.messages[m], now);
    PurgeIsExact(db, ids);
  }

  // --- Over runs ------------------------------------------------------------------------------------------------

  /** The step deletes the message: it is a purge of a message that is due. */
  predicate Deletes(w: World, act: Action, m: MessageId) {
    act.PurgeBatch? && m in act.ids && m in w.db.messages && IsDue(w.db.messages[m], act.now)
  }

  lemma OperateKeepsMessage(w: World, step: OperatorStep, m: MessageId)
    requires OperateEnabled(w, step)
    ensures m in NextOperate(w, step).db.messages <==> m in w.db.messages
  {
    match step
    case CommitOp(op) => OpEffectSameRows(w.db, w.ops[op]);
    case _ =>
  }

  lemma WorkKeepsMessage(cfg: Config, w: World, id: WorkerId, step: WorkerStep, m: MessageId)
    requires WorkEnabled(cfg, w, id, step)
    ensures m in NextWork(cfg, w, id, step).db.messages <==> m in w.db.messages
  {
  }

  /** A step removes a message exactly when it is such a purge. */
  lemma OnlyDueMessagesGo(cfg: Config, w: World, act: Action, m: MessageId)
    requires Enabled(cfg, w, act) && m in w.db.messages
    ensures m !in Next(cfg, w, act).db.messages <==> Deletes(w, act, m)
  {
    match act
    case PurgeBatch(ids, now) =>
      PurgeTakesDue(cfg, w, ids, now);
      PurgeIsExact(w.db, ids);
    case Work(id, step) => WorkKeepsMessage(cfg, w, id, step, m);
    case Operate(step) => OperateKeepsMessage(w, step, m);
    case _ =>
  }

  /** No action of the run deletes the message. */
  ghost predicate IsSpared(cfg: Config, w: World, acts: seq<Action>, m: MessageId)
    requires IsRun(cfg, w, acts)
    decreases |acts|
  {
    acts == [] || (!Deletes(w, acts[0], m) && IsSpared(cfg, Next(cfg, w, acts[0]), acts[1..], m))
  }

  /** A message is still there after a run if and only if no purge found it due: until it has come to its end
      and its retention has run out, nothing deletes it. */
  lemma {:induction false} SurvivesIffSpared(cfg: Config, w: World, acts: seq<Action>, m: MessageId)
    requires Safe(w) && IsRun(cfg, w, acts) && m in w.db.messages
    ensures m in After(cfg, w, acts).db.messages <==> IsSpared(cfg, w, acts, m)
    decreases |acts|
  {
    if acts != [] {
      var next := Next(cfg, w, acts[0]);
      NextKeepsSafe(cfg, w, acts[0]);
      OnlyDueMessagesGo(cfg, w, acts[0], m);
      if m in next.db.messages {
        SurvivesIffSpared(cfg, next, acts[1..], m);
      } else {
        NextKeepsLedger(cfg, w, acts[0]);
        GoneForGood(cfg, next, acts[1..], m);
      }
    }
  }

  /** A purge leaves every other message, with all its rows, as it was. */
  lemma OthersSurvivePurge(w: World, ids: set<MessageId>, now: Time, m: MessageId)
    requires m in w.db.messages && m !in ids
    ensures var after := NextPurge(w, ids, now).db;
      && m in after.messages && after.messages[m] == w.db.messages[m]
      && (forall a :: a in w.db.attempts && w.db.attempts[a].message == m ==>
            a in after.attempts && after.attempts[a] == w.db.attempts[a])
      && (forall a :: a in w.db.resolutions && w.db.resolutions[a].message == m ==>
            a in after.resolutions && after.resolutions[a] == w.db.resolutions[a])
      && (forall e :: e in w.db.outbox && w.db.outbox[e].aggregateId == m ==>
            e in after.outbox && after.outbox[e] == w.db.outbox[e])
      && (forall k :: k in w.db.keys && w.db.keys[k].message == m ==> k in after.keys && after.keys[k] == w.db.keys[k])
  {
    PurgeIsExact(w.db, ids);
  }
}
