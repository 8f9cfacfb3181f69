// Which messages a recovery releases: exactly those in `PROCESSING` whose row nothing has touched since before
// the cutoff.
module Recovery {
  import opened StateMachine
  import opened Tables
  import opened Lifecycle
  import opened Protocol
  import opened Safety
  import opened SafetyTheorems
  import opened WorkerRefinement
  import opened Rows

  /** One transaction releases its message exactly if it is being processed and was last written before the
      cutoff: the row goes back to `RETRY_SCHEDULED` and one event hands it to the workers. */
  lemma RecoversIff(db: Db, m: MessageId, cutoff: Time)
    ensures var (after, recovered) := RecoverOne(db, m, cutoff);
      && (recovered <==> m in db.messages && db.messages[m].status == Processing && db.messages[m].updatedAt < cutoff)
      && (!recovered ==> after == db)
      && (recovered ==>
            && after == db.(messages := after.messages, outbox := after.outbox, nextEvent := db.nextEvent + 1)
            && after.messages == db.messages[m := db.messages[m].(status := RetryScheduled, updatedAt := db.clock)]
            && after.outbox == db.outbox[db.nextEvent := OutboxEvent(m, ProcessingRecovered, MessagePayload(m), false, 0, None)])
  {
  }

  // --- The timestamp over runs ------------------------------------------------------------------------------------

  /** Whatever changes a row stamps it with the database clock. */
  lemma ChangeIsStamped(cfg: Config, w: World, act: Action, m: MessageId)
    requires Enabled(cfg, w, act) && AllInPass(cfg, w) && m in w.db.messages
    ensures var after := RowAfter(cfg, w, act, m);
      after != w.db.messages[m] ==> after.updatedAt == w.db.clock
  {
    if act.Work? {
      assert InPass(cfg, w, act.worker);
    }
  }

  lemma ClockNeverFalls(cfg: Config, w: World, act: Action)
    requires Enabled(cfg, w, act)
    ensures Next(cfg, w, act).db.clock >= w.db.clock
  {
    match act
    case Work(id, step) => WorkKeepsClock(cfg, w, id, step);
    case Operate(step) => OperateKeepsClock(w, step);
    case _ =>
  }

  lemma WorkKeepsClock(cfg: Config, w: World, id: WorkerId, step: WorkerStep)
    requires WorkEnabled(cfg, w, id, step)
    ensures NextWork(cfg, w, id, step).db.clock == w.db.clock
  {
  }

  lemma OperateKeepsClock(w: World, step: OperatorStep)
    requires OperateEnabled(w, step)
    ensures NextOperate(w, step).db.clock == w.db.clock
  {
  }

  /** The message was written at the cutoff or later, if it is still there. */
  predicate IsFresh(w: World, m: MessageId, cutoff: Time) {
    w.db.clock >= cutoff && (m in w.db.messages ==> w.db.messages[m].updatedAt >= cutoff)
  }

  lemma NextKeepsFresh(cfg: Config, w: World, act: Action, m: MessageId, cutoff: Time)
    requires Safe(w) && AllInPass(cfg, w) && Enabled(cfg, w, act) && cfg.expiryMs > 0 && IsFresh(w, m, cutoff)
    ensures IsFresh(Next(cfg, w, act), m, cutoff)
  {
    ClockNeverFalls(cfg, w, act);
    if m in Next(cfg, w, act).db.messages {
      if m in w.db.messages {
        StepWritesRow(cfg, w, act, m);
        ChangeIsStamped(cfg, w, act, m);
      } else {
        StepWritesFirstRow(cfg, w, act, m);
      }
    }
  }

  lemma {:induction false} RunKeepsFresh(cfg: Config, w: World, acts: seq<Action>, m: MessageId, cutoff: Time)
    requires Safe(w) && AllInPass(cfg, w) && IsRun(cfg, w, acts) && cfg.expiryMs > 0 && IsFresh(w, m, cutoff)
    ensures IsFresh(After(cfg, w, acts), m, cutoff)
    decreases |acts|
  {
    if acts != [] {
      NextKeepsSafe(cfg, w, acts[0]);
      NextKeepsInPass(cfg, w, acts[0]);
      NextKeepsFresh(cfg, w, acts[0], m, cutoff);
      RunKeepsFresh(cfg, Next(cfg, w, acts[0]), acts[1..], m, cutoff);
    }
  }

  /** In every run: once a step has changed a message's row at the cutoff or later, as a claim does, no recovery
      with that cutoff releases the message, however long it waits. */
  lemma TouchedIsNotRecovered(cfg: Config, clock: Time, acts: seq<Action>, act: Action, later: seq<Action>, m: MessageId, cutoff: Time)
    requires cfg.expiryMs > 0 && IsRun(cfg, Init(clock), acts) && Enabled(cfg, After(cfg, Init(clock), acts), act)
    requires var w := After(cfg, Init(clock), acts);
      && IsRun(cfg, Next(cfg, w, act), later)
      && w.db.clock >= cutoff && m in w.db.messages && m in Next(cfg, w, act).db.messages
      && Next(cfg, w, act).db.messages[m] != w.db.messages[m]
    ensures var u := After(cfg, Next(cfg, After(cfg, Init(clock), acts), act), later);
      NextRecover(u, m, cutoff) == u
  {
    var w := After(cfg, Init(clock), acts);
    InitIsSafe(clock);
    RunKeepsSafe(cfg, Init(clock), acts);
    RunKeepsInPass(cfg, Init(clock), acts);
    StepWritesRow(cfg, w, act, m);
    ChangeIsStamped(cfg, w, act, m);
    ClockNeverFalls(cfg, w, act);
    TouchedStaysFresh(cfg, w, act, later, m, cutoff);
  }

  lemma TouchedStaysFresh(cfg: Config, w: World, act: Action, later: seq<Action>, m: MessageId, cutoff: Time)
    requires Safe(w) && AllInPass(cfg, w) && Enabled(cfg, w, act) && cfg.expiryMs > 0
    requires IsRun(cfg, Next(cfg, w, act), later) && IsFresh(Next(cfg, w, act), m, cutoff)
    ensures var u := After(cfg, Next(cfg, w, act), later); NextRecover(u, m, cutoff) == u
  {
    NextKeepsSafe(cfg, w, act);
    NextKeepsInPass(cfg, w, act);
    RunKeepsFresh(cfg, Next(cfg, w, act), later, m, cutoff);
    FreshIsNotRecovered(After(cfg, Next(cfg, w, act), later), m, cutoff);
  }

  lemma FreshIsNotRecovered(w: World, m: MessageId, cutoff: Time)
    requires IsFresh(w, m, cutoff)
    ensures NextRecover(w, m, cutoff) == w
  {
    RecoversIff(w.db, m, cutoff);
  }

  predicate IsReleased(w: World, m: MessageId, now: Time) {
    w.db.clock == now && m in w.db.messages && w.db.messages[m].status == RetryScheduled
  }

  /** A message left in `PROCESSING` is never out of reach: once the clock has moved on far enough, the recovery
      with the cutoff `staleMs` ago releases it. */
  lemma StuckIsRecovered(cfg: Config, w: World, m: MessageId, staleMs: nat) returns (ms: nat)
    requires m in w.db.messages && w.db.messages[m].status == Processing
    ensures var v := Next(cfg, w, Tick(ms));
      var recover := Operate(Recover(m, v.db.clock - staleMs));
      Enabled(cfg, v, recover) && IsReleased(Next(cfg, v, recover), m, w.db.clock + ms)
  {
    var due := w.db.messages[m].updatedAt - w.db.clock + staleMs + 1;
    ms := if due < 0 then 0 else due;
    RecoveredAfter(cfg, w, m, ms, w.db.clock + ms - staleMs);
  }

  lemma RecoveredAfter(cfg: Config, w: World, m: MessageId, ms: nat, cutoff: Time)
    requires m in w.db.messages && w.db.messages[m].status == Processing && w.db.messages[m].updatedAt < cutoff
    ensures var v := Next(cfg, w, Tick(ms));
      v.db.clock == w.db.clock + ms && IsReleased(Next(cfg, v, Operate(Recover(m, cutoff))), m, w.db.clock + ms)
  {
    var v := Next(cfg, w, Tick(ms));
    RecoversIff(v.db, m, cutoff);
    assert Next(cfg, v, Operate(Recover(m, cutoff))) == NextRecover(v, m, cutoff);
  }
}
