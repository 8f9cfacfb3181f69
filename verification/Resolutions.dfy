// Audited resolution: a repeat is safe, a different decision is refused, and when exactly the resolved
// attempt is the one in doubt.
module Resolutions {
  import opened StateMachine
  import opened Tables
  import opened Lifecycle
  import opened LifecycleInvariant
  import opened Outbox
  import opened Providers
  import opened Protocol
  import opened Reachability

  predicate IsNewest(db: Db, m: MessageId, a: AttemptId) {
    a in db.attempts && db.attempts[a].message == m &&
    forall b :: b in db.attempts && db.attempts[b].message == m ==> b <= a
  }

  /** While a message awaits its provider, an attempt of it is in doubt exactly when it is the newest. */
  lemma InDoubtIffNewest(db: Db, m: MessageId, a: AttemptId)
    requires ValidDb(db) && HasStatus(db, m, AwaitingProviderResult)
    requires a in db.attempts && db.attempts[a].message == m
    ensures !db.attempts[a].Definitive() <==> IsNewest(db, m, a)
  {
    var c :| c in db.attempts && db.attempts[c].message == m && !db.attempts[c].Definitive();
    assert a < c ==> db.attempts[a].Definitive();
    assert c >= a;
  }

  /** Whatever commits between its read and its update, a resolution that takes effect settles the attempt
      in doubt if and only if the named attempt is then still the newest of its message. */
  lemma ResolutionHitsDoubtIffNewest(db: Db, m: MessageId, a: AttemptId, input: ResolveInput, env: Db -> Db)
    requires ValidDb(db) && ValidDb(env(db))
    requires a in env(db).attempts && a in db.attempts ==> env(db).attempts[a].message == db.attempts[a].message
    ensures var (after, r) := ResolveTwilioAttempt(db, m, a, input, env);
      r.Resolved? ==>
        && ValidDb(after) && a in after.attempts && after.resolutions[a] == AuditRow(m, input)
        && (!after.attempts[a].Definitive() <==> IsNewest(env(db), m, a))
  {
    var (after, r) := ResolveTwilioAttempt(db, m, a, input, env);
    if r.Resolved? {
      InDoubtIffNewest(env(db), m, a);
      ResolveCommitKeepsValid(env(db), m, a, input);
    }
  }

  /** Without interference it always does. */
  lemma UndisturbedResolutionHitsDoubt(db: Db, m: MessageId, a: AttemptId, input: ResolveInput)
    requires ValidDb(db)
    ensures var (after, r) := ResolveTwilioAttempt(db, m, a, input, d => d);
      r.Resolved? ==> IsNewest(db, m, a) && !after.attempts[a].Definitive()
  {
    if ResolveTwilioAttempt(db, m, a, input, d => d).1.Resolved? {
      InDoubtIffNewest(db, m, a);
    }
  }

  /** Repeating a decision that took effect changes nothing and reports it; any other one is refused. */
  lemma RepeatIsSafe(db: Db, m: MessageId, a: AttemptId, input: ResolveInput, again: ResolveInput, env: Db -> Db, later: Db -> Db)
    requires ValidDb(env(db)) && IsValidResolution(again)
    ensures var (after, r) := ResolveTwilioAttempt(db, m, a, input, env);
      r.Resolved? ==>
        var (last, repeated) := ResolveTwilioAttempt(after, m, a, again, later);
        && last == after
        && repeated == (if again == input then AlreadyResolved(r.row) else Conflict)
  {
    var (after, r) := ResolveTwilioAttempt(db, m, a, input, env);
    if r.Resolved? {
      assert after.resolutions[a] == AuditRow(m, input) && after.messages[m] == r.row;
      RecordedDecisionStands(after, m, a, input, again, later);
    }
  }

  lemma RecordedDecisionStands(db: Db, m: MessageId, a: AttemptId, input: ResolveInput, again: ResolveInput, env: Db -> Db)
    requires m in db.messages && a in db.resolutions && db.resolutions[a] == AuditRow(m, input) && IsValidResolution(again)
    ensures ResolveTwilioAttempt(db, m, a, again, env)
         == (db, if again == input then AlreadyResolved(db.messages[m]) else Conflict)
  {
    AuditRowMatches(m, input, again);
  }

  lemma AuditRowMatches(m: MessageId, input: ResolveInput, again: ResolveInput)
    ensures MatchesResolution(AuditRow(m, input), again) <==> again == input
  {
    assert input.UndeliveredBy? ==> input.evidence == TwilioUndeliveredConfirmed;
    assert again.UndeliveredBy? ==> again.evidence == TwilioUndeliveredConfirmed;
  }

  // --- A run in which the named attempt is not the one in doubt ---------------------------------------------

  /** Two providers, one retry round. */
  const PAIR := Protocol.Config(["twilio", "bird"], 1, 2000, 900000, 86400000)

  const REFUSED := SendResult(false, None, None, true, None)

  /** Worker 0 stands at `phase` with the given failures, for the only message. */
  predicate StandsAt(w: World, m: MessageId, failures: seq<bool>, phase: Phase) {
    0 in w.workers && w.workers[0] == Worker(m, 0, failures, phase)
  }

  lemma ClaimRun(m: MessageId) returns (w: World)
    ensures IsReachable(PAIR, w) && HasStatus(w.db, m, Processing) && StandsAt(w, m, [], Ready) && w.calls == []
    ensures w.db.attempts == map[] && w.db.nextAttempt == 0 && w.db.resolutions == map[] && w.ops == map[]
  {
    w := Published(PAIR, m);
    ReachNext(PAIR, w, Work(0, Claim(JobId(m, 0))));
    w := NextClaim(w, JobId(m, 0), 0);
  }

  /** The first provider was reserved and called, and has refused; nothing of that is recorded yet. */
  ghost predicate IsAnswered(w: World, m: MessageId) {
    && HasStatus(w.db, m, AwaitingProviderResult) && StandsAt(w, m, [], Answered(0, REFUSED, 0))
    && w.db.attempts == map[0 := Attempt(m, "twilio", Reserved, false, true, None, None)]
    && w.db.nextAttempt == 1 && w.db.resolutions == map[]
  }

  lemma FirstCall(m: MessageId) returns (w: World)
    ensures IsReachable(PAIR, w) && IsAnswered(w, m) && w.ops == map[]
  {
    w := ClaimRun(m);
    ReachNext(PAIR, w, Work(0, Reserve));
    w := NextReserve(PAIR, w, 0);
    ReachNext(PAIR, w, Work(0, CallProvider(REFUSED, false)));
    w := NextCall(w, 0, REFUSED, false);
  }

  lemma ReadOfAnswered(w: World, m: MessageId, input: ResolveInput)
    requires IsAnswered(w, m) && IsValidResolution(input)
    ensures var v := NextReadResolve(w, 0, m, 0, input);
      IsAnswered(v, m) && 0 in v.ops && v.ops[0] == ResolveOp(m, 0, input)
  {
    assert ResolveCheck(w.db, m, 0, input).Proceed?;
  }

  /** Before the refusal is recorded, an operator's resolution of that attempt makes its checks. */
  lemma OperatorReads(m: MessageId, input: ResolveInput) returns (w: World)
    requires IsValidResolution(input)
    ensures IsReachable(PAIR, w) && IsAnswered(w, m) && 0 in w.ops && w.ops[0] == ResolveOp(m, 0, input)
  {
    var before := FirstCall(m);
    ReadOfAnswered(before, m, input);
    ReachNext(PAIR, before, Operate(ReadResolve(0, m, 0, input)));
    w := NextReadResolve(before, 0, m, 0, input);
  }

  /** The refusal is recorded and the worker reserves the next provider. */
  lemma WorkerGoesOn(w: World, m: MessageId) returns (v: World)
    requires IsReachable(PAIR, w) && IsAnswered(w, m)
    ensures IsReachable(PAIR, v) && HasStatus(v.db, m, AwaitingProviderResult) && v.ops == w.ops
    ensures v.db.resolutions == w.db.resolutions
    ensures 0 in v.db.attempts && v.db.attempts[0].Definitive()
    ensures 1 in v.db.attempts && v.db.attempts[1] == Attempt(m, "bird", Reserved, false, true, None, None)
  {
    ReachNext(PAIR, w, Work(0, Finalize));
    var ready := NextFinalize(PAIR, w, 0);
    RefusalIsRecorded(w, m);
    ReachNext(PAIR, ready, Work(0, Reserve));
    v := NextReserve(PAIR, ready, 0);
  }

  lemma RefusalIsRecorded(w: World, m: MessageId)
    requires IsAnswered(w, m)
    ensures var v := NextFinalize(PAIR, w, 0);
      && HasStatus(v.db, m, Processing) && StandsAt(v, m, [true], Ready) && v.db.nextAttempt == 1
      && v.db.attempts.Keys == {0} && v.db.attempts[0].Definitive() && v.db.resolutions == w.db.resolutions
  {
    assert IsReservedFor(w.db, m, 0);
  }

  lemma CommitNamesFirst(db: Db, m: MessageId, input: ResolveInput)
    requires HasStatus(db, m, AwaitingProviderResult) && db.resolutions == map[] && 0 in db.attempts && 1 in db.attempts
    ensures var (after, r) := ResolveCommit(db, m, 0, input);
      && r.Resolved? && after.attempts == db.attempts && after.resolutions == map[0 := AuditRow(m, input)]
  {
  }

  /** The audit record names an attempt that was cleanly refused, and the one in doubt has none. */
  ghost predicate NamesRefused(db: Db, m: MessageId) {
    && m in db.messages && IsSettled(db.messages[m].status)
    && 0 in db.attempts && db.attempts[0].Definitive() && 0 in db.resolutions && db.resolutions[0].message == m
    && 1 in db.attempts && db.attempts[1].message == m && !db.attempts[1].Definitive() && 1 !in db.resolutions
  }

  /** A reachable state, for either decision, in which the audit record names a refused attempt while the
      next provider's answer is still out: the worker's two transactions came between the operator's checks
      and update. */
  lemma ResolutionCanNameRefusedAttempt(m: MessageId, input: ResolveInput)
    requires IsValidResolution(input)
    ensures exists w :: IsReachable(PAIR, w) && NamesRefused(w.db, m)
  {
    var read := OperatorReads(m, input);
    var w := WorkerGoesOn(read, m);
    CommitNamesFirst(w.db, m, input);
    ReachNext(PAIR, w, Operate(CommitOp(0)));
    var v := NextCommitOp(w, 0);
    assert NamesRefused(v.db, m);
  }
}
