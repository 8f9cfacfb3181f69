// Reachable worlds, one action at a time, for the runs that show where a property fails.
module Reachability {
  import opened StateMachine
  import opened Tables
  import opened Lifecycle
  import opened Protocol
  import opened DispatchTheorems

  ghost predicate IsReachable(cfg: Config, w: World) {
    exists clock, acts :: IsRun(cfg, Init(clock), acts) && After(cfg, Init(clock), acts) == w
  }

  lemma ReachNext(cfg: Config, w: World, act: Action)
    requires IsReachable(cfg, w) && Enabled(cfg, w, act)
    ensures IsReachable(cfg, Next(cfg, w, act))
  {
    var clock, acts :| IsRun(cfg, Init(clock), acts) && After(cfg, Init(clock), acts) == w;
    RunExtends(cfg, Init(clock), acts, act);
  }

  /** One message is queued, its event published, and its job waits in the queue. */
  lemma Published(cfg: Config, m: MessageId) returns (w: World)
    ensures IsReachable(cfg, w) && IsPublished(w, m) && IsUntouched(cfg, w, m)
  {
    AfterLosingRun(cfg, m);
    w := After(cfg, Init(0), LosingRun(m));
  }

  /** Its worker is inside the call of the first provider. */
  ghost predicate IsInFlight(w: World, m: MessageId) {
    && 0 in w.workers && w.workers[0] == Worker(m, 0, [], InFlight(0))
    && HasStatus(w.db, m, AwaitingProviderResult) && IsReservedFor(w.db, m, 0)
  }

  lemma InFlightFirst(cfg: Config, m: MessageId) returns (w: World)
    requires cfg.providers != []
    ensures IsReachable(cfg, w) && IsInFlight(w, m)
  {
    var published := Published(cfg, m);
    var claimed := ClaimFirst(cfg, published, m);
    w := ReserveFirst(cfg, claimed, m);
  }

  lemma ClaimFirst(cfg: Config, published: World, m: MessageId) returns (w: World)
    requires IsReachable(cfg, published) && IsPublished(published, m) && IsUntouched(cfg, published, m)
    ensures IsReachable(cfg, w) && HasStatus(w.db, m, Processing)
    ensures w.workers == map[0 := Worker(m, 0, [], Ready)] && w.db.nextAttempt == 0
  {
    ReachNext(cfg, published, Work(0, Claim(JobId(m, 0))));
    w := NextClaim(published, JobId(m, 0), 0);
  }

  lemma ReserveFirst(cfg: Config, claimed: World, m: MessageId) returns (w: World)
    requires cfg.providers != [] && IsReachable(cfg, claimed) && HasStatus(claimed.db, m, Processing)
    requires claimed.workers == map[0 := Worker(m, 0, [], Ready)] && claimed.db.nextAttempt == 0
    ensures IsReachable(cfg, w) && IsInFlight(w, m)
  {
    ReachNext(cfg, claimed, Work(0, Reserve));
    w := NextReserve(cfg, claimed, 0);
  }

  // --- Continuations without recovery -------------------------------------------------------------------

  predicate IsRecovery(act: Action) {
    act.Operate? && act.operation.Recover?
  }

  ghost predicate HasNoRecovery(acts: seq<Action>) {
    forall i :: 0 <= i < |acts| ==> !IsRecovery(acts[i])
  }

  /** Some run from `u` ends in `w` and recovers nothing. */
  ghost predicate GoesTo(cfg: Config, u: World, w: World) {
    exists acts :: HasNoRecovery(acts) && IsRun(cfg, u, acts) && After(cfg, u, acts) == w
  }

  lemma GoesNowhere(cfg: Config, w: World)
    ensures GoesTo(cfg, w, w)
  {
    assert HasNoRecovery([]) && IsRun(cfg, w, []) && After(cfg, w, []) == w;
  }

  lemma GoesNext(cfg: Config, u: World, w: World, act: Action)
    requires GoesTo(cfg, u, w) && Enabled(cfg, w, act) && !IsRecovery(act)
    ensures GoesTo(cfg, u, Next(cfg, w, act))
  {
    var acts :| HasNoRecovery(acts) && IsRun(cfg, u, acts) && After(cfg, u, acts) == w;
    RunExtends(cfg, u, acts, act);
    assert HasNoRecovery(acts + [act]);
  }

  lemma {:induction false} RunsJoin(cfg: Config, w: World, acts: seq<Action>, later: seq<Action>)
    requires IsRun(cfg, w, acts) && IsRun(cfg, After(cfg, w, acts), later)
    ensures IsRun(cfg, w, acts + later) && After(cfg, w, acts + later) == After(cfg, After(cfg, w, acts), later)
    decreases |acts|
  {
    if acts == [] {
      assert acts + later == later;
    } else {
      assert (acts + later)[0] == acts[0] && (acts + later)[1..] == acts[1..] + later;
      RunsJoin(cfg, Next(cfg, w, acts[0]), acts[1..], later);
    }
  }

  lemma ReachFurther(cfg: Config, u: World, w: World)
    requires IsReachable(cfg, u) && GoesTo(cfg, u, w)
    ensures IsReachable(cfg, w)
  {
    var clock, acts :| IsRun(cfg, Init(clock), acts) && After(cfg, Init(clock), acts) == u;
    var later :| HasNoRecovery(later) && IsRun(cfg, u, later) && After(cfg, u, later) == w;
    RunsJoin(cfg, Init(clock), acts, later);
  }
}
