// The transactions of operators and webhooks as the protocol takes them apart: a read, any run of the others, and
// a commit. Put together again they are the transactions of the repository.
module Operations {
  import opened StateMachine
  import opened Tables
  import opened Lifecycle
  import opened Protocol

  /** Nobody else finishes `op`. */
  predicate LeavesOpen(acts: seq<Action>, op: OpId) {
    Operate(CommitOp(op)) !in acts
  }

  lemma StepLeavesOpen(cfg: Config, w: World, act: Action, op: OpId)
    requires Enabled(cfg, w, act) && op in w.ops && act != Operate(CommitOp(op))
    ensures op in Next(cfg, w, act).ops && Next(cfg, w, act).ops[op] == w.ops[op]
  {
    match act
    case Work(id, step) => WorkLeavesOps(cfg, w, id, step);
    case Operate(step) => OperateLeavesOpen(w, step, op);
    case _ =>
  }

  lemma WorkLeavesOps(cfg: Config, w: World, id: WorkerId, step: WorkerStep)
    requires WorkEnabled(cfg, w, id, step)
    ensures NextWork(cfg, w, id, step).ops == w.ops
  {
  }

  lemma OperateLeavesOpen(w: World, step: OperatorStep, op: OpId)
    requires OperateEnabled(w, step) && op in w.ops && step != CommitOp(op)
    ensures op in NextOperate(w, step).ops && NextOperate(w, step).ops[op] == w.ops[op]
  {
  }

  lemma {:induction false} RunLeavesOpen(cfg: Config, w: World, acts: seq<Action>, op: OpId)
    requires IsRun(cfg, w, acts) && LeavesOpen(acts, op) && op in w.ops
    ensures op in After(cfg, w, acts).ops && After(cfg, w, acts).ops[op] == w.ops[op]
    decreases |acts|
  {
    if acts != [] {
      StepLeavesOpen(cfg, w, acts[0], op);
      RunLeavesOpen(cfg, Next(cfg, w, acts[0]), acts[1..], op);
    }
  }

  /** A delivery report whose read passes commits what the repository's transaction commits when the others get in
      between as they do in the run; one whose read does not pass commits nothing, whatever the others do. */
  lemma ReportIsTransaction(cfg: Config, w: World, op: OpId, pmid: string, terminal: SmsStatus,
                            found: Option<MessageId>, acts: seq<Action>)
    requires OperateEnabled(w, ReadReport(op, pmid, terminal, found))
    requires IsRun(cfg, NextReadReport(w, op, pmid, terminal, found), acts) && LeavesOpen(acts, op)
    ensures var v := NextReadReport(w, op, pmid, terminal, found);
      var u := After(cfg, v, acts);
      if op in v.ops then op in u.ops && NextCommitOp(u, op).db == ApplyDeliveryReport(w.db, pmid, terminal, found, _ => u.db).0
      else v == w && forall env :: ApplyDeliveryReport(w.db, pmid, terminal, found, env).0 == w.db
  {
    var v := NextReadReport(w, op, pmid, terminal, found);
    if op in v.ops {
      RunLeavesOpen(cfg, v, acts, op);
    }
  }

  /** The same of a resolution. */
  lemma ResolutionIsTransaction(cfg: Config, w: World, op: OpId, m: MessageId, a: AttemptId, input: ResolveInput,
                                acts: seq<Action>)
    requires op !in w.ops && IsRun(cfg, NextReadResolve(w, op, m, a, input), acts) && LeavesOpen(acts, op)
    ensures var v := NextReadResolve(w, op, m, a, input);
      var u := After(cfg, v, acts);
      if op in v.ops then op in u.ops && NextCommitOp(u, op).db == ResolveTwilioAttempt(w.db, m, a, input, _ => u.db).0
      else v == w && forall env :: ResolveTwilioAttempt(w.db, m, a, input, env).0 == w.db
  {
    var v := NextReadResolve(w, op, m, a, input);
    if op in v.ops {
      RunLeavesOpen(cfg, v, acts, op);
    }
  }

  /** The same of a permanent failure. */
  lemma PermanentIsTransaction(cfg: Config, w: World, op: OpId, m: MessageId, to: SmsStatus, error: Note,
                               acts: seq<Action>)
    requires OperateEnabled(w, ReadPermanent(op, m, to, error))
    requires IsRun(cfg, NextReadPermanent(w, op, m, to, error), acts) && LeavesOpen(acts, op)
    ensures var v := NextReadPermanent(w, op, m, to, error);
      var u := After(cfg, v, acts);
      if op in v.ops then
        op in u.ops && NextCommitOp(u, op).db == GuardedTransition(w.db, m, to, PermanentPatch(error), _ => u.db).0
      else
        v == w && forall env :: GuardedTransition(w.db, m, to, PermanentPatch(error), env).0 == w.db
  {
    var v := NextReadPermanent(w, op, m, to, error);
    if op in v.ops {
      RunLeavesOpen(cfg, v, acts, op);
    }
  }
}
