// Delivery reports: over any sequence of reports for one message the first fixes the status.
module Webhooks {
  import opened StateMachine
  import opened Tables
  import opened Lifecycle
  import opened LifecycleInvariant
  import opened StatusTheorems

  /** Reports are about `m`, whose row is the one found under its provider id. */
  predicate IsCorrelated(db: Db, m: MessageId, pmid: string) {
    m in db.messages && db.messages[m].providerMessageId == Some(pmid)
  }

  function ApplyOne(db: Db, m: MessageId, pmid: string, terminal: SmsStatus): (Db, ReportResult)
    requires IsCorrelated(db, m, pmid)
  {
    ApplyDeliveryReport(db, pmid, terminal, Some(m), d => d)
  }

  /** A set provider id is only seen on a settled message, so every applied report starts from `Sent`. */
  lemma AppliedFromSent(db: Db, m: MessageId, pmid: string, terminal: SmsStatus)
    requires ValidDb(db) && IsCorrelated(db, m, pmid) && IsDeliveryTerminal(terminal)
    ensures var (after, r) := ApplyOne(db, m, pmid, terminal);
      var current := db.messages[m].status;
      && (r.Applied? <==> current == Sent)
      && (r.Applied? ==> HasStatus(after, m, terminal))
      && (r.Duplicate? <==> current == terminal)
      && (r.ReportRefused? <==> current != Sent && current != terminal)
      && (!r.Applied? ==> after == db)
      && IsCorrelated(after, m, pmid) && ValidDb(after)
  {
    assert IsSettled(db.messages[m].status);
    if db.messages[m].status == Sent {
      ReportCommitKeepsValid(db, m, Sent, terminal);
    }
  }

  /** The results of a sequence of reports, and the database after them. */
  function ApplyAll(db: Db, m: MessageId, pmid: string, terminals: seq<SmsStatus>): (Db, seq<ReportResult>)
    requires ValidDb(db) && IsCorrelated(db, m, pmid)
    requires forall i :: 0 <= i < |terminals| ==> IsDeliveryTerminal(terminals[i])
    decreases |terminals|
  {
    if terminals == [] then (db, [])
    else
      AppliedFromSent(db, m, pmid, terminals[0]);
      var (next, r) := ApplyOne(db, m, pmid, terminals[0]);
      var (after, rest) := ApplyAll(next, m, pmid, terminals[1..]);
      (after, [r] + rest)
  }

  /** What a report comes to when the final status is `winner`. */
  predicate IsEcho(r: ReportResult, terminal: SmsStatus, winner: SmsStatus) {
    if terminal == winner then r.Duplicate? && r.row.status == winner else r == ReportRefused(winner)
  }

  /** After a final status, equal reports are duplicates, different ones are refused, and nothing changes. */
  lemma {:induction false} FinalStatusWins(db: Db, m: MessageId, pmid: string, terminals: seq<SmsStatus>)
    requires ValidDb(db) && IsCorrelated(db, m, pmid) && db.messages[m].status != Sent
    requires forall i :: 0 <= i < |terminals| ==> IsDeliveryTerminal(terminals[i])
    ensures var (after, results) := ApplyAll(db, m, pmid, terminals);
      && after == db && |results| == |terminals|
      && forall i :: 0 <= i < |terminals| ==> IsEcho(results[i], terminals[i], db.messages[m].status)
    decreases |terminals|
  {
    if terminals != [] {
      AppliedFromSent(db, m, pmid, terminals[0]);
      FinalStatusWins(db, m, pmid, terminals[1..]);
    }
  }

  /** The first report of a sent message is applied and fixes its status; all later ones only echo it. */
  lemma FirstReportWins(db: Db, m: MessageId, pmid: string, terminals: seq<SmsStatus>)
    requires ValidDb(db) && IsCorrelated(db, m, pmid) && db.messages[m].status == Sent && terminals != []
    requires forall i :: 0 <= i < |terminals| ==> IsDeliveryTerminal(terminals[i])
    ensures var (after, results) := ApplyAll(db, m, pmid, terminals);
      && |results| == |terminals| && results[0].Applied? && HasStatus(after, m, terminals[0])
      && forall i :: 0 < i < |terminals| ==> IsEcho(results[i], terminals[i], terminals[0])
  {
    AppliedFromSent(db, m, pmid, terminals[0]);
    var next := ApplyOne(db, m, pmid, terminals[0]).0;
    FinalStatusWins(next, m, pmid, terminals[1..]);
    var results := ApplyAll(db, m, pmid, terminals).1;
    assert results == [results[0]] + ApplyAll(next, m, pmid, terminals[1..]).1;
  }

  // --- With other transactions in between ---------------------------------------------------------------

  /** `found(i)` is the database at the read of report `i`, and `met(i)` the one at its update: each follows
      lawfully from what was there before, and the message is not purged. */
  ghost predicate IsReportRun(db: Db, m: MessageId, pmid: string, terminals: seq<SmsStatus>, k: nat, found: nat -> Db,
                              met: nat -> Db)
    requires k <= |terminals|
  {
    forall i: nat :: i < k ==> IsReportAt(db, m, pmid, terminals, i, found, met)
  }

  ghost predicate IsReportAt(db: Db, m: MessageId, pmid: string, terminals: seq<SmsStatus>, i: nat, found: nat -> Db,
                             met: nat -> Db)
    requires i < |terminals|
  {
    IsReport(m, terminals[i], StateBefore(db, m, pmid, terminals, i, found, met), found(i), met(i))
  }

  ghost predicate IsReport(m: MessageId, terminal: SmsStatus, before: Db, found: Db, met: Db) {
    && IsDeliveryTerminal(terminal)
    && m in found.messages && m in met.messages
    && Lawful(before, found) && Lawful(found, met)
  }

  /** One report whose read finds `found` and whose update meets `met`. */
  function ReportOnce(m: MessageId, pmid: string, terminal: SmsStatus, found: Db, met: Db): (Db, ReportResult) {
    if !IsCorrelated(found, m, pmid) then (found, ReportNotFound)
    else
      match ReportCheck(found, pmid, terminal, Some(m))
      case ReportStop(result) => (found, result)
      case ReportValidated(_, seen) => ReportCommit(met, m, seen, terminal)
  }

  /** That is the repository's transaction, with the commits that lead from the one database to the other. */
  lemma ReportOnceIsTransaction(m: MessageId, pmid: string, terminal: SmsStatus, found: Db, env: Db -> Db)
    requires IsCorrelated(found, m, pmid)
    ensures ReportOnce(m, pmid, terminal, found, env(found)) == ApplyDeliveryReport(found, pmid, terminal, Some(m), env)
  {
  }

  /** The database after the first `i` reports. */
  function StateBefore(db: Db, m: MessageId, pmid: string, terminals: seq<SmsStatus>, i: nat, found: nat -> Db,
                       met: nat -> Db): Db
    requires i <= |terminals|
  {
    if i == 0 then db else ReportOnce(m, pmid, terminals[i - 1], found(i - 1), met(i - 1)).0
  }

  function ResultOf(m: MessageId, pmid: string, terminals: seq<SmsStatus>, i: nat, found: nat -> Db, met: nat -> Db): ReportResult
    requires i < |terminals|
  {
    ReportOnce(m, pmid, terminals[i], found(i), met(i)).1
  }

  /** The message keeps its provider id and, once it has one, its final status. */
  predicate IsFixed(db: Db, m: MessageId, pmid: string, winner: SmsStatus) {
    IsCorrelated(db, m, pmid) && db.messages[m].status == winner && IsDeliveryTerminal(winner)
  }

  lemma LawfulStaysFixed(db: Db, after: Db, m: MessageId, pmid: string, winner: SmsStatus)
    requires IsFixed(db, m, pmid, winner) && Lawful(db, after) && m in after.messages
    ensures IsFixed(after, m, pmid, winner)
  {
  }

  /** A report that finds a final status echoes it, whatever commits before its update. */
  lemma ReportEchoes(m: MessageId, pmid: string, terminal: SmsStatus, found: Db, met: Db, winner: SmsStatus)
    requires IsFixed(found, m, pmid, winner) && IsDeliveryTerminal(terminal)
    ensures var (after, r) := ReportOnce(m, pmid, terminal, found, met); after == found && IsEcho(r, terminal, winner)
  {
  }

  /** A report that is applied fixes its status. */
  lemma AppliedFixes(m: MessageId, pmid: string, terminal: SmsStatus, found: Db, met: Db)
    requires m in found.messages && m in met.messages && Lawful(found, met) && IsDeliveryTerminal(terminal)
    ensures var (after, r) := ReportOnce(m, pmid, terminal, found, met); r.Applied? ==> IsFixed(after, m, pmid, terminal)
  {
    AppliedShape(m, pmid, terminal, found, met);
  }

  lemma AppliedShape(m: MessageId, pmid: string, terminal: SmsStatus, found: Db, met: Db)
    requires m in found.messages && m in met.messages
    ensures var (after, r) := ReportOnce(m, pmid, terminal, found, met);
      r.Applied? ==>
        && IsCorrelated(found, m, pmid) && HasStatus(after, m, terminal)
        && after.messages[m].providerMessageId == met.messages[m].providerMessageId
  {
    if IsCorrelated(found, m, pmid) {
      CommitShape(met, m, found.messages[m].status, terminal);
    }
  }

  lemma CommitShape(met: Db, m: MessageId, seen: SmsStatus, terminal: SmsStatus)
    requires m in met.messages
    ensures var (after, r) := ReportCommit(met, m, seen, terminal);
      r.Applied? ==> HasStatus(after, m, terminal) && after.messages[m].providerMessageId == met.messages[m].providerMessageId
  {
    if HasStatus(met, m, seen) {
      assert ReportCommit(met, m, seen, terminal).0 == PutMessage(met, m, met.messages[m].(status := terminal));
    }
  }

  /** After an applied report the status is fixed from then on. */
  lemma {:induction false} AppliedStaysFixed(db: Db, m: MessageId, pmid: string, terminals: seq<SmsStatus>, i: nat, n: nat,
                                             found: nat -> Db, met: nat -> Db)
    requires i < n <= |terminals| && IsReportRun(db, m, pmid, terminals, |terminals|, found, met)
    requires ResultOf(m, pmid, terminals, i, found, met).Applied?
    ensures IsFixed(StateBefore(db, m, pmid, terminals, n, found, met), m, pmid, terminals[i])
    decreases n
  {
    if n - 1 == i {
      FixedOnceApplied(db, m, pmid, terminals, n, found, met);
    } else {
      AppliedStaysFixed(db, m, pmid, terminals, i, n - 1, found, met);
      NextStaysFixed(db, m, pmid, terminals, n, found, met, terminals[i]);
    }
  }

  lemma FixedOnceApplied(db: Db, m: MessageId, pmid: string, terminals: seq<SmsStatus>, n: nat, found: nat -> Db, met: nat -> Db)
    requires 0 < n <= |terminals| && ResultOf(m, pmid, terminals, n - 1, found, met).Applied?
    requires IsReportRun(db, m, pmid, terminals, |terminals|, found, met)
    ensures IsFixed(StateBefore(db, m, pmid, terminals, n, found, met), m, pmid, terminals[n - 1])
  {
    ReportOfRun(db, m, pmid, terminals, n - 1, found, met);
    AppliedFixes(m, pmid, terminals[n - 1], found(n - 1), met(n - 1));
    LastReport(db, m, pmid, terminals, n, found, met, terminals[n - 1]);
  }

  lemma NextStaysFixed(db: Db, m: MessageId, pmid: string, terminals: seq<SmsStatus>, n: nat, found: nat -> Db,
                       met: nat -> Db, winner: SmsStatus)
    requires 0 < n <= |terminals| && IsFixed(StateBefore(db, m, pmid, terminals, n - 1, found, met), m, pmid, winner)
    requires IsReportRun(db, m, pmid, terminals, |terminals|, found, met)
    ensures IsFixed(StateBefore(db, m, pmid, terminals, n, found, met), m, pmid, winner)
  {
    ReportOfRun(db, m, pmid, terminals, n - 1, found, met);
    FixedReportEchoes(m, pmid, terminals[n - 1], StateBefore(db, m, pmid, terminals, n - 1, found, met),
                      found(n - 1), met(n - 1), winner);
    LastReport(db, m, pmid, terminals, n, found, met, winner);
  }

  lemma LastReport(db: Db, m: MessageId, pmid: string, terminals: seq<SmsStatus>, n: nat, found: nat -> Db,
                   met: nat -> Db, winner: SmsStatus)
    requires 0 < n <= |terminals| && IsFixed(ReportOnce(m, pmid, terminals[n - 1], found(n - 1), met(n - 1)).0, m, pmid, winner)
    ensures IsFixed(StateBefore(db, m, pmid, terminals, n, found, met), m, pmid, winner)
  {
  }

  lemma ReportOfRun(db: Db, m: MessageId, pmid: string, terminals: seq<SmsStatus>, k: nat, found: nat -> Db, met: nat -> Db)
    requires k < |terminals| && IsReportRun(db, m, pmid, terminals, |terminals|, found, met)
    ensures IsReport(m, terminals[k], StateBefore(db, m, pmid, terminals, k, found, met), found(k), met(k))
  {
    assert IsReportAt(db, m, pmid, terminals, k, found, met);
  }

  /** Whatever other transactions do lawfully before and during each report: once a report is applied, the
      message keeps that status, and every later report only echoes it. So at most one report is applied. */
  lemma AppliedReportWins(db: Db, m: MessageId, pmid: string, terminals: seq<SmsStatus>, i: nat, j: nat,
                          found: nat -> Db, met: nat -> Db)
    requires i < j < |terminals| && IsReportRun(db, m, pmid, terminals, |terminals|, found, met)
    requires ResultOf(m, pmid, terminals, i, found, met).Applied?
    ensures IsEcho(ResultOf(m, pmid, terminals, j, found, met), terminals[j], terminals[i])
    ensures IsFixed(StateBefore(db, m, pmid, terminals, |terminals|, found, met), m, pmid, terminals[i])
  {
    AppliedStaysFixed(db, m, pmid, terminals, i, |terminals|, found, met);
    AppliedStaysFixed(db, m, pmid, terminals, i, j, found, met);
    ReportOfRun(db, m, pmid, terminals, j, found, met);
    FixedReportEchoes(m, pmid, terminals[j], StateBefore(db, m, pmid, terminals, j, found, met), found(j), met(j), terminals[i]);
  }

  lemma FixedReportEchoes(m: MessageId, pmid: string, terminal: SmsStatus, before: Db, found: Db, met: Db, winner: SmsStatus)
    requires IsFixed(before, m, pmid, winner) && IsReport(m, terminal, before, found, met)
    ensures var (after, r) := ReportOnce(m, pmid, terminal, found, met);
      IsFixed(after, m, pmid, winner) && IsEcho(r, terminal, winner)
  {
    LawfulStaysFixed(before, found, m, pmid, winner);
    ReportEchoes(m, pmid, terminal, found, met, winner);
  }
}
