// The status lifecycle of one SMS message: the transition table and its lookups.
module StateMachine {

  datatype SmsStatus =
    | Queued
    | Processing
    | AwaitingProviderResult
    | RetryScheduled
    | Sent
    | Delivered
    | Undelivered
    | Rejected
    | FatalFailure

  /** The statuses a message may move to from `from`; empty for a terminal status. */
  function Outgoing(from: SmsStatus): set<SmsStatus> {
    match from
    case Queued => {Processing}
    case RetryScheduled => {Processing}
    case Processing => {AwaitingProviderResult, RetryScheduled, Rejected, Undelivered, FatalFailure}
    case AwaitingProviderResult => {Sent, Delivered, Undelivered, Rejected, Processing}
    case Sent => {Delivered, Undelivered, Rejected}
    case Delivered => {}
    case FatalFailure => {}
    case Rejected => {}
    case Undelivered => {}
  }

  predicate IsValidTransition(from: SmsStatus, to: SmsStatus) {
    to in Outgoing(from)
  }

  predicate IsTerminal(status: SmsStatus) {
    Outgoing(status) == {}
  }

  /** A fresh job pickup may start only from these: narrower than the sources of `Processing`. */
  predicate IsStartable(status: SmsStatus) {
    status == Queued || status == RetryScheduled
  }

  /** A provider has taken the message over, or its delivery has ended: no worker may touch it again. */
  predicate IsSettled(status: SmsStatus) {
    status == Sent || status == Delivered || status == Undelivered || status == Rejected
  }

  /** A worker may still call a provider for the message, now or after an administrative requeue. */
  predicate IsOpen(status: SmsStatus) {
    IsStartable(status) || status == Processing || status == FatalFailure
  }

  /** The keys of the transition table, in declaration order. */
  const TABLE_KEYS: seq<SmsStatus> :=
    [Queued, RetryScheduled, Processing, AwaitingProviderResult, Sent, Delivered, FatalFailure, Rejected, Undelivered]

  lemma TableKeysComplete(status: SmsStatus)
    ensures exists i :: 0 <= i < |TABLE_KEYS| && TABLE_KEYS[i] == status
  {
    match status
    case Queued => assert TABLE_KEYS[0] == status;
    case RetryScheduled => assert TABLE_KEYS[1] == status;
    case Processing => assert TABLE_KEYS[2] == status;
    case AwaitingProviderResult => assert TABLE_KEYS[3] == status;
    case Sent => assert TABLE_KEYS[4] == status;
    case Delivered => assert TABLE_KEYS[5] == status;
    case FatalFailure => assert TABLE_KEYS[6] == status;
    case Rejected => assert TABLE_KEYS[7] == status;
    case Undelivered => assert TABLE_KEYS[8] == status;
  }

  /** Reverse lookup: exactly the statuses that may move into `to`, each once. */
  method SourceStatesOf(to: SmsStatus) returns (sources: seq<SmsStatus>)
    ensures forall s :: s in sources <==> IsValidTransition(s, to)
    ensures forall i, j :: 0 <= i < j < |sources| ==> sources[i] != sources[j]
  {
    sources := [];
    var k := 0;
    while k < |TABLE_KEYS|
      invariant 0 <= k <= |TABLE_KEYS|
      invariant forall s :: s in sources <==> s in TABLE_KEYS[..k] && IsValidTransition(s, to)
      invariant forall i, j :: 0 <= i < j < |sources| ==> sources[i] != sources[j]
    {
      var status := TABLE_KEYS[k];
      assert status !in TABLE_KEYS[..k];
      if to in Outgoing(status) {
        sources := sources + [status];
      }
      k := k + 1;
    }
    forall s ensures s in TABLE_KEYS { TableKeysComplete(s); }
    assert TABLE_KEYS[..k] == TABLE_KEYS;
  }

  /** The table read by target: where a message in `to` may have come from. */
  lemma TableByTarget(from: SmsStatus)
    ensures !IsValidTransition(from, Queued)
    ensures IsValidTransition(from, Processing) <==> from == Queued || from == RetryScheduled || from == AwaitingProviderResult
    ensures IsValidTransition(from, AwaitingProviderResult) <==> from == Processing
    ensures IsValidTransition(from, RetryScheduled) <==> from == Processing
    ensures IsValidTransition(from, FatalFailure) <==> from == Processing
    ensures IsValidTransition(from, Sent) <==> from == AwaitingProviderResult
    ensures IsValidTransition(from, Delivered) <==> from == AwaitingProviderResult || from == Sent
    ensures IsValidTransition(from, Undelivered) <==> from == Processing || from == AwaitingProviderResult || from == Sent
    ensures IsValidTransition(from, Rejected) <==> from == Processing || from == AwaitingProviderResult || from == Sent
  {
  }

  /** `path` is a chain of table moves. */
  predicate IsPath(path: seq<SmsStatus>) {
    forall i :: 0 <= i < |path| - 1 ==> IsValidTransition(path[i], path[i + 1])
  }

  /** A settled message stays settled along every path of table moves, and a terminal one stops. */
  lemma {:induction false} SettledIsClosed(path: seq<SmsStatus>)
    requires IsPath(path) && path != [] && IsSettled(path[0])
    ensures forall i :: 0 <= i < |path| ==> IsSettled(path[i])
    ensures |path| <= 2
  {
    if |path| > 1 {
      assert IsValidTransition(path[0], path[1]);
      assert IsTerminal(path[1]);
      assert |path| > 2 ==> IsValidTransition(path[1], path[2]);
    }
  }

  /** Every way back to a startable status passes through `Processing` immediately before it. */
  lemma StartableOnlyFromProcessing(from: SmsStatus, to: SmsStatus)
    requires IsValidTransition(from, to) && IsStartable(to)
    ensures from == Processing && to == RetryScheduled
  {
  }
}
