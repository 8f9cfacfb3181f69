// What a tick is in the protocol, whatever others do in its gaps.
module RelayTheorems {
  import opened Outbox
  import opened Protocol
  import opened Relay

  /** Relay `r` has `f` first in its batch; `added` says whether it knows the job enqueued. */
  predicate StandsAt(w: World, r: RelayId, f: Protocol.Fetched, added: bool) {
    IsRelaying(w, r) && w.relays[r].batch[0] == f && w.relays[r].added == added
  }

  function SharedOf(w: World): Shared {
    Shared(w.db, w.jobs)
  }

  /** Others have acted, but not on this relay. */
  predicate Follows(w: World, v: World, r: RelayId) {
    r in w.relays && r in v.relays && v.relays[r] == w.relays[r]
  }

  /** The protocol step of the call to `add`. */
  function AddStep(w: World, r: RelayId, faults: Faults): World
    requires IsRelaying(w, r) && !w.relays[r].added
  {
    if QueueJobFor(w.relays[r].batch[0].event).Bad? then w
    else if !faults.addFails then NextPublish(w, r, Add)
    else if faults.stored then NextPublish(w, r, AddUnseen)
    else w
  }

  /** The protocol step of the mark. */
  function MarkStep(w: World, r: RelayId, faults: Faults): World
    requires IsRelaying(w, r) && w.relays[r].added
  {
    if !faults.markFails && w.relays[r].batch[0].id in w.db.outbox then NextPublish(w, r, Mark)
    else if faults.marked then NextPublish(w, r, MarkUnseen)
    else w
  }

  lemma NoteIsStep(w: World, r: RelayId, faults: Faults)
    requires IsRelaying(w, r)
    ensures var v := NextPublish(w, r, NoteFailure(!faults.recordFails));
      var batch := w.relays[r].batch;
      var (after, alive) := NoteFailed(SharedOf(w), batch[0].id, faults);
      && after == SharedOf(v)
      && r in v.relays && v.relays[r] == Protocol.Relay(if alive then batch[1..] else [], false)
  {
  }

  /** An event whose job could not be handed over, or whose payload does not decode, ends in the failure note. */
  lemma FailedAddTakesProtocolSteps(w: World, v: World, r: RelayId, s: Shared, faults: Faults, k: nat,
                                    env: nat -> Shared -> Shared)
    requires IsRelaying(w, r) && !w.relays[r].added && env(3 * k)(s) == SharedOf(w)
    requires QueueJobFor(w.relays[r].batch[0].event).Bad? || faults.addFails
    requires Follows(AddStep(w, r, faults), v, r) && env(3 * k + 2)(SharedOf(AddStep(w, r, faults))) == SharedOf(v)
    ensures var f := w.relays[r].batch[0];
      && StandsAt(v, r, f, false)
      && var last := NextPublish(v, r, NoteFailure(!faults.recordFails));
        var (after, alive) := RelayOne(s, f, faults, k, env);
        && after == SharedOf(last)
        && r in last.relays && last.relays[r] == Protocol.Relay(if alive then w.relays[r].batch[1..] else [], false)
  {
    NoteIsStep(v, r, faults);
  }

  /** An event whose job was handed over is marked in one protocol step, if the mark is seen to succeed. */
  lemma MarkedTakesProtocolSteps(w: World, v: World, r: RelayId, s: Shared, faults: Faults, k: nat, env: nat -> Shared -> Shared)
    requires IsRelaying(w, r) && !w.relays[r].added && env(3 * k)(s) == SharedOf(w)
    requires QueueJobFor(w.relays[r].batch[0].event).Ok? && !faults.addFails
    requires Follows(AddStep(w, r, faults), v, r) && env(3 * k + 1)(SharedOf(AddStep(w, r, faults))) == SharedOf(v)
    ensures var f := w.relays[r].batch[0];
      && StandsAt(v, r, f, true)
      && RelayOne(s, f, faults, k, env) == MarkOne(SharedOf(v), f, faults, k, env)
      && (!faults.markFails && f.id in v.db.outbox ==>
            && RelayOne(s, f, faults, k, env) == (SharedOf(MarkStep(v, r, faults)), true)
            && MarkStep(v, r, faults).relays[r] == Protocol.Relay(w.relays[r].batch[1..], false))
  {
  }

  /** Otherwise the mark, which may have committed unseen, is followed by the failure note. */
  lemma FailedMarkTakesProtocolSteps(v: World, u: World, r: RelayId, faults: Faults, k: nat, env: nat -> Shared -> Shared)
    requires IsRelaying(v, r) && v.relays[r].added
    requires faults.markFails || v.relays[r].batch[0].id !in v.db.outbox
    requires Follows(MarkStep(v, r, faults), u, r) && env(3 * k + 2)(SharedOf(MarkStep(v, r, faults))) == SharedOf(u)
    ensures IsRelaying(u, r)
    ensures var batch := v.relays[r].batch;
      var last := NextPublish(u, r, NoteFailure(!faults.recordFails));
      var (after, alive) := MarkOne(SharedOf(v), batch[0], faults, k, env);
      && after == SharedOf(last)
      && r in last.relays && last.relays[r] == Protocol.Relay(if alive then batch[1..] else [], false)
  {
    NoteIsStep(u, r, faults);
  }

  /** The worlds in which the relay takes its steps for one event, and the one it ends in. */
  ghost predicate IsEventRun(w: World, v: World, u: World, last: World, r: RelayId, s: Shared, faults: Faults, k: nat,
                             env: nat -> Shared -> Shared)
    requires IsRelaying(w, r) && !w.relays[r].added
  {
    var f := w.relays[r].batch[0];
    && env(3 * k)(s) == SharedOf(w)
    && Follows(AddStep(w, r, faults), v, r)
    && if QueueJobFor(f.event).Bad? || faults.addFails then
         && env(3 * k + 2)(SharedOf(AddStep(w, r, faults))) == SharedOf(v)
         && IsRelaying(v, r) && last == NextPublish(v, r, NoteFailure(!faults.recordFails))
       else
         && env(3 * k + 1)(SharedOf(AddStep(w, r, faults))) == SharedOf(v)
         && IsRelaying(v, r) && v.relays[r].added
         && if !faults.markFails && f.id in v.db.outbox then last == MarkStep(v, r, faults)
            else
              && Follows(MarkStep(v, r, faults), u, r)
              && env(3 * k + 2)(SharedOf(MarkStep(v, r, faults))) == SharedOf(u)
              && IsRelaying(u, r) && last == NextPublish(u, r, NoteFailure(!faults.recordFails))
  }

  /** Each event of a tick is a sequence of the protocol's publication steps, with the same failures and the
      same doings of others in between: it leaves the same database and queues, and the relay keeps the rest
      of its batch exactly when the tick goes on. */
  lemma TickTakesProtocolSteps(w: World, v: World, u: World, last: World, r: RelayId, s: Shared, faults: Faults,
                               k: nat, env: nat -> Shared -> Shared)
    requires IsRelaying(w, r) && !w.relays[r].added && IsEventRun(w, v, u, last, r, s, faults, k, env)
    ensures var batch := w.relays[r].batch;
      var (after, alive) := RelayOne(s, batch[0], faults, k, env);
      && after == SharedOf(last)
      && r in last.relays && last.relays[r] == Protocol.Relay(if alive then batch[1..] else [], false)
  {
    var f := w.relays[r].batch[0];
    if QueueJobFor(f.event).Bad? || faults.addFails {
      FailedAddTakesProtocolSteps(w, v, r, s, faults, k, env);
    } else {
      MarkedTakesProtocolSteps(w, v, r, s, faults, k, env);
      if faults.markFails || f.id !in v.db.outbox {
        FailedMarkTakesProtocolSteps(v, u, r, faults, k, env);
      }
    }
  }
}
