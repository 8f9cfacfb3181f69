// The outbox relay as it works: one tick fetches a batch, enqueues a job per event and marks it, and
// survives any failure of either. `env(i)` is what others do to the database and the queues in the
// relay's i-th gap: three for each event, before the `add`, before the mark, and before noting a failure.
module Relay {
  import opened Tables
  import opened Lifecycle
  import opened LifecycleRepository
  import opened Outbox
  import Protocol

  type Jobs = map<Protocol.JobId, Protocol.Job>
  type Fetched = Protocol.Fetched

  /** What a tick works on: the database and the job queues. */
  datatype Shared = Shared(db: Db, jobs: Jobs)

  /** Which of the calls for one event fail; an `add` that fails may still have stored the job, and a mark
      that fails may still have committed. */
  datatype Faults = Faults(addFails: bool, stored: bool, markFails: bool, marked: bool, recordFails: bool)

  const NO_FAULTS := Faults(false, false, false, false, false)

  /** `add` under a live job id keeps the live job. */
  function Enqueue(jobs: Jobs, e: EventId, spec: JobSpec): Jobs {
    var id := Protocol.JobId(spec.message, e);
    if id in jobs then jobs else jobs[id := Protocol.Job(spec.queue, spec.name, spec.message, false)]
  }

  /** The `catch` branch: the flag is false when recording throws and ends the tick. */
  function NoteFailed(s: Shared, e: EventId, faults: Faults): (Shared, bool) {
    var noted := RecordFailure(s.db, e, PublishFailed);
    if faults.recordFails || noted.None? then (s, false) else (s.(db := noted.value), true)
  }

  function RelayOne(s: Shared, f: Fetched, faults: Faults, k: nat, env: nat -> Shared -> Shared): (Shared, bool) {
    var found := env(3 * k)(s);
    var decoded := QueueJobFor(f.event);
    if decoded.Bad? then NoteFailed(env(3 * k + 2)(found), f.id, faults)
    else
      var added := found.(jobs := Enqueue(found.jobs, f.id, decoded.value));
      if faults.addFails then NoteFailed(env(3 * k + 2)(if faults.stored then added else found), f.id, faults)
      else MarkOne(env(3 * k + 1)(added), f, faults, k, env)
  }

  function MarkOne(s: Shared, f: Fetched, faults: Faults, k: nat, env: nat -> Shared -> Shared): (Shared, bool) {
    var marked := MarkPublished(s.db, f.id);
    if !faults.markFails && marked.Some? then (s.(db := marked.value), true)
    else NoteFailed(env(3 * k + 2)(if faults.marked && marked.Some? then s.(db := marked.value) else s), f.id, faults)
  }

  /** The first `k` events of the batch, or fewer when the tick ended early. */
  function RelayFirst(s: Shared, batch: seq<Fetched>, k: nat, faults: EventId -> Faults,
                      env: nat -> Shared -> Shared): (Shared, bool)
    requires k <= |batch|
  {
    if k == 0 then (s, true)
    else
      var (before, alive) := RelayFirst(s, batch, k - 1, faults, env);
      if alive then RelayOne(before, batch[k - 1], faults(batch[k - 1].id), k - 1, env) else (before, false)
  }

  function Batch(db: Db, limit: nat): seq<Fetched> {
    Protocol.FetchedRows(db, FetchFrom(db, 0, limit))
  }

  function RelayOnce(s: Shared, limit: nat, faults: EventId -> Faults, env: nat -> Shared -> Shared): Shared {
    var batch := Batch(s.db, limit);
    RelayFirst(s, batch, |batch|, faults, env).0
  }

  // --- The service --------------------------------------------------------------------------------------

  class JobQueues {
    var jobs: Jobs

    constructor ()
      ensures jobs == map[]
    {
      jobs := map[];
    }

    method Add(e: EventId, spec: JobSpec)
      modifies this
      ensures jobs == Enqueue(old(jobs), e, spec)
    {
      var id := Protocol.JobId(spec.message, e);
      if id !in jobs {
        jobs := jobs[id := Protocol.Job(spec.queue, spec.name, spec.message, false)];
      }
    }
  }

  class OutboxRelayService {
    const lifecycle: SmsLifecycleRepository
    const queues: JobQueues
    const batchSize: nat
    var running: bool

    constructor (lifecycle: SmsLifecycleRepository, queues: JobQueues, batchSize: nat)
      ensures this.lifecycle == lifecycle && this.queues == queues && this.batchSize == batchSize && !running
    {
      this.lifecycle, this.queues, this.batchSize, running := lifecycle, queues, batchSize, false;
    }

    function View(): Shared
      reads lifecycle.db, queues
    {
      Shared(lifecycle.db.View(), queues.jobs)
    }

    /** Overlapping ticks return at once; a tick that throws still clears the flag. */
    method Tick(faults: EventId -> Faults, env: nat -> Shared -> Shared)
      modifies this`running, lifecycle.db, queues
      ensures running == old(running)
      ensures View() == if old(running) then old(View()) else RelayOnce(old(View()), batchSize, faults, env)
    {
      if running {
        return;
      }
      running := true;
      RelayBatch(faults, env);
      running := false;
    }

    method RelayBatch(faults: EventId -> Faults, env: nat -> Shared -> Shared)
      modifies lifecycle.db, queues
      ensures View() == RelayOnce(old(View()), batchSize, faults, env)
    {
      var ids := lifecycle.FetchUnpublishedOutbox(batchSize);
      var events := Protocol.FetchedRows(lifecycle.db.View(), ids);
      var k, alive := 0, true;
      while k < |events| && alive
        invariant k <= |events|
        invariant (View(), alive) == RelayFirst(old(View()), events, k, faults, env)
        decreases |events| - k
      {
        alive := RelayEvent(events[k], faults(events[k].id), k, env);
        k := k + 1;
      }
      if !alive {
        RelayStopped(old(View()), events, k, faults, env);
      }
    }

    method RelayEvent(f: Fetched, faults: Faults, k: nat, env: nat -> Shared -> Shared) returns (alive: bool)
      modifies lifecycle.db, queues
      ensures (View(), alive) == RelayOne(old(View()), f, faults, k, env)
    {
      Meanwhile(env(3 * k)(View()));
      var decoded := QueueJobFor(f.event);
      var done := false;
      if decoded.Ok? {
        if !faults.addFails || faults.stored {
          queues.Add(f.id, decoded.value);
        }
        if !faults.addFails {
          Meanwhile(env(3 * k + 1)(View()));
          if !faults.markFails || faults.marked {
            var marked := lifecycle.MarkOutboxPublished(f.id);
            done := marked && !faults.markFails;
          }
        }
      }
      alive := done;
      if !done {
        Meanwhile(env(3 * k + 2)(View()));
        if !faults.recordFails {
          alive := lifecycle.RecordOutboxPublishFailure(f.id, PublishFailed);
        }
      }
    }

    /** Others have moved on to `shared`. */
    method Meanwhile(shared: Shared)
      modifies lifecycle.db, queues
      ensures View() == shared
    {
      lifecycle.db.Load(shared.db);
      queues.jobs := shared.jobs;
    }
  }

  /** Once a tick has ended early, the rest of the batch changes nothing. */
  lemma {:induction false} RelayStopped(s: Shared, batch: seq<Fetched>, k: nat, faults: EventId -> Faults,
                                        env: nat -> Shared -> Shared)
    requires k <= |batch| && !RelayFirst(s, batch, k, faults, env).1
    ensures RelayFirst(s, batch, |batch|, faults, env) == RelayFirst(s, batch, k, faults, env)
    decreases |batch| - k
  {
    if k < |batch| {
      RelayStopped(s, batch, k + 1, faults, env);
    }
  }
}
