// The fixed-window rate limiter: a script on one stored counter, and the loop that waits for a slot.
// Times are milliseconds of the server's clock.
module RateLimiter {
  import opened Tables

  const WINDOW_MS: int := 1000

  /** The stored counter; it was created, with its expiry, at `start`. */
  datatype Window = Window(start: Time, count: nat)
  {
    function ExpiresAt(): Time {
      start + WINDOW_MS
    }
  }

  /** The key as the server sees it at `now`: an expired key is gone. */
  function Alive(key: Option<Window>, now: Time): Option<Window> {
    if key.Some? && key.value.ExpiresAt() > now then key else None
  }

  /** The script, run atomically: the new key, and the milliseconds to wait (0 is a grant). */
  function RunScript(key: Option<Window>, now: Time, limit: int): (r: (Window, int))
    ensures r.1 <= 0 <==> r.0.count <= limit
    ensures r.1 > 0 ==> now + r.1 == r.0.ExpiresAt()
    ensures r.0.start <= now || Alive(key, now).Some?
  {
    var alive := Alive(key, now);
    var count := if alive.Some? then alive.value.count + 1 else 1;
    var counted := if count == 1 then Window(now, 1) else Window(alive.value.start, count);
    (counted, if counted.count <= limit then 0 else counted.ExpiresAt() - now)
  }

  /** The key after script runs at the given times, from any number of callers. */
  function KeyAfter(key: Option<Window>, times: seq<Time>, limit: int): Option<Window> {
    if times == [] then key
    else Some(RunScript(KeyAfter(key, times[..|times| - 1], limit), times[|times| - 1], limit).0)
  }

  /** The grants in [from, until): script runs in that time that returned 0. */
  function GrantsIn(times: seq<Time>, limit: int, from: Time, until: Time): nat {
    if times == [] then 0
    else
      var earlier := times[..|times| - 1];
      var now := times[|times| - 1];
      var granted := RunScript(KeyAfter(None, earlier, limit), now, limit).1 <= 0 && from <= now < until;
      GrantsIn(earlier, limit, from, until) + if granted then 1 else 0
  }

  // --- The bound ---------------------------------------------------------------------------------------

  /** The key, the grants in [from, until), and the windows that had begun before `until` and were still
      open at `from` or later, after script runs at the given times. */
  datatype Meter = Meter(key: Option<Window>, grants: nat, windows: nat)

  function Advance(meter: Meter, now: Time, limit: int, from: Time, until: Time): Meter {
    var (key, waitMs) := RunScript(meter.key, now, limit);
    var opens := Alive(meter.key, now).None? && now + WINDOW_MS > from && now < until;
    Meter(
      Some(key),
      if waitMs <= 0 && from <= now < until then meter.grants + 1 else meter.grants,
      if opens then meter.windows + 1 else meter.windows)
  }

  function MeterOf(times: seq<Time>, limit: int, from: Time, until: Time): Meter {
    if times == [] then Meter(None, 0, 0)
    else Advance(MeterOf(times[..|times| - 1], limit, from, until), times[|times| - 1], limit, from, until)
  }

  predicate IsOrdered(times: seq<Time>) {
    forall i, j :: 0 <= i < j < |times| ==> times[i] <= times[j]
  }

  /** Grants of full windows, plus those of the current one; the windows are spaced a window apart. */
  ghost predicate MeterFits(meter: Meter, limit: nat, from: Time, until: Time, latest: Time)
  {
    match meter.key
    case None => meter.grants == 0 && meter.windows == 0
    case Some(w) =>
      && w.start <= latest && w.count > 0
      && meter.grants <= limit * meter.windows
      && (meter.windows == 0 ==> w.ExpiresAt() <= from || w.start >= until)
      && (meter.windows > 0 && w.start < until ==>
            && meter.grants <= limit * (meter.windows - 1) + (if w.count <= limit then w.count else limit)
            && w.start > from - WINDOW_MS + WINDOW_MS * (meter.windows - 1))
      && (meter.windows > 0 ==> WINDOW_MS * (meter.windows - 2) < until - from)
  }

  lemma AdvanceFits(meter: Meter, now: Time, limit: nat, from: Time, until: Time, latest: Time)
    requires MeterFits(meter, limit, from, until, latest) && latest <= now
    ensures MeterFits(Advance(meter, now, limit, from, until), limit, from, until, now)
  {
    var next := Advance(meter, now, limit, from, until);
    assert limit * (meter.windows + 1) == limit * meter.windows + limit;
    assert meter.windows > 0 ==> limit * meter.windows == limit * (meter.windows - 1) + limit;
  }

  lemma {:induction false} MeterAlwaysFits(times: seq<Time>, limit: nat, from: Time, until: Time, latest: Time)
    requires IsOrdered(times) && (times != [] ==> times[|times| - 1] <= latest)
    ensures MeterFits(MeterOf(times, limit, from, until), limit, from, until, latest)
    decreases |times|
  {
    if times != [] {
      var now := times[|times| - 1];
      MeterAlwaysFits(times[..|times| - 1], limit, from, until, now);
      AdvanceFits(MeterOf(times[..|times| - 1], limit, from, until), now, limit, from, until, now);
    }
  }

  lemma {:induction false} MeterCountsGrants(times: seq<Time>, limit: int, from: Time, until: Time)
    ensures MeterOf(times, limit, from, until).grants == GrantsIn(times, limit, from, until)
    ensures MeterOf(times, limit, from, until).key == KeyAfter(None, times, limit)
    decreases |times|
  {
    if times != [] {
      MeterCountsGrants(times[..|times| - 1], limit, from, until);
    }
  }

  /** For any number of callers, an interval of `length` milliseconds holds at most
      limit * (ceil(length / 1000) + 1) grants. */
  lemma RateBound(times: seq<Time>, limit: nat, from: Time, length: nat)
    requires IsOrdered(times)
    ensures GrantsIn(times, limit, from, from + length) <= limit * ((length + 999) / 1000 + 1)
  {
    var q := (length + WINDOW_MS - 1) / WINDOW_MS;
    var until := from + length;
    MeterCountsGrants(times, limit, from, until);
    if times != [] {
      MeterAlwaysFits(times, limit, from, until, times[|times| - 1]);
    }
    var meter := MeterOf(times, limit, from, until);
    assert meter.windows <= q + 1;
    Monotone(limit, meter.windows, q + 1);
  }

  lemma Monotone(limit: nat, x: nat, y: nat)
    requires x <= y
    ensures limit * x <= limit * y
  {
    assert limit * y == limit * x + limit * (y - x);
  }

  /** Runs within one second of the first on a key that was gone: the i-th is granted exactly if i <= limit, and
      any other is told to wait for the end of that second. */
  lemma {:induction false} WindowGrantsLimit(key: Option<Window>, times: seq<Time>, limit: int)
    requires times != [] && Alive(key, times[0]).None?
    requires forall i :: 0 <= i < |times| ==> times[0] <= times[i] < times[0] + 1000
    ensures var (window, waitMs) := RunScript(KeyAfter(key, times[..|times| - 1], limit), times[|times| - 1], limit);
      && window == Window(times[0], |times|)
      && (waitMs <= 0 <==> |times| <= limit)
      && (waitMs > 0 ==> times[|times| - 1] + waitMs == times[0] + 1000)
    decreases |times|
  {
    if |times| > 1 {
      var earlier := times[..|times| - 1];
      WindowGrantsLimit(key, earlier, limit);
      assert earlier[..|earlier| - 1] == times[..|times| - 2];
    }
  }

  // --- One caller among others ---------------------------------------------------------------------------

  /** The k-th run of a caller that was refused until then: its time and the key it meets. `others(k)` are
      the times at which others run the script before it, and its i-th sleep takes `late(i)` too long. */
  function RunOf(key: Option<Window>, start: Time, limit: int, late: nat -> nat, others: nat -> seq<Time>, k: nat): (Time, Option<Window>) {
    if k == 0 then (start, KeyAfter(key, others(0), limit))
    else
      var (now, met) := RunOf(key, start, limit, late, others, k - 1);
      Sleep(now, met, limit, late(k - 1), others(k))
  }

  /** A refused run, the sleep after it, and the others' runs in the meantime. */
  function Sleep(now: Time, met: Option<Window>, limit: int, late: nat, times: seq<Time>): (Time, Option<Window>) {
    var (window, waitMs) := RunScript(met, now, limit);
    (now + waitMs + late, KeyAfter(Some(window), times, limit))
  }

  predicate IsGranted(key: Option<Window>, start: Time, limit: int, late: nat -> nat, others: nat -> seq<Time>, k: nat) {
    var (now, met) := RunOf(key, start, limit, late, others, k);
    RunScript(met, now, limit).1 <= 0
  }

  ghost predicate IsRefusedUntil(key: Option<Window>, start: Time, limit: int, late: nat -> nat, others: nat -> seq<Time>, k: nat) {
    forall i: nat :: i < k ==> !IsGranted(key, start, limit, late, others, i)
  }

  lemma RefusedRunGoesOn(key: Option<Window>, start: Time, limit: int, late: nat -> nat, others: nat -> seq<Time>,
                         k: nat, enough: nat, now: Time, met: Option<Window>)
    requires (now, met) == RunOf(key, start, limit, late, others, k) && RunScript(met, now, limit).1 > 0
    requires IsRefusedUntil(key, start, limit, late, others, k)
    requires k <= enough && IsGranted(key, start, limit, late, others, enough)
    ensures k < enough && IsRefusedUntil(key, start, limit, late, others, k + 1)
    ensures RunOf(key, start, limit, late, others, k + 1) == Sleep(now, met, limit, late(k), others(k + 1))
  {
  }

  /** A window that outlives `now` was opened by the runs in `times`, and counts no more than those. */
  lemma {:induction false} NewWindowCountsRuns(window: Window, times: seq<Time>, limit: int, now: Time)
    requires window.ExpiresAt() <= now
    ensures var key := KeyAfter(Some(window), times, limit);
      key.Some? && (key.value.ExpiresAt() > now ==> key.value.count <= |times|)
    decreases |times|
  {
    if times != [] {
      NewWindowCountsRuns(window, times[..|times| - 1], limit, now);
    }
  }

  /** A refused caller sleeps to the end of the window that refused it, and is refused again only if others
      ran the script at least `limit` times in the meantime. */
  lemma RefusedAgainByOthers(key: Option<Window>, start: Time, limit: nat, late: nat -> nat, others: nat -> seq<Time>, k: nat)
    requires k > 0 && !IsGranted(key, start, limit, late, others, k - 1)
    ensures var (now, met) := RunOf(key, start, limit, late, others, k - 1);
      RunOf(key, start, limit, late, others, k).0 == RunScript(met, now, limit).0.ExpiresAt() + late(k - 1)
    ensures !IsGranted(key, start, limit, late, others, k) ==> |others(k)| >= limit
  {
    var (now, met) := RunOf(key, start, limit, late, others, k - 1);
    var window := RunScript(met, now, limit).0;
    NewWindowCountsRuns(window, others(k), limit, window.ExpiresAt() + late(k - 1));
  }

  /** So a caller is granted a slot by the time fewer than `limit` runs of others fall into one of its sleeps. */
  lemma GrantedOnceOthersAreFew(key: Option<Window>, start: Time, limit: nat, late: nat -> nat, others: nat -> seq<Time>, k: nat)
    requires k > 0 && |others(k)| < limit
    ensures IsGranted(key, start, limit, late, others, k - 1) || IsGranted(key, start, limit, late, others, k)
  {
    if !IsGranted(key, start, limit, late, others, k - 1) {
      RefusedAgainByOthers(key, start, limit, late, others, k);
    }
  }

  // --- The limiter ----------------------------------------------------------------------------------------

  class ProviderRateLimiter {
    const limit: nat
    var key: Option<Window>

    constructor (limit: nat)
      ensures this.limit == limit && key == None
    {
      this.limit, key := limit, None;
    }

    method Eval(now: Time) returns (waitMs: int)
      modifies this`key
      ensures (key, waitMs) == var (window, wait) := RunScript(old(key), now, limit); (Some(window), wait)
    {
      if key.Some? && key.value.ExpiresAt() <= now {
        key := None;
      }
      var count := if key.Some? then key.value.count + 1 else 1;
      key := Some(Window(if count == 1 then now else key.value.start, count));
      if count <= limit {
        return 0;
      }
      waitMs := key.value.ExpiresAt() - now;
    }

    /** The loop of a caller that some run would grant a slot: it ends at the first such run. */
    method Acquire(start: Time, late: nat -> nat, others: nat -> seq<Time>, ghost enough: nat)
      returns (granted: Time, ghost last: nat)
      requires IsGranted(key, start, limit, late, others, enough)
      modifies this`key
      ensures last <= enough && IsGranted(old(key), start, limit, late, others, last)
      ensures IsRefusedUntil(old(key), start, limit, late, others, last)
      ensures var (now, met) := RunOf(old(key), start, limit, late, others, last);
        granted == now && key == Some(RunScript(met, now, limit).0)
    {
      granted, last := start, 0;
      var sleeps := 0;
      OthersRun(others(0));
      while true
        invariant sleeps == last <= enough
        invariant (granted, key) == RunOf(old(key), start, limit, late, others, last)
        invariant IsRefusedUntil(old(key), start, limit, late, others, last)
        decreases enough - last
      {
        ghost var met := key;
        var waitMs := Eval(granted);
        if waitMs <= 0 {
          return;
        }
        RefusedRunGoesOn(old(key), start, limit, late, others, last, enough, granted, met);
        granted := granted + waitMs + late(sleeps);
        sleeps, last := sleeps + 1, last + 1;
        OthersRun(others(sleeps));
      }
    }

    /** Other callers run the script at the given times. */
    method OthersRun(times: seq<Time>)
      modifies this`key
      ensures key == KeyAfter(old(key), times, limit)
    {
      for i := 0 to |times|
        invariant key == KeyAfter(old(key), times[..i], limit)
      {
        var _ := Eval(times[i]);
        assert times[..i + 1][..i] == times[..i];
      }
      assert times[..|times|] == times;
    }
  }
}
