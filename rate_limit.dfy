/** The in-process fixed-window rate limiter: a per-second counter whose
    window restarts lazily on the first check more than a second after the
    last restart, and a per-month counter that is never reset. */
module RateLimit {

  /** Checks admitted per window. */
  const PerSecond: nat := 1
  /** Checks admitted over the life of the process. */
  const PerMonth: nat := 15000
  /** Length of the per-second window, in milliseconds. */
  const WindowMs: int := 1000

  const RateLimitMessage: string := "Rate limit exceeded"

  /** The `requestCount` record. */
  datatype Counters = Counters(second: int, month: int, lastReset: int)

  datatype Outcome = Pass | Fail(message: string)

  datatype CheckResult = CheckResult(outcome: Outcome, after: Counters)

  /** The counters a process starts with, the window opening at `now`. */
  function Initial(now: int): Counters {
    Counters(0, 0, now)
  }

  /** The counters never exceed their ceilings. */
  predicate Valid(c: Counters) {
    0 <= c.second <= PerSecond && 0 <= c.month <= PerMonth
  }

  /** The counters once the window has been restarted if it has expired at
      `now`: strictly more than `WindowMs` since the last restart. */
  function Refresh(c: Counters, now: int): Counters {
    if now - c.lastReset > WindowMs then c.(second := 0, lastReset := now) else c
  }

  /** One `checkRateLimit()` at time `now`: restart the window if it
      expired, then refuse (keeping the restart) when either ceiling is
      reached, or admit and count the call in both counters. */
  function Check(c: Counters, now: int): (r: CheckResult)
    ensures r.after.month == c.month + (if r.outcome.Pass? then 1 else 0)
    ensures r.outcome.Fail? ==> r.outcome.message == RateLimitMessage
    ensures r.after.lastReset == (if now - c.lastReset > WindowMs then now else c.lastReset)
  {
    var w := Refresh(c, now);
    if w.second >= PerSecond || w.month >= PerMonth then
      CheckResult(Fail(RateLimitMessage), w)
    else
      CheckResult(Pass, w.(second := w.second + 1, month := w.month + 1))
  }

  /** A check admits exactly when, after the possible restart, both
      counters are below their ceilings. */
  lemma CheckAdmitsIff(c: Counters, now: int)
    ensures Check(c, now).outcome.Pass? <==>
      ((if now - c.lastReset > WindowMs then 0 else c.second) < PerSecond && c.month < PerMonth)
  {
  }

  /** More than a window after the last restart, the per-second counter
      restarts from 0 at `now` before the test; at exactly `WindowMs` or
      less it is kept, and the window keeps its start. */
  lemma CheckWindowRestart(c: Counters, now: int)
    ensures now - c.lastReset > WindowMs ==>
      Check(c, now).after.lastReset == now &&
      Check(c, now).after.second == (if Check(c, now).outcome.Pass? then 1 else 0)
    ensures now - c.lastReset <= WindowMs ==>
      Check(c, now).after.lastReset == c.lastReset &&
      Check(c, now).after.second == c.second + (if Check(c, now).outcome.Pass? then 1 else 0)
  {
  }

  /** A refused check counts nothing; an admitted one adds exactly one to
      each counter; the month counter is never reset. */
  lemma CheckCounts(c: Counters, now: int)
    ensures Check(c, now).outcome.Fail? ==>
      Check(c, now).outcome.message == RateLimitMessage &&
      Check(c, now).after.second == Refresh(c, now).second &&
      Check(c, now).after.month == c.month
    ensures Check(c, now).outcome.Pass? ==>
      Check(c, now).after.second == Refresh(c, now).second + 1 &&
      Check(c, now).after.month == c.month + 1
  {
  }

  /** Checks keep the counters within their ceilings. */
  lemma CheckPreservesValid(c: Counters, now: int)
    requires Valid(c)
    ensures Valid(Check(c, now).after)
  {
  }

  /** Once `PerSecond` calls have been admitted in the current window, every
      further call in that window is refused. */
  lemma SaturatedWindowRefuses(c: Counters, now: int)
    requires c.second >= PerSecond
    requires now - c.lastReset <= WindowMs
    ensures Check(c, now) == CheckResult(Fail(RateLimitMessage), c)
  {
  }

  /** A run of checks at the given instants, one after the other. */
  datatype RunResult = RunResult(admitted: nat, after: Counters)

  function CheckAll(c: Counters, times: seq<int>): RunResult
    decreases |times|
  {
    if |times| == 0 then RunResult(0, c)
    else
      var first := Check(c, times[0]);
      var rest := CheckAll(first.after, times[1..]);
      RunResult(rest.admitted + (if first.outcome.Pass? then 1 else 0), rest.after)
  }

  /** Within one window (no instant more than `WindowMs` after its start) at
      most the remaining per-second allowance is admitted, however many
      checks are made, and the window start does not move. */
  lemma {:induction false} AtMostPerSecondPerWindow(c: Counters, times: seq<int>)
    requires Valid(c)
    requires forall i :: 0 <= i < |times| ==> times[i] - c.lastReset <= WindowMs
    ensures CheckAll(c, times).admitted <= PerSecond - c.second
    ensures CheckAll(c, times).after.lastReset == c.lastReset
    decreases |times|
  {
    if |times| > 0 {
      var first := Check(c, times[0]);
      CheckPreservesValid(c, times[0]);
      assert first.after.lastReset == c.lastReset;
      assert forall i :: 0 <= i < |times[1..]| ==> times[1..][i] == times[i + 1];
      AtMostPerSecondPerWindow(first.after, times[1..]);
    }
  }

  /** Over any run of checks the month counter grows by exactly the number
      admitted and never passes `PerMonth`. */
  lemma {:induction false} AtMostPerMonth(c: Counters, times: seq<int>)
    requires Valid(c)
    ensures CheckAll(c, times).after.month == c.month + CheckAll(c, times).admitted
    ensures CheckAll(c, times).admitted <= PerMonth - c.month
    decreases |times|
  {
    if |times| > 0 {
      CheckPreservesValid(c, times[0]);
      AtMostPerMonth(Check(c, times[0]).after, times[1..]);
    }
  }

  /** The mutable `requestCount` record shared by every upstream call. */
  class RateLimiter {
    var second: int
    var month: int
    var lastReset: int

    function Snapshot(): Counters
      reads this
    {
      Counters(second, month, lastReset)
    }

    /** The record as the process creates it, the window opening at `now`. */
    constructor (now: int)
      ensures Snapshot() == Initial(now)
      ensures Valid(Snapshot())
    {
      second := 0;
      month := 0;
      lastReset := now;
    }

    /** `checkRateLimit()` with `Date.now()` read as `now`. */
    method CheckRateLimit(now: int) returns (outcome: Outcome)
      modifies this
      ensures CheckResult(outcome, Snapshot()) == Check(old(Snapshot()), now)
      ensures Valid(old(Snapshot())) ==> Valid(Snapshot())
      ensures month >= old(month)
    {
      if now - lastReset > WindowMs {
        second := 0;
        lastReset := now;
      }
      if second >= PerSecond || month >= PerMonth {
        return Fail(RateLimitMessage);
      }
      second := second + 1;
      month := month + 1;
      outcome := Pass;
    }
  }
}
