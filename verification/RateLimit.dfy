/** The sliding-window rate limiter: the class that prunes its lists in place, and the
    proof that pruning never changes an answer and that no window is ever overfull. */
module RateLimit {
  import opened Identity
  import opened Domain

  datatype Limits = Limits(maxPerWindow: int, windowSeconds: int) {
    function WindowMs(): int { windowSeconds * 1000 }
  }

  datatype LimiterState = LimiterState(targetTimes: map<TargetKey, seq<int>>, customerTimes: map<Uuid, seq<int>>)

  function Times<K>(m: map<K, seq<int>>, k: K): seq<int> {
    if k in m then m[k] else []
  }

  /** The recorded times that are not older than `cutoff`, in order. */
  function Since(times: seq<int>, cutoff: int): seq<int> {
    if times == [] then []
    else
      var n := |times| - 1;
      Since(times[..n], cutoff) + (if times[n] >= cutoff then [times[n]] else [])
  }

  predicate TargetLimited(limits: Limits, st: LimiterState, key: TargetKey, now: int) {
    |Since(Times(st.targetTimes, key), now - limits.WindowMs())| >= limits.maxPerWindow
  }

  predicate CustomerLimited(limits: Limits, st: LimiterState, customer: Uuid, now: int) {
    |Since(Times(st.customerTimes, customer), now - limits.WindowMs())| >= limits.maxPerWindow * 3
  }

  predicate Limited(limits: Limits, st: LimiterState, key: TargetKey, customer: Option<Uuid>, now: int) {
    TargetLimited(limits, st, key, now)
    || (customer.Some? && CustomerLimited(limits, st, customer.value, now))
  }

  /** What a check leaves behind: the lists it looked at, pruned. */
  function Pruned(limits: Limits, st: LimiterState, key: TargetKey, customer: Option<Uuid>, now: int): LimiterState {
    var cutoff := now - limits.WindowMs();
    var targetTimes := st.targetTimes[key := Since(Times(st.targetTimes, key), cutoff)];
    if TargetLimited(limits, st, key, now) || customer.None? then
      st.(targetTimes := targetTimes)
    else
      LimiterState(targetTimes,
                   st.customerTimes[customer.value := Since(Times(st.customerTimes, customer.value), cutoff)])
  }

  function Recorded(st: LimiterState, key: TargetKey, customer: Option<Uuid>, now: int): LimiterState {
    LimiterState(
      st.targetTimes[key := Times(st.targetTimes, key) + [now]],
      if customer.None? then st.customerTimes
      else st.customerTimes[customer.value := Times(st.customerTimes, customer.value) + [now]])
  }

  class InMemoryRateLimiter {
    const limits: Limits
    var targetTimes: map<TargetKey, seq<int>>
    var customerTimes: map<Uuid, seq<int>>

    constructor (limits: Limits)
      ensures this.limits == limits && State() == LimiterState(map[], map[])
    {
      this.limits := limits;
      targetTimes, customerTimes := map[], map[];
    }

    function State(): LimiterState
      reads this
    {
      LimiterState(targetTimes, customerTimes)
    }

    method IsRateLimited(key: TargetKey, customer: Option<Uuid>, now: int) returns (limited: bool)
      modifies this
      ensures limited == Limited(limits, old(State()), key, customer, now)
      ensures State() == Pruned(limits, old(State()), key, customer, now)
    {
      var cutoff := now - limits.WindowMs();
      var history := Since(Times(targetTimes, key), cutoff);
      targetTimes := targetTimes[key := history];
      if |history| >= limits.maxPerWindow {
        return true;
      }
      if customer.Some? {
        var customerHistory := Since(Times(customerTimes, customer.value), cutoff);
        customerTimes := customerTimes[customer.value := customerHistory];
        if |customerHistory| >= limits.maxPerWindow * 3 {
          return true;
        }
      }
      return false;
    }

    method RecordAttempt(key: TargetKey, customer: Option<Uuid>, now: int)
      modifies this
      ensures State() == Recorded(old(State()), key, customer, now)
    {
      targetTimes := targetTimes[key := Times(targetTimes, key) + [now]];
      if customer.Some? {
        customerTimes := customerTimes[customer.value := Times(customerTimes, customer.value) + [now]];
      }
    }
  }

  // ---------------------------------------------------------------------------
  // Pruning is invisible
  // ---------------------------------------------------------------------------

  lemma {:induction false} SinceTwice(times: seq<int>, c: int, d: int)
    requires c <= d
    ensures Since(Since(times, c), d) == Since(times, d)
  {
    if times != [] {
      var n := |times| - 1;
      SinceTwice(times[..n], c, d);
      SinceAppend(Since(times[..n], c), if times[n] >= c then [times[n]] else [], d);
    }
  }

  lemma {:induction false} SinceAppend(xs: seq<int>, ys: seq<int>, c: int)
    ensures Since(xs + ys, c) == Since(xs, c) + Since(ys, c)
  {
    if ys == [] {
      assert xs + ys == xs;
    } else {
      var n := |ys| - 1;
      SinceAppend(xs, ys[..n], c);
      assert (xs + ys)[..|xs| + n] == xs + ys[..n];
      assert (xs + ys)[|xs| + n] == ys[n];
    }
  }

  /** Pruning keeps every recorded time that is not older than the cutoff, as often as it
      was recorded, and drops all others. By `SinceAppend` it keeps their order. */
  lemma {:induction false} SinceKeepsRecent(times: seq<int>, cutoff: int, t: int)
    ensures multiset(Since(times, cutoff))[t] == if t >= cutoff then multiset(times)[t] else 0
  {
    if times != [] {
      var n := |times| - 1;
      SinceKeepsRecent(times[..n], cutoff, t);
      assert times == times[..n] + [times[n]];
    }
  }

  /** What asking leaves behind: the target's list without the times that fell out of the
      window, and the customer's list pruned likewise unless the target was limited already. */
  lemma PruningForgetsExactly(limits: Limits, st: LimiterState, key: TargetKey, customer: Uuid, now: int, t: int)
    ensures var after, cutoff := Pruned(limits, st, key, Some(customer), now), now - limits.windowSeconds * 1000;
            && multiset(Times(after.targetTimes, key))[t]
               == (if t >= cutoff then multiset(Times(st.targetTimes, key))[t] else 0)
            && multiset(Times(after.customerTimes, customer))[t]
               == (if t >= cutoff || |Times(after.targetTimes, key)| >= limits.maxPerWindow
                   then multiset(Times(st.customerTimes, customer))[t] else 0)
            && (forall k :: k != key ==> Times(after.targetTimes, k) == Times(st.targetTimes, k))
            && (forall c :: c != customer ==> Times(after.customerTimes, c) == Times(st.customerTimes, c))
  {
    var cutoff := now - limits.windowSeconds * 1000;
    SinceKeepsRecent(Times(st.targetTimes, key), cutoff, t);
    SinceKeepsRecent(Times(st.customerTimes, customer), cutoff, t);
    hide Since;
  }

  /** A pruned list and the full history agree from `from` on. */
  predicate Agree(pruned: seq<int>, full: seq<int>, from: int) {
    Since(pruned, from) == Since(full, from)
  }

  /** Agreement carries over to every later cutoff. */
  lemma AgreeLater(pruned: seq<int>, full: seq<int>, from: int, cutoff: int)
    requires Agree(pruned, full, from) && from <= cutoff
    ensures Agree(pruned, full, cutoff)
  {
    SinceTwice(pruned, from, cutoff);
    SinceTwice(full, from, cutoff);
  }

  lemma AgreeAfterPruning(pruned: seq<int>, full: seq<int>, from: int, cutoff: int)
    requires Agree(pruned, full, from) && from <= cutoff
    ensures Agree(Since(pruned, cutoff), full, cutoff)
  {
    AgreeLater(pruned, full, from, cutoff);
    SinceTwice(pruned, cutoff, cutoff);
  }

  lemma AgreeAfterRecording(pruned: seq<int>, full: seq<int>, from: int, now: int)
    requires Agree(pruned, full, from)
    ensures Agree(pruned + [now], full + [now], from)
  {
  }

  // ---------------------------------------------------------------------------
  // No window is overfull
  // ---------------------------------------------------------------------------

  /** Every recorded time was admitted when fewer than `max` times lay in the window before it. */
  predicate Admitted(times: seq<int>, max: int, window: int) {
    times == []
    || var n := |times| - 1;
       Admitted(times[..n], max, window) && |Since(times[..n], times[n] - window)| < max
  }

  /** The times inside the closed window [start, start + window]. */
  function InWindow(times: seq<int>, start: int, window: int): seq<int> {
    if times == [] then []
    else
      var n := |times| - 1;
      InWindow(times[..n], start, window)
      + (if start <= times[n] <= start + window then [times[n]] else [])
  }

  lemma {:induction false} WindowWithinSince(times: seq<int>, start: int, window: int, cutoff: int)
    requires cutoff <= start
    ensures |InWindow(times, start, window)| <= |Since(times, cutoff)|
  {
    if times != [] {
      WindowWithinSince(times[..|times| - 1], start, window, cutoff);
    }
  }

  lemma {:induction false} AdmittedWindowBound(times: seq<int>, max: int, window: int, start: int)
    requires Admitted(times, max, window)
    ensures |InWindow(times, start, window)| <= if max > 0 then max else 0
  {
    if times != [] {
      var n := |times| - 1;
      AdmittedWindowBound(times[..n], max, window, start);
      if start <= times[n] <= start + window {
        WindowWithinSince(times[..n], start, window, times[n] - window);
      }
    }
  }

  lemma AdmittedExtends(times: seq<int>, now: int, max: int, window: int)
    requires Admitted(times, max, window)
    requires |Since(times, now - window)| < max
    ensures Admitted(times + [now], max, window)
  {
  }
}
