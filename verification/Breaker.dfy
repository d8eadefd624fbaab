/** The tumbling-window circuit breaker of `ladder.rs`. */
module Breaker {

  /** The fields of one breaker. */
  datatype State = State(
    window: int, maxEvents: nat, cooldown: int,
    count: nat, windowStart: int, trippedUntil: int, tripCount: nat)

  function Fresh(window: int, maxEvents: nat, cooldown: int): State {
    State(window, maxEvents, cooldown, 0, 0, 0, 0)
  }

  /** One call of `allow`: the next state and the answer. */
  function Allow(b: State, now: int): (State, bool) {
    if now < b.trippedUntil then (b, false)
    else
      var w := if now - b.windowStart >= b.window then b.(windowStart := now, count := 0) else b;
      if w.count + 1 > w.maxEvents then
        (w.(count := 0, windowStart := now, trippedUntil := now + w.cooldown, tripCount := w.tripCount + 1), false)
      else (w.(count := w.count + 1), true)
  }

  /** The source's object: `allow` updates its counters in place. */
  class CircuitBreaker {
    const window: int
    const maxEvents: nat
    const cooldown: int
    var count: nat
    var windowStart: int
    var trippedUntil: int
    var tripCount: nat

    ghost function Value(): State reads this {
      State(window, maxEvents, cooldown, count, windowStart, trippedUntil, tripCount)
    }

    constructor (window: int, maxEvents: nat, cooldown: int)
      ensures Value() == Fresh(window, maxEvents, cooldown)
    {
      this.window, this.maxEvents, this.cooldown := window, maxEvents, cooldown;
      count, windowStart, trippedUntil, tripCount := 0, 0, 0, 0;
    }

    method TryAcquire(now: int) returns (ok: bool)
      modifies this
      ensures (Value(), ok) == Allow(old(Value()), now)
    {
      if now < trippedUntil { return false; }
      if now - windowStart >= window {
        windowStart := now;
        count := 0;
      }
      count := count + 1;
      if count > maxEvents {
        trippedUntil := now + cooldown;
        tripCount := tripCount + 1;
        count := 0;
        windowStart := now;
        return false;
      }
      ok := true;
    }
  }

  predicate NonDecreasing(times: seq<int>) {
    forall i, j :: 0 <= i < j < |times| ==> times[i] <= times[j]
  }

  /** How many of the calls at `times`, made in order from `b`, are allowed and
      fall into the half-open interval `[lo, hi)`. */
  function AllowedWithin(b: State, times: seq<int>, lo: int, hi: int): nat
    decreases |times|
  {
    if times == [] then 0
    else
      var (b', ok) := Allow(b, times[0]);
      (if ok && lo <= times[0] < hi then 1 else 0) + AllowedWithin(b', times[1..], lo, hi)
  }

  /** Invariant of every state reachable from a fresh breaker. */
  predicate Sound(b: State) {
    b.window > 0 && b.count <= b.maxEvents
  }

  // What the current window can still let through. After a trip with a long
  // enough cooldown it is nothing, although `count` was cleared.
  function Left(b: State): nat
    requires Sound(b)
  {
    if b.trippedUntil >= b.windowStart + b.window then 0 else b.maxEvents - b.count
  }

  // How many windows of length `w` can start in `[x, hi)`.
  function Starts(x: int, hi: int, w: int): nat
    requires w > 0
    decreases hi - x
  {
    if x >= hi then 0 else 1 + Starts(x + w, hi, w)
  }

  lemma {:induction false} StartsMonotone(x: int, y: int, hi: int, w: int)
    requires w > 0 && x <= y
    ensures Starts(y, hi, w) <= Starts(x, hi, w)
    decreases hi - x
  {
    if y < hi {
      StartsMonotone(x + w, y + w, hi, w);
    }
  }

  lemma ScaleLe(a: int, b: int, w: int)
    requires w >= 0 && a <= b
    ensures a * w <= b * w
  {
  }

  function Later(b: State, t: int): int {
    if b.windowStart + b.window >= t then b.windowStart + b.window else t
  }

  // Everything that can still be allowed before `hi` when no call comes before `t`.
  function Budget(b: State, t: int, hi: int): nat
    requires Sound(b)
  {
    Left(b) + Starts(Later(b, t), hi, b.window) * b.maxEvents
  }

  lemma ScaleNext(a: int, m: int)
    ensures (a + 1) * m == a * m + m
  {
  }

  // A later start leaves no more windows.
  lemma BudgetShrinks(b: State, x: int, y: int, hi: int)
    requires Sound(b) && x <= y
    ensures Starts(y, hi, b.window) * b.maxEvents <= Starts(x, hi, b.window) * b.maxEvents
  {
    StartsMonotone(x, y, hi, b.window);
    ScaleLe(Starts(y, hi, b.window), Starts(x, hi, b.window), b.maxEvents);
  }

  // A window that starts at `n` is one of those that could start from `x` on.
  lemma WindowTaken(b: State, x: int, n: int, hi: int)
    requires Sound(b) && x <= n < hi
    ensures Starts(n + b.window, hi, b.window) * b.maxEvents + b.maxEvents <= Starts(x, hi, b.window) * b.maxEvents
  {
    BudgetShrinks(b, x, n, hi);
    ScaleNext(Starts(n + b.window, hi, b.window), b.maxEvents);
  }

  /** One call at `n >= t` spends at least one unit of budget when allowed. */
  lemma OneCall(b: State, t: int, n: int, hi: int)
    requires Sound(b) && b.cooldown >= b.window
    requires b.windowStart <= t <= n < hi
    ensures var (b', ok) := Allow(b, n);
            Sound(b') && b'.windowStart <= n
            && b'.window == b.window && b'.maxEvents == b.maxEvents && b'.cooldown == b.cooldown
            && Budget(b', n, hi) + (if ok then 1 else 0) <= Budget(b, t, hi)
  {
    var (b', ok) := Allow(b, n);
    if n >= b.trippedUntil && n - b.windowStart >= b.window {
      WindowTaken(b, Later(b, t), n, hi);
    } else {
      BudgetShrinks(b, Later(b, t), Later(b', n), hi);
    }
  }

  lemma {:induction false} SpendsBudget(b: State, times: seq<int>, t: int, lo: int, hi: int)
    requires Sound(b) && b.cooldown >= b.window
    requires NonDecreasing(times) && b.windowStart <= t && (times != [] ==> t <= times[0])
    ensures AllowedWithin(b, times, lo, hi) <= Budget(b, t, hi)
    decreases |times|
  {
    if times == [] {
    } else {
      var n, rest := times[0], times[1..];
      var b' := Allow(b, n).0;
      assert rest != [] ==> rest[0] == times[1];
      if n < hi {
        OneCall(b, t, n, hi);
        SpendsBudget(b', rest, n, lo, hi);
      } else {
        NoneAfter(b, times, lo, hi);
      }
    }
  }

  lemma {:induction false} NoneAfter(b: State, times: seq<int>, lo: int, hi: int)
    requires NonDecreasing(times) && (times != [] ==> hi <= times[0])
    ensures AllowedWithin(b, times, lo, hi) == 0
    decreases |times|
  {
    if times != [] {
      assert times[1..] != [] ==> times[1..][0] == times[1];
      NoneAfter(Allow(b, times[0]).0, times[1..], lo, hi);
    }
  }

  /** At most `k + 1` windows' worth of calls are allowed in `k` windows from `lo`. */
  predicate AtMost(b: State, times: seq<int>, lo: int, k: nat) {
    AllowedWithin(b, times, lo, lo + k * b.window) <= (k + 1) * b.maxEvents
  }

  // The bound for any interval in which at most `k` windows can start.
  lemma {:induction false} RateBoundTo(b: State, times: seq<int>, lo: int, hi: int, k: nat)
    requires Sound(b) && b.cooldown >= b.window
    requires NonDecreasing(times) && (times != [] ==> b.windowStart <= times[0])
    requires Starts(lo, hi, b.window) <= k
    ensures AllowedWithin(b, times, lo, hi) <= k * b.maxEvents + b.maxEvents
    decreases |times|
  {
    if times == [] {
      ScaleLe(0, k, b.maxEvents);
    } else if times[0] < lo {
      var rest, b' := times[1..], Allow(b, times[0]).0;
      assert rest != [] ==> rest[0] == times[1];
      RateBoundTo(b', rest, lo, hi, k);
    } else {
      SpendsBudget(b, times, times[0], lo, hi);
      StartsMonotone(lo, Later(b, times[0]), hi, b.window);
      ScaleLe(Starts(Later(b, times[0]), hi, b.window), k, b.maxEvents);
    }
  }

  /** THE RATE BOUND. Windows tumble instead of sliding, yet with a cooldown of
      at least one window no interval of `k` windows sees more than `k + 1`
      windows' worth of allowed calls, wherever the interval starts. */
  lemma RateBound(b: State, times: seq<int>, lo: int, k: nat)
    requires Sound(b) && b.cooldown >= b.window
    requires NonDecreasing(times) && (times != [] ==> b.windowStart <= times[0])
    ensures AtMost(b, times, lo, k)
  {
    WholeWindows(lo, k, b.window);
    RateBoundTo(b, times, lo, lo + k * b.window, k);
    ScaleNext(k, b.maxEvents);
  }

  /** The state after calls at `times`. */
  function After(b: State, times: seq<int>): State
    decreases |times|
  {
    if times == [] then b else After(Allow(b, times[0]).0, times[1..])
  }

  /** One more call. */
  lemma {:induction false} Snoc(b: State, times: seq<int>, t: int, lo: int, hi: int)
    ensures After(b, times + [t]) == Allow(After(b, times), t).0
    ensures AllowedWithin(b, times + [t], lo, hi)
            == AllowedWithin(b, times, lo, hi) + (if Allow(After(b, times), t).1 && lo <= t < hi then 1 else 0)
    decreases |times|
  {
    if times == [] {
      assert [t][1..] == [];
    } else {
      assert (times + [t])[1..] == times[1..] + [t];
      Snoc(Allow(b, times[0]).0, times[1..], t, lo, hi);
    }
  }

  lemma {:induction false} WholeWindows(lo: int, k: nat, w: int)
    requires w > 0
    ensures Starts(lo, lo + k * w, w) <= k
    decreases k
  {
    if k > 0 {
      assert k * w == (k - 1) * w + w;
      assert lo + k * w > lo by { ScaleLe(1, k, w); }
      WholeWindows(lo + w, k - 1, w);
      assert lo + w + (k - 1) * w == lo + k * w;
    }
  }

  // -------------------------------------------------------------------------
  // The cooldown condition is exact
  // -------------------------------------------------------------------------

  // `n` calls at the same instant.
  function Burst(t: int, n: nat): (s: seq<int>)
    ensures |s| == n && forall i :: 0 <= i < n ==> s[i] == t
  {
    if n == 0 then [] else [t] + Burst(t, n - 1)
  }

  // `m` bursts of `size` calls, `gap` apart.
  function Bursts(t: int, gap: nat, m: nat, size: nat): seq<int>
    decreases m
  {
    if m == 0 then [] else Burst(t, size) + Bursts(t + gap, gap, m - 1, size)
  }

  lemma {:induction false} BurstsOrdered(t: int, gap: nat, m: nat, size: nat)
    ensures NonDecreasing(Bursts(t, gap, m, size))
    ensures forall i :: 0 <= i < |Bursts(t, gap, m, size)| ==> t <= Bursts(t, gap, m, size)[i]
    decreases m
  {
    if m > 0 {
      BurstsOrdered(t + gap, gap, m - 1, size);
    }
  }

  // A breaker that just came out of a trip, or a fresh one at time 0.
  predicate Rearmed(b: State, t: int) {
    Sound(b) && b.count == 0 && b.trippedUntil <= t && 0 <= t - b.windowStart < b.window
  }

  // A whole burst of `maxEvents + 1` calls is allowed except its last call, and
  // the breaker is re-armed one cooldown later -- inside the same window.
  lemma {:induction false} OneBurst(b: State, t: int, done: nat, rest: seq<int>, lo: int, hi: int)
    requires Sound(b) && b.count == done <= b.maxEvents
    requires b.trippedUntil <= t && 0 <= t - b.windowStart < b.window
    requires lo <= t < hi
    ensures var after := b.(count := 0, windowStart := t, trippedUntil := t + b.cooldown, tripCount := b.tripCount + 1);
            AllowedWithin(b, Burst(t, b.maxEvents + 1 - done) + rest, lo, hi)
            == b.maxEvents - done + AllowedWithin(after, rest, lo, hi)
    decreases b.maxEvents - done
  {
    var n := b.maxEvents + 1 - done;
    var times := Burst(t, n) + rest;
    assert times[0] == t && times[1..] == Burst(t, n - 1) + rest;
    if done < b.maxEvents {
      OneBurst(b.(count := done + 1), t, done + 1, rest, lo, hi);
    } else {
      assert Burst(t, 0) + rest == rest;
    }
  }

  lemma {:induction false} ManyBursts(b: State, t: int, m: nat, lo: int, hi: int)
    requires Rearmed(b, t) && 0 <= b.cooldown < b.window
    requires lo <= t && (m > 0 ==> t + (m - 1) * b.cooldown < hi)
    ensures AllowedWithin(b, Bursts(t, b.cooldown, m, b.maxEvents + 1), lo, hi) == m * b.maxEvents
    decreases m
  {
    if m > 0 {
      var rest := Bursts(t + b.cooldown, b.cooldown, m - 1, b.maxEvents + 1);
      assert (m - 1) * b.cooldown >= 0 by { ScaleLe(0, m - 1, b.cooldown); }
      OneBurst(b, t, 0, rest, lo, hi);
      var after := b.(count := 0, windowStart := t, trippedUntil := t + b.cooldown, tripCount := b.tripCount + 1);
      if m > 1 {
        assert (m - 1) * b.cooldown == b.cooldown + (m - 2) * b.cooldown;
      }
      ManyBursts(after, t + b.cooldown, m - 1, lo, hi);
      assert m * b.maxEvents == b.maxEvents + (m - 1) * b.maxEvents;
    }
  }

  ghost predicate RateBoundHolds(b: State) {
    forall times: seq<int>, lo: int, k: nat
      | NonDecreasing(times) && (times != [] ==> b.windowStart <= times[0]) :: AtMost(b, times, lo, k)
  }

  /** The bound holds for every schedule of calls exactly when the cooldown is
      at least the window: with a shorter one, bursts spaced by the cooldown
      beat it. */
  lemma RateBoundIffCooldown(window: int, maxEvents: nat, cooldown: nat)
    requires window > 0 && maxEvents > 0
    ensures RateBoundHolds(Fresh(window, maxEvents, cooldown)) <==> cooldown >= window
  {
    var b := Fresh(window, maxEvents, cooldown);
    if cooldown >= window {
      forall times: seq<int>, lo: int, k: nat | NonDecreasing(times) && (times != [] ==> b.windowStart <= times[0])
        ensures AtMost(b, times, lo, k)
      {
        RateBound(b, times, lo, k);
      }
    } else {
      var k: nat := cooldown + 1;
      var times := Bursts(0, cooldown, k + 2, maxEvents + 1);
      BurstsOrdered(0, cooldown, k + 2, maxEvents + 1);
      assert k * window >= k * k by { ScaleLe(k, window, k); }
      assert k * k == (k + 1) * cooldown + 1;
      ManyBursts(b, 0, k + 2, 0, k * window);
      assert (k + 2) * maxEvents == (k + 1) * maxEvents + maxEvents;
      assert !AtMost(b, times, 0, k);
    }
  }

  // -------------------------------------------------------------------------
  // What is never refused
  // -------------------------------------------------------------------------

  /** No window, wherever it begins, sees more than `max` of the calls. */
  predicate Sparse(times: seq<int>, window: int, max: nat) {
    forall i :: 0 <= i < |times| - max ==> times[i + max] - times[i] >= window
  }

  // Everything was allowed so far, and the open window has seen the last calls.
  predicate Idle(b: State, times: seq<int>) {
    b.trippedUntil <= 0 && b.count <= b.maxEvents && b.count <= |times|
    && (b.windowStart <= 0 || (times != [] && b.windowStart <= times[|times| - 1]))
    && forall i :: |times| - b.count <= i < |times| ==> b.windowStart <= times[i]
  }

  // One more call of a quiet caller.
  lemma OneQuietCall(b: State, times: seq<int>, t: int)
    requires b.window > 0 && Idle(b, times) && t >= 0
    requires NonDecreasing(times + [t]) && Sparse(times + [t], b.window, b.maxEvents)
    ensures Allow(b, t).1 && Idle(Allow(b, t).0, times + [t])
    ensures Allow(b, t).0.window == b.window && Allow(b, t).0.maxEvents == b.maxEvents
  {
    var all, n := times + [t], |times|;
    assert n > 0 ==> all[n - 1] <= all[n];
    if b.count == b.maxEvents {
      assert all[n - b.maxEvents + b.maxEvents] - all[n - b.maxEvents] >= b.window;
    }
  }

  lemma LaterIsPositive(times: seq<int>)
    requires NonDecreasing(times) && times != [] && times[0] >= 0
    ensures times[|times| - 1] >= 0
  {
  }

  lemma QuietBefore(times: seq<int>, n: nat, window: int, max: nat)
    requires n <= |times| && NonDecreasing(times) && Sparse(times, window, max)
    ensures NonDecreasing(times[..n]) && Sparse(times[..n], window, max)
  {
  }

  lemma {:induction false} StaysIdle(b: State, times: seq<int>)
    requires b.window > 0 && b == Fresh(b.window, b.maxEvents, b.cooldown)
    requires NonDecreasing(times) && Sparse(times, b.window, b.maxEvents) && (times != [] ==> times[0] >= 0)
    ensures var after := After(b, times);
            Idle(after, times) && after.window == b.window && after.maxEvents == b.maxEvents
  {
    if times != [] {
      var n := |times| - 1;
      hide NonDecreasing, Sparse, Allow, After, Idle;
      assert times == times[..n] + [times[n]];
      QuietBefore(times, n, b.window, b.maxEvents);
      LaterIsPositive(times);
      StaysIdle(b, times[..n]);
      Snoc(b, times[..n], times[n], 0, 0);
      OneQuietCall(After(b, times[..n]), times[..n], times[n]);
    }
  }

  /** A QUIET CALLER IS NEVER REFUSED: if no window sees more calls than its limit,
      a fresh breaker allows every one of them. */
  lemma QuietCallersPass(window: int, maxEvents: nat, cooldown: int, times: seq<int>, i: nat)
    requires window > 0 && NonDecreasing(times) && Sparse(times, window, maxEvents)
    requires i < |times| && times[0] >= 0
    ensures Allow(After(Fresh(window, maxEvents, cooldown), times[..i]), times[i]).1
  {
    var b := Fresh(window, maxEvents, cooldown);
    QuietBefore(times, i, window, maxEvents);
    QuietBefore(times, i + 1, window, maxEvents);
    StaysIdle(b, times[..i]);
    assert times[..i] + [times[i]] == times[..i + 1];
    OneQuietCall(After(b, times[..i]), times[..i], times[i]);
  }
}
