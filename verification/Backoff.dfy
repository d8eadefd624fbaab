/** The five capped doubling loops: `ladder.rs`, `connect_fsm.rs`, `endpoint.rs`.

    Each loop multiplies a bounded machine integer, so besides its closed form
    every method also proves that the value it doubles never leaves that type. */
module Backoff {
  import opened Config
  import opened Numeric

  /** `backoff_ms`: the `wrapping_mul` on `u64` never wraps. */
  method BackoffMs(failures: u32, base: u32, cap: u32) returns (r: u32)
    ensures r == if failures == 0 then 0 else Capped(base, failures - 1, cap)
  {
    if failures == 0 { return 0; }
    var v: u64 := base;
    var i := 1;
    while i < failures
      invariant 1 <= i <= failures
      invariant v == base * Pow2(i - 1)
      invariant i == 1 || v < cap
      invariant v <= U32_MAX
    {
      Doubles(base, i - 1);
      v := v * 2;
      if v >= cap {
        CappedStays(base, i, failures - 1, cap);
        return cap;
      }
      i := i + 1;
    }
    r := Min(v, cap);
  }

  /** `recovery_retry_delay_ms`: stops one doubling early, at half the cap. */
  method RecoveryRetryDelayMs(fails: u32) returns (r: nat)
    ensures r == RecoveryDelay(fails)
  {
    var d := RECOVERY_RETRY_MS;
    var i := 0;
    while i < fails
      invariant 0 <= i <= fails
      invariant d == RECOVERY_RETRY_MS * Pow2(i)
      invariant d <= RECOVERY_BACKOFF_CAP_MS
    {
      Doubles(RECOVERY_RETRY_MS, i);
      if d >= RECOVERY_BACKOFF_CAP_MS / 2 {
        CappedStays(RECOVERY_RETRY_MS, i + 1, fails, RECOVERY_BACKOFF_CAP_MS);
        return RECOVERY_BACKOFF_CAP_MS;
      }
      d := d * 2;
      i := i + 1;
    }
    r := d;
  }

  function RecoveryDelay(fails: nat): nat {
    Capped(RECOVERY_RETRY_MS, fails, RECOVERY_BACKOFF_CAP_MS)
  }

  /** `toggle_interval_ms`: the first two counts share the shortest interval. */
  method ToggleIntervalMs(fails: u32) returns (r: nat)
    ensures r == ToggleInterval(fails)
  {
    var v := CONNECT_TOGGLE_MIN_INTERVAL_MS;
    var i := 1;
    while i < fails
      invariant 1 <= i && (i <= fails || i == 1)
      invariant v == CONNECT_TOGGLE_MIN_INTERVAL_MS * Pow2(i - 1)
      invariant v <= CONNECT_TOGGLE_MAX_INTERVAL_MS
    {
      Doubles(CONNECT_TOGGLE_MIN_INTERVAL_MS, i - 1);
      v := v * 2;
      if v >= CONNECT_TOGGLE_MAX_INTERVAL_MS {
        CappedStays(CONNECT_TOGGLE_MIN_INTERVAL_MS, i, fails - 1, CONNECT_TOGGLE_MAX_INTERVAL_MS);
        return CONNECT_TOGGLE_MAX_INTERVAL_MS;
      }
      i := i + 1;
    }
    r := Min(v, CONNECT_TOGGLE_MAX_INTERVAL_MS);
  }

  function ToggleInterval(fails: nat): nat {
    Capped(CONNECT_TOGGLE_MIN_INTERVAL_MS, if fails <= 1 then 0 else fails - 1, CONNECT_TOGGLE_MAX_INTERVAL_MS)
  }

  /** `reenable_wait_ms`: the quiet time first, then capped doubling. */
  method ReenableWaitMs(attempt: u32) returns (r: u32)
    ensures r == ReenableWait(attempt)
  {
    if attempt == 0 { return CONNECT_TOGGLE_QUIET_MS; }
    var v: u32 := CONNECT_REENABLE_BASE_MS;
    var i := 1;
    while i < attempt
      invariant 1 <= i <= attempt
      invariant v == CONNECT_REENABLE_BASE_MS * Pow2(i - 1)
      invariant v <= CONNECT_REENABLE_CAP_MS
    {
      Doubles(CONNECT_REENABLE_BASE_MS, i - 1);
      v := v * 2;
      if v >= CONNECT_REENABLE_CAP_MS {
        CappedStays(CONNECT_REENABLE_BASE_MS, i, attempt - 1, CONNECT_REENABLE_CAP_MS);
        return CONNECT_REENABLE_CAP_MS;
      }
      i := i + 1;
    }
    r := Min(v, CONNECT_REENABLE_CAP_MS);
  }

  function ReenableWait(attempt: nat): nat {
    if attempt == 0 then CONNECT_TOGGLE_QUIET_MS
    else Capped(CONNECT_REENABLE_BASE_MS, attempt - 1, CONNECT_REENABLE_CAP_MS)
  }

  /** `probe_wait_ms`. */
  method ProbeWaitMs(attempt: u32) returns (r: u32)
    ensures r == Capped(ENDPOINT_PROBE_BASE_MS, attempt, ENDPOINT_PROBE_CAP_MS)
  {
    var v: u32 := ENDPOINT_PROBE_BASE_MS;
    var i := 0;
    while i < attempt
      invariant 0 <= i <= attempt
      invariant v == ENDPOINT_PROBE_BASE_MS * Pow2(i)
      invariant v <= ENDPOINT_PROBE_CAP_MS
    {
      Doubles(ENDPOINT_PROBE_BASE_MS, i);
      v := v * 2;
      if v >= ENDPOINT_PROBE_CAP_MS {
        CappedStays(ENDPOINT_PROBE_BASE_MS, i + 1, attempt, ENDPOINT_PROBE_CAP_MS);
        return ENDPOINT_PROBE_CAP_MS;
      }
      i := i + 1;
    }
    r := Min(v, ENDPOINT_PROBE_CAP_MS);
  }

  /** Every rate limit of the toggle: 15 s doubling up to five minutes, and from
      the sixth failure on always five minutes. */
  lemma ToggleIntervalShape(j: nat, k: nat)
    requires j <= k
    ensures CONNECT_TOGGLE_MIN_INTERVAL_MS <= ToggleInterval(j) <= ToggleInterval(k) <= CONNECT_TOGGLE_MAX_INTERVAL_MS
    ensures k >= 6 ==> ToggleInterval(k) == CONNECT_TOGGLE_MAX_INTERVAL_MS
  {
    var a := if j <= 1 then 0 else j - 1;
    var b := if k <= 1 then 0 else k - 1;
    CappedMonotone(CONNECT_TOGGLE_MIN_INTERVAL_MS, a, b, CONNECT_TOGGLE_MAX_INTERVAL_MS);
    CappedMonotone(CONNECT_TOGGLE_MIN_INTERVAL_MS, 0, a, CONNECT_TOGGLE_MAX_INTERVAL_MS);
    if k >= 6 {
      assert Pow2(3) == 8 && Pow2(5) == 4 * Pow2(3);
      CappedStays(CONNECT_TOGGLE_MIN_INTERVAL_MS, 5, b, CONNECT_TOGGLE_MAX_INTERVAL_MS);
    }
  }

  /** The four schedules in milliseconds, for any count. */
  lemma Schedules(k: nat)
    ensures RecoveryDelay(k)
            == if k == 0 then 5_000 else if k == 1 then 10_000 else if k == 2 then 20_000 else if k == 3 then 40_000
               else 60_000
    ensures ToggleInterval(k)
            == if k <= 1 then 15_000 else if k == 2 then 30_000 else if k == 3 then 60_000 else if k == 4 then 120_000
               else if k == 5 then 240_000 else 300_000
    ensures ReenableWait(k)
            == if k == 0 then 400 else if k == 1 then 500 else if k == 2 then 1_000 else if k == 3 then 2_000
               else 4_000
    ensures Capped(ENDPOINT_PROBE_BASE_MS, k, ENDPOINT_PROBE_CAP_MS)
            == if k == 0 then 1_000 else if k == 1 then 2_000 else if k == 2 then 4_000 else 5_000
  {
    assert Pow2(0) == 1 && Pow2(1) == 2 && Pow2(2) == 4 && Pow2(3) == 8 && Pow2(4) == 16 && Pow2(5) == 32;
    if k >= 3 {
      CappedMonotone(ENDPOINT_PROBE_BASE_MS, 3, k, ENDPOINT_PROBE_CAP_MS);
    }
    if k >= 4 {
      CappedMonotone(RECOVERY_RETRY_MS, 4, k, RECOVERY_BACKOFF_CAP_MS);
      CappedMonotone(CONNECT_REENABLE_BASE_MS, 3, k - 1, CONNECT_REENABLE_CAP_MS);
    }
    if k >= 6 {
      CappedMonotone(CONNECT_TOGGLE_MIN_INTERVAL_MS, 5, k - 1, CONNECT_TOGGLE_MAX_INTERVAL_MS);
    }
  }
}
