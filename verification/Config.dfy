/** The tuning constants of `src/config.rs` that the modelled code reads. */
module Config {

  // Poll loop and wake policy
  const DEVICE_EVENT_DEBOUNCE_MS := 400
  const DEVICE_WAKE_UNPARK_MS := 60_000
  const SELF_CHURN_ECHO_MS := 15_000

  // Log de-duplication
  const DEDUP_WINDOW_MS := 60_000
  const DEDUP_SLOTS: nat := 32

  // Endpoint probing
  const ENDPOINT_PROBE_BASE_MS: nat := 1_000
  const ENDPOINT_PROBE_CAP_MS: nat := 5_000

  // Connect backoff, paging and the profile toggle
  const CONNECT_BACKOFF_BASE_MS: nat := 500
  const CONNECT_BACKOFF_CAP_MS: nat := 4_000
  const CONNECT_REFUSED_RETRY_MS := 1_000
  const PAGE_MIN_DOWN_MS := 0
  const PAGE_CADENCE_MS := 10_000
  const PAGE_SETTLE_MS := 3_000
  const AUDIO_READY_GRACE_MS := 20_000
  const AUDIO_CONNECT_CADENCE_MS := 10_000
  const CONNECT_TOGGLE_MIN_INTERVAL_MS: nat := 15_000
  const CONNECT_TOGGLE_MAX_INTERVAL_MS: nat := 300_000
  const CONNECT_TOGGLE_QUIET_MS: nat := 400
  const CONNECT_TOGGLE_SETTLE_MS := 3_000
  const CONNECT_REENABLE_ATTEMPTS: nat := 8
  const CONNECT_REENABLE_BASE_MS: nat := 500
  const CONNECT_REENABLE_CAP_MS: nat := 4_000
  const CONNECT_CB_WINDOW_MS := 10_000
  const CONNECT_CB_MAX_EVENTS: nat := 20
  const CONNECT_CB_COOLDOWN_MS := 30_000

  // R1: page-scan toggle, and flap hysteresis
  const R1_ARM_MS := 20_000
  const R1_COOLDOWN_MS := 60_000
  const R1_CB_WINDOW_MS := 600_000
  const R1_CB_MAX_RESETS: nat := 3
  const R1_CB_COOLDOWN_MS := 600_000
  const R1_REENABLE_ATTEMPTS: nat := 5
  const R1_REENABLE_RETRY_MS: nat := 100
  const R1_POST_RESET_RECONNECT_MS := 2_000
  const R1_DEAD_REJECTIONS: nat := 3
  const LINK_STABLE_POLLS_TO_CLOSE: nat := 3
  const FLAP_FORCE_R1_AFTER: nat := 3

  // R2: usb-cycle
  const R2_ARM_MS := 45_000
  const R2_MIN_INTERVAL_MS := 120_000
  const R2_CB_WINDOW_MS := 600_000
  const R2_CB_MAX_CYCLES: nat := 2
  const R2_CB_COOLDOWN_MS := 600_000
  const R2_DISABLE_QUIET_MS: nat := 2_000
  const R2_DISABLE_VERIFY_MS: nat := 3_000
  const R2_ENABLE_VERIFY_MS: nat := 2_500
  const R2_REENUM_POLL_MS: nat := 250
  const R2_POST_CYCLE_RECONNECT_MS := 2_000
  const R2_DEAD_FAILURES: nat := 2
  const R2_MIN_REAL_RESTART_MS := 1_000
  const PNPUTIL_REBOOT_REQUIRED: nat := 3010

  // R3: earbud devnode restart
  const R3_ARM_MS := 30_000
  const R3_MIN_INTERVAL_MS := 90_000
  const R3_MAX_PER_EPISODE: nat := 2
  const R3_CB_WINDOW_MS := 600_000
  const R3_CB_MAX_RESTARTS: nat := 3
  const R3_CB_COOLDOWN_MS := 600_000
  const R3_POST_CYCLE_DELAY_MS := 15_000
  const R3_POST_RESTART_RECONNECT_MS := 3_000
  const R3_VERIFY_MS: nat := 4_000
  const R2_POST_R3_QUIET_MS := 30_000

  // R4: hub port power-cycle
  const R4_ARM_MS := 90_000
  const R4_MIN_INTERVAL_MS := 300_000
  const R4_CB_WINDOW_MS := 600_000
  const R4_CB_MAX_PORTCYCLES: nat := 2
  const R4_CB_COOLDOWN_MS := 600_000
  const R4_POST_CYCLE_RECONNECT_MS := 2_000
  const R4_REENUM_VERIFY_MS: nat := 10_000
  const R4_REENUM_POLL_MS: nat := 250
  const R4_DEAD_FAILURES: nat := 2

  // Rung 0: repair
  const RECOVERY_RETRY_MS: nat := 5_000
  const RECOVERY_BACKOFF_CAP_MS: nat := 60_000
  const RECOVERY_VERIFY_MS: nat := 3_000
  const PEER_ABSENT_FREEZE_AFTER: nat := 5
  const FREEZE_RECHECK_MS := 15_000
}
