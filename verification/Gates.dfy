/** The pure decisions of the recovery ladder: `ladder.rs`, `wake.rs`,
    `page_fsm.rs` and `should_toggle` of `connect_fsm.rs`. A timestamp of 0 is
    "never" throughout. */
module Gates {
  import opened Config
  import opened Numeric
  import opened Backoff

  // wake.rs

  predicate IsSelfEcho(now: int, churn: int) {
    churn != 0 && now >= churn && now - churn < SELF_CHURN_ECHO_MS
  }

  predicate DeviceWakeAllowed(now: int, last: int) {
    last == 0 || now < last || now - last >= DEVICE_EVENT_DEBOUNCE_MS
  }

  predicate DeviceWakeMayUnpark(now: int, lastUnpark: int, churn: int) {
    !IsSelfEcho(now, churn)
    && (lastUnpark == 0 || now < lastUnpark || now - lastUnpark >= DEVICE_WAKE_UNPARK_MS)
  }

  // page_fsm.rs

  predicate ShouldPage(now: int, downSince: int, pageLast: int) {
    downSince != 0 && now - downSince >= PAGE_MIN_DOWN_MS
    && (pageLast == 0 || now - pageLast >= PAGE_CADENCE_MS)
  }

  predicate PageSettling(now: int, settleUntil: int) {
    settleUntil != 0 && now < settleUntil
  }

  predicate AudioDue(now: int, last: int) {
    last == 0 || now - last >= AUDIO_CONNECT_CADENCE_MS
  }

  // connect_fsm.rs

  predicate ShouldToggle(now: int, last: int, fails: u32) {
    last == 0 || now < last || now - last >= ToggleInterval(fails)
  }

  // ladder.rs

  function ConnectBackoff(fails: u32): nat {
    if fails == 0 then 0 else Capped(CONNECT_BACKOFF_BASE_MS, fails - 1, CONNECT_BACKOFF_CAP_MS)
  }

  predicate ShouldRetryRecovery(now: int, last: int, delay: int) {
    last == 0 || now < last || now - last >= delay
  }

  predicate ShouldRadioReset(armed: int, now: int, lastReset: int) {
    armed != 0 && now - armed >= R1_ARM_MS && (lastReset == 0 || now - lastReset >= R1_COOLDOWN_MS)
  }

  predicate RadioResetRungDead(rejects: u32) {
    rejects >= R1_DEAD_REJECTIONS
  }

  predicate ShouldEarbudRestart(armed: int, now: int, last: int, restarts: u32, forceAfter: int) {
    armed != 0
    && if forceAfter != 0 then now >= forceAfter
       else now - armed >= R3_ARM_MS && restarts < R3_MAX_PER_EPISODE
            && (last == 0 || now - last >= R3_MIN_INTERVAL_MS)
  }

  predicate ShouldUsbCycle(armed: int, now: int, resetInEpisode: bool, last: int) {
    armed != 0 && resetInEpisode && now - armed >= R2_ARM_MS
    && (last == 0 || now - last >= R2_MIN_INTERVAL_MS)
  }

  predicate UsbCycleLeftInEpisode(last: int, armed: int) {
    armed != 0 && last < armed
  }

  predicate UsbCycleQuietAfterRestart(now: int, restartDone: int) {
    restartDone == 0 || now - restartDone >= R2_POST_R3_QUIET_MS
  }

  predicate UsbCycleRungDead(fails: u32) {
    fails >= R2_DEAD_FAILURES
  }

  predicate ShouldHubPortCycle(armed: int, now: int, cycledInEpisode: bool, last: int) {
    armed != 0 && cycledInEpisode && now - armed >= R4_ARM_MS
    && (last == 0 || now - last >= R4_MIN_INTERVAL_MS)
  }

  predicate HubPortCycleRungDead(fails: u32) {
    fails >= R4_DEAD_FAILURES
  }

  predicate PeerAbsentFreeze(streak: u32) {
    streak >= PEER_ABSENT_FREEZE_AFTER
  }
}
