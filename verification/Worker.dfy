/** `worker.rs` over the fields of `state.rs`, updated in place. Every method is
    proved to take `View()` exactly where the ladder's transition function takes
    it; what the passes and runs of that function keep is proved from `Conformance`
    and in `Guards`. */
module Worker {
  import opened Config
  import opened Numeric
  import opened Backoff
  import opened Gates
  import opened Ladder
  import opened Wrappers
  import Breaker
  import ConnectFsm

  /** `should_toggle`, with the interval computed by its loop. */
  method MayToggle(now: int, last: int, fails: u32) returns (ok: bool)
    ensures ok == ShouldToggle(now, last, fails)
  {
    if last == 0 || now < last { return true; }
    var interval := ToggleIntervalMs(fails);
    ok := now - last >= interval;
  }

  /** The fields of `SharedState`, grouped by the layer they belong to. Breakers
      are embedded by value, as in the source; `Breaker.CircuitBreaker` is the
      object form of `Breaker.Allow`. A held socket of `u64::MAX` is `None`. */
  class SharedState {
    var wakes: Wakes
    var toggle: ToggleClock
    var link: Link
    var connect: Connect
    var audio: Audio
    var page: Page
    var repair: Repair
    var r1: R1
    var r2: R2
    var r3: R3
    var r4: R4
    var freeze: Freeze

    ghost var log: History

    ghost function View(): State
      reads this
    {
      State(wakes, toggle, link, connect, audio, page, repair, r1, r2, r3, r4, freeze, log)
    }

    /** `SharedState::new`. */
    constructor ()
      ensures View() == Initial()
    {
      wakes, toggle, link := Wakes(0, 0, 0), ToggleClock(0, 0), Link(0, 0, 0, 0);
      connect := Connect(0, 0, 0, Breaker.Fresh(CONNECT_CB_WINDOW_MS, CONNECT_CB_MAX_EVENTS, CONNECT_CB_COOLDOWN_MS));
      audio, page, repair := Audio(0, false), Page(0, 0, None), Repair(false, 0, 0, false, false);
      r1 := R1(0, 0, false, 0, Breaker.Fresh(R1_CB_WINDOW_MS, R1_CB_MAX_RESETS, R1_CB_COOLDOWN_MS));
      r2 := R2(0, false, 0, Breaker.Fresh(R2_CB_WINDOW_MS, R2_CB_MAX_CYCLES, R2_CB_COOLDOWN_MS));
      r3 := R3(0, 0, 0, 0, Breaker.Fresh(R3_CB_WINDOW_MS, R3_CB_MAX_RESTARTS, R3_CB_COOLDOWN_MS));
      r4 := R4(0, 0, Breaker.Fresh(R4_CB_WINDOW_MS, R4_CB_MAX_PORTCYCLES, R4_CB_COOLDOWN_MS));
      freeze, log := Freeze(false, 0), Start;
    }

    ghost method Note(e: Event)
      modifies this`log
      ensures log == Then(old(log), e)
    {
      log := Then(log, e);
    }

    // -----------------------------------------------------------------------
    // recover_link
    // -----------------------------------------------------------------------

    method BeginPass(p: Pass, connected: bool)
      modifies this
      ensures View() == Begin(old(View()), p, connected)
    {
      Note(Began(p.times.now, p.admin, connected));
      if link.downSince == 0 {
        link := link.(downSince := p.times.now);
      }
      if !p.admin {
        repair := repair.(sawUnelevated := true);
      } else if repair.sawUnelevated {
        repair := repair.(sawUnelevated := false, fails := 0);
      }
    }

    /** Rung -1. */
    method RepayDebt(p: Pass) returns (go: bool)
      modifies this`connect, this`log
      ensures Flow(View(), go) == RungDebt(old(View()), p)
    {
      go := !p.debtUnpaid;
      Note(DebtRead(p.times.now, p.debtUnpaid));
      if !go {
        connect := connect.(next := p.times.now + CONNECT_REFUSED_RETRY_MS);
      }
    }

    method CountRepair(p: Pass)
      modifies this
      ensures View() == old(View()).(repair := AfterRepair(old(View().repair), p))
    {
      repair := repair.(last := p.times.now);
      if p.present == 0 {
        repair := repair.(sawAbsent := true);
      } else if repair.sawAbsent {
        repair := repair.(sawAbsent := false, fails := 0);
      }
      repair := repair.(armed := p.journalAfter);
      if p.repaired || !repair.armed {
        repair := repair.(fails := 0);
      } else {
        repair := repair.(fails := SatInc(repair.fails));
      }
    }

    /** Rung 0. */
    method RepairRadio(p: Pass) returns (go: bool)
      modifies this
      ensures Flow(View(), go) == RungRepair(old(View()), p)
    {
      var delay := RecoveryRetryDelayMs(repair.fails);
      if ShouldRetryRecovery(p.times.now, repair.last, delay) {
        Note(RepairPass(p.times.now, p.present > 0, p.repaired, p.journalAfter));
        CountRepair(p);
        if p.repaired {
          AfterRepaired(p);
          return false;
        }
      }
      go := !repair.armed;
    }

    method AfterRepaired(p: Pass)
      modifies this
      ensures View() == Repaired(old(View()), p)
    {
      connect := connect.(fails := 0);
      wakes := wakes.(churn := p.times.repaired);
      Note(Recovered(p.times.repairedNext, p.times.repaired));
      connect := connect.(next := p.times.repairedNext + R2_POST_CYCLE_RECONNECT_MS, absent := 0);
    }

    method RequestAudio(p: Pass, connected: bool) returns (go: bool)
      modifies this
      ensures Flow(View(), go) == RungAudio(old(View()), p, connected)
    {
      if connected {
        Note(StreamRead(p.times.now, p.streaming));
        if p.streaming { return false; }
      }
      if AudioDue(p.times.now, audio.last) {
        Note(AudioAsked(p.times.now, p.times.audio, p.audioAccepted));
        audio := audio.(last := p.times.audio, accepted := p.audioAccepted);
      }
      if audio.accepted { return false; }
      if connected && p.times.now - link.upSince < AUDIO_READY_GRACE_MS { return false; }
      go := !PageSettling(p.times.now, page.settleUntil);
    }

    /** `take_held_page` and `close_held`. */
    method CloseHold()
      modifies this
      ensures View() == ReleaseHold(old(View()))
    {
      if page.held.Some? {
        Note(Closed(page.held.value));
        page := page.(held := None);
      }
    }

    method PageFirst(p: Pass, connected: bool) returns (go: bool)
      modifies this
      ensures Flow(View(), go) == RungPage(old(View()), p, connected)
    {
      if connected || !ShouldPage(p.times.now, link.downSince, page.last) { return true; }
      Note(Paged(p.times.now, p.times.page, p.pageOutcome));
      page := page.(last := p.times.page);
      if p.pageOutcome != Attempted { return true; }
      LetSettle(p);
      go := false;
    }

    /** The page went out. */
    method LetSettle(p: Pass)
      modifies this
      ensures View() == Attempt(old(View()), p)
    {
      Note(Answered(p.times.paged, p.pageHeld));
      if p.pageHeld.Some? {
        var socket := p.pageHeld.value;
        Note(Opened(socket));
        CloseHold();
        page := page.(held := Some(socket));
      }
      page := page.(settleUntil := p.times.paged + PAGE_SETTLE_MS);
      connect := connect.(next := page.settleUntil);
    }

    /** Whatever rewrites the device tree stamps the end of its own churn. */
    method StampChurn(ghost e: Event, at: int)
      modifies this`wakes, this`log
      ensures View() == Churned(old(View()), e, at)
    {
      Note(e);
      wakes := wakes.(churn := at);
    }

    /** A rung that worked gives the stack a moment before the next connect. */
    method ReconnectAt(next: int)
      modifies this`connect
      ensures View() == old(View()).(connect := old(View()).connect.(fails := 0, next := next))
    {
      connect := connect.(fails := 0, next := next);
    }

    method ArmEpisode(now: int)
      modifies this`r1, this`log
      ensures View() == Arm(old(View()), now)
    {
      Note(Escalating(now));
      if r1.armed == 0 {
        r1 := r1.(armed := now);
      }
      if link.flaps >= FLAP_FORCE_R1_AFTER && r1.armed > now - R1_ARM_MS {
        r1 := r1.(armed := now - R1_ARM_MS);
      }
    }

    /** R1. */
    method PageScanRung(p: Pass) returns (go: bool)
      modifies this
      ensures Flow(View(), go) == RungPageScan(old(View()), p)
    {
      ArmEpisode(p.times.now);
      if RadioResetRungDead(r1.rejects) {
        r1 := r1.(inEpisode := true);
        Note(PageScanMuted);
        return true;
      }
      if !ShouldRadioReset(r1.armed, p.times.now, r1.last) { return true; }
      var (after, granted) := Breaker.Allow(r1.breaker, p.times.now);
      r1 := r1.(breaker := after);
      Note(Asked(Ladder.PageScanRung, p.times.now, granted));
      if !granted { return true; }
      go := ResetRadio(p);
    }

    method ResetRadio(p: Pass) returns (go: bool)
      modifies this
      ensures Flow(View(), go) == ScanNow(old(View()), p)
    {
      r1 := r1.(last := p.times.now, inEpisode := true);
      StampChurn(PageScan(p.times.now, p.resetOk, p.times.reset), p.times.reset);
      if p.resetOk {
        r1 := r1.(rejects := 0);
        ReconnectAt(p.times.now + R1_POST_RESET_RECONNECT_MS);
      } else {
        r1 := r1.(rejects := SatInc(r1.rejects));
      }
      go := !p.resetOk;
    }

    /** `escalation_frozen`. */
    method EscalationFrozen(p: Pass) returns (frozen: bool)
      modifies this
      ensures View() == LookAtSwitch(old(View()), p) && frozen == View().freeze.frozen
    {
      var now, file := p.times.now, p.freezeFile;
      if freeze.checked == 0 || now - freeze.checked >= FREEZE_RECHECK_MS {
        Note(FreezeRead(now, file));
        freeze := freeze.(checked := now, frozen := file);
      }
      frozen := freeze.frozen;
    }

    /** R3. */
    method EarbudRung(p: Pass) returns (go: bool)
      modifies this
      ensures Flow(View(), go) == RungEarbud(old(View()), p)
    {
      var now := p.times.now;
      var frozen := EscalationFrozen(p);
      if frozen || !ShouldEarbudRestart(r1.armed, now, r3.last, r3.restarts, r3.forceAfter) {
        return true;
      }
      var (after, granted) := Breaker.Allow(r3.breaker, now);
      r3 := r3.(breaker := after);
      Note(Asked(Ladder.EarbudRung, now, granted));
      if !granted { return true; }
      go := RestartEarbuds(p);
    }

    method RestartEarbuds(p: Pass) returns (go: bool)
      modifies this
      ensures Flow(View(), go) == RestartNow(old(View()), p)
    {
      r3 := r3.(forceAfter := 0, last := p.times.now, restarts := SatInc(r3.restarts));
      StampChurn(EarbudRestart(p.times.now, p.restartOk, p.times.restarted), p.times.restarted);
      if p.restartOk {
        ReconnectAt(p.times.restarted + R3_POST_RESTART_RECONNECT_MS);
        r3 := r3.(complete := p.times.restarted);
      }
      go := !p.restartOk;
    }

    method QueueEarbudRefresh(after: int)
      modifies this`r3
      ensures View() == old(View()).(r3 := Refresh(old(View().r3), after))
    {
      r3 := r3.(forceAfter := after + R3_POST_CYCLE_DELAY_MS, restarts := 0, last := 0);
    }

    /** R2. The kill switch was read for this very reading of the clock, so it is
        not read again (`FreezeIsReadOnce`). */
    method UsbRung(p: Pass) returns (go: bool)
      modifies this
      ensures Flow(View(), go) == RungUsb(old(View()), p)
    {
      var now := p.times.now;
      if UsbCycleRungDead(r2.fails) || freeze.frozen || PeerAbsentFreeze(connect.absent)
         || !UsbCycleLeftInEpisode(r2.last, r1.armed)
         || !ShouldUsbCycle(r1.armed, now, r1.inEpisode, r2.last)
         || !UsbCycleQuietAfterRestart(now, r3.complete) {
        return true;
      }
      var (after, granted) := Breaker.Allow(r2.breaker, now);
      r2 := r2.(breaker := after);
      Note(Asked(Ladder.UsbRung, now, granted));
      if !granted { return true; }
      if p.cycleOff {
        Note(DongleOff);
        return true;
      }
      go := CycleUsb(p);
    }

    method CycleUsb(p: Pass) returns (go: bool)
      modifies this
      ensures Flow(View(), go) == CycleNow(old(View()), p)
    {
      r2 := r2.(last := p.times.now);
      StampChurn(UsbCycle(p.times.now, p.cycleOk, p.times.cycled), p.times.cycled);
      if p.cycleOk {
        ReconnectAt(p.times.cycled + R2_POST_CYCLE_RECONNECT_MS);
        QueueEarbudRefresh(p.times.cycled);
        r2 := r2.(fails := 0, inEpisode := true);
      } else {
        r2 := r2.(fails := SatInc(r2.fails));
      }
      go := !p.cycleOk;
    }

    /** R4. */
    method HubRung(p: Pass) returns (go: bool)
      modifies this
      ensures Flow(View(), go) == RungHub(old(View()), p)
    {
      var now := p.times.now;
      if HubPortCycleRungDead(r4.fails) || freeze.frozen || PeerAbsentFreeze(connect.absent)
         || !ShouldHubPortCycle(r1.armed, now, r2.inEpisode, r4.last) {
        return true;
      }
      var (after, granted) := Breaker.Allow(r4.breaker, now);
      r4 := r4.(breaker := after);
      Note(Asked(Ladder.HubRung, now, granted));
      if !granted { return true; }
      go := CyclePort(p);
    }

    method CyclePort(p: Pass) returns (go: bool)
      modifies this
      ensures Flow(View(), go) == PortNow(old(View()), p)
    {
      r4 := r4.(last := p.times.now);
      StampChurn(HubCycle(p.times.now, p.portOk, p.times.ported), p.times.ported);
      if p.portOk {
        ReconnectAt(p.times.ported + R4_POST_CYCLE_RECONNECT_MS);
        QueueEarbudRefresh(p.times.ported);
        r4 := r4.(fails := 0);
      } else {
        r4 := r4.(fails := SatInc(r4.fails));
      }
      go := !p.portOk;
    }

    /** What the outcome of a connect pass does to the backoff. */
    method Conclude(o: ConnectFsm.Outcome, p: Pass)
      modifies this
      ensures View() == old(View()).(connect := AfterConnect(old(View().connect), o, p))
    {
      var now := p.times.now;
      match o {
        case Connected =>
          connect := connect.(fails := 0, next := 0, absent := 0);
        case Reconnecting =>
          connect := connect.(fails := 0, next := p.times.settled + CONNECT_TOGGLE_SETTLE_MS);
        case Inert => connect := connect.(next := now + CONNECT_REFUSED_RETRY_MS);
        case ServiceDebt => connect := connect.(next := now + CONNECT_REFUSED_RETRY_MS);
        case Refused => connect := connect.(next := now + CONNECT_REFUSED_RETRY_MS);
        case NotFound =>
          connect := connect.(absent := SatInc(connect.absent));
          connect := connect.(fails := SatInc(connect.fails));
          var wait := BackoffMs(connect.fails, CONNECT_BACKOFF_BASE_MS, CONNECT_BACKOFF_CAP_MS);
          connect := connect.(next := now + wait);
        case Failed =>
          connect := connect.(absent := 0);
          connect := connect.(fails := SatInc(connect.fails));
          var wait := BackoffMs(connect.fails, CONNECT_BACKOFF_BASE_MS, CONNECT_BACKOFF_CAP_MS);
          connect := connect.(next := now + wait);
      }
    }

    method TookToggle(p: Pass)
      modifies this
      ensures View() == StampToggle(old(View()), p)
    {
      toggle := toggle.(last := p.times.toggled, fails := SatInc(toggle.fails));
      StampChurn(Toggled(p.times.now, p.times.toggled), p.times.toggled);
    }

    method TookInert(p: Pass)
      modifies this
      ensures View() == StampInert(old(View()), p)
    {
      r3 := r3.(forceAfter := p.times.inertForce);
      toggle := toggle.(last := p.times.inertToggle, fails := SatInc(toggle.fails));
      StampChurn(InertStamp(p.times.inertToggle, p.times.inertForce, p.times.inertChurn), p.times.inertChurn);
    }

    /** The connect pass, with its rate-limited toggle. */
    method ConnectPass(p: Pass)
      modifies this
      ensures View() == RungConnect(old(View()), p)
    {
      var allow := MayToggle(p.times.now, toggle.last, toggle.fails);
      var res := p.Connect(allow);
      if res.toggled {
        TookToggle(p);
      }
      if res.outcome == ConnectFsm.Inert && allow && r3.forceAfter == 0 {
        TookInert(p);
      }
      Note(ConnectDone(p.times.now, res.outcome, p.times.settled));
      Conclude(res.outcome, p);
    }

    method MayConnect(p: Pass, connected: bool) returns (go: bool)
      modifies this
      ensures Flow(View(), go) == ConnectGate(old(View()), p, connected)
    {
      if connected {
        Note(StreamReread(p.times.now, p.streamingLate));
        if p.streamingLate { return false; }
      }
      if p.times.now < connect.next { return false; }
      var (after, granted) := Breaker.Allow(connect.breaker, p.times.now);
      connect := connect.(breaker := after);
      Note(Asked(ConnectRung, p.times.now, granted));
      go := granted;
    }

    method PrepareLink(p: Pass, connected: bool) returns (go: bool)
      modifies this
      ensures Flow(View(), go) == Prepare(old(View()), p, connected)
    {
      go := RepayDebt(p);
      if !go { return; }
      go := RepairRadio(p);
      if !go { return; }
      go := RequestAudio(p, connected);
      if !go { return; }
      go := PageFirst(p, connected);
    }

    method EscalateLink(p: Pass) returns (go: bool)
      modifies this
      ensures Flow(View(), go) == Escalate(old(View()), p)
    {
      go := PageScanRung(p);
      if !go { return; }
      go := EarbudRung(p);
      if !go { return; }
      go := UsbRung(p);
      if !go { return; }
      go := HubRung(p);
    }

    /** `recover_link`. */
    method RecoverLink(p: Pass, connected: bool)
      modifies this
      ensures View() == Ladder.RecoverLink(old(View()), p, connected)
    {
      BeginPass(p, connected);
      var go := PrepareLink(p, connected);
      if !go { return; }
      if !connected {
        go := EscalateLink(p);
        if !go { return; }
      }
      go := MayConnect(p, connected);
      if !go { return; }
      ConnectPass(p);
    }

    // -----------------------------------------------------------------------
    // Polls and wakes
    // -----------------------------------------------------------------------

    /** `on_connected`. */
    method OnConnected(up: int, ready: bool)
      modifies this
      ensures View() == Ladder.OnConnected(old(View()), up, ready)
    {
      if link.upSince == 0 {
        Note(LinkUp(up));
        link := link.(upSince := up);
      }
      Note(Found(ready));
      if !ready {
        link := link.(stable := 0);
        return;
      }
      connect := connect.(fails := 0, next := 0);
      toggle := toggle.(fails := 0);
      link := link.(stable := SatInc(link.stable));
      if link.stable >= LINK_STABLE_POLLS_TO_CLOSE {
        EndEpisode();
      } else if r1.armed != 0 {
        link := link.(flaps := SatInc(link.flaps));
      }
    }

    method ForgetRungs()
      modifies this
      ensures View() == ClearRungs(old(View()))
    {
      r1 := r1.(armed := 0, inEpisode := false);
      r2 := r2.(inEpisode := false);
      r3 := r3.(restarts := 0, last := 0, forceAfter := 0, complete := 0);
    }

    method ForgetOutage()
      modifies this
      ensures View() == ClearLink(old(View()))
    {
      link := link.(flaps := 0, downSince := 0);
      audio := audio.(last := 0, accepted := false);
      page := page.(last := 0);
      connect := connect.(absent := 0);
      repair := repair.(fails := 0);
    }

    method EndEpisode()
      modifies this
      ensures View() == CloseEpisode(old(View()))
    {
      Note(EpisodeClosed);
      ForgetRungs();
      ForgetOutage();
      CloseHold();
    }

    /** `on_disconnected`. */
    method OnDisconnected(watchdog: bool, p: Pass, connected: bool)
      modifies this
      ensures View() == if watchdog then Ladder.OnDisconnected(old(View()))
                        else Ladder.RecoverLink(Ladder.OnDisconnected(old(View())), p, connected)
    {
      if link.upSince != 0 {
        link := link.(upSince := 0);
      }
      Note(LinkDown);
      Note(Found(false));
      link := link.(stable := 0);
      if !watchdog {
        RecoverLink(p, connected);
      }
    }

    /** `handle_found`. */
    method HandleFound(q: Poll)
      modifies this
      ensures View() == Ladder.HandleFound(old(View()), q)
    {
      if q.connected && !(!q.watchdog && q.audioDead) {
        OnConnected(q.up, q.ready);
        if !q.watchdog && !q.readyLate {
          RecoverLink(q.pass, true);
        }
      } else {
        OnDisconnected(q.watchdog, q.pass, q.connected);
      }
    }

    method ResumeReset()
      modifies this
      ensures View() == OnResume(old(View()))
    {
      Note(Resumed);
      toggle := toggle.(last := 0, fails := 0);
      audio := audio.(last := 0, accepted := false);
      page := page.(last := 0, settleUntil := 0);
      CloseHold();
    }

    /** The device-event arm of `run`; false when the event is coalesced. */
    method DeviceEvent(now: int) returns (polls: bool)
      modifies this
      ensures polls == !Coalesced(old(View()), Device(now))
      ensures View() == OnWake(old(View()), Device(now))
    {
      if !DeviceWakeAllowed(now, wakes.last) { return false; }
      Note(Event.DeviceEvent(now));
      wakes := wakes.(last := now);
      if IsSelfEcho(now, wakes.churn) {
        // The poll still runs, the limit stands.
      } else if DeviceWakeMayUnpark(now, wakes.unpark, wakes.churn) {
        wakes := wakes.(unpark := now);
        toggle := toggle.(last := 0);
        connect := connect.(next := 0);
        page := page.(last := 0);
        Note(Unpark(now));
      }
      polls := true;
    }

    /** The loop of `run`, driven by any list of turns. */
    method Loop(turns: seq<Turn>)
      modifies this
      ensures View() == Run(old(View()), turns)
    {
      var i := 0;
      while i < |turns|
        invariant 0 <= i <= |turns|
        invariant View() == Run(old(View()), turns[..i])
      {
        var turn := turns[i];
        assert turns[..i + 1][..i] == turns[..i];
        var polls := true;
        match turn.wake {
          case Resume => ResumeReset();
          case Device(now) => polls := DeviceEvent(now);
          case Timer =>
        }
        if polls && turn.poll.Some? {
          HandleFound(turn.poll.value);
        }
        i := i + 1;
      }
      assert turns[..|turns|] == turns;
    }
  }
}
