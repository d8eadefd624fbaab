/** The recovery ladder as a transition function: `worker.rs` over the fields of
    `state.rs`, and the history of what it decided. `Worker` holds the methods that
    update those fields in place and refine these functions; `Conformance` proves
    that they obey the protocol of `Protocol`, from which the theorems about runs
    follow. */
module Ladder {
  import opened Config
  import opened Numeric
  import opened Backoff
  import opened Gates
  import opened Wrappers
  import Breaker
  import ConnectFsm

  // -------------------------------------------------------------------------
  // What a run did
  // -------------------------------------------------------------------------

  datatype Rung = PageScanRung | EarbudRung | UsbRung | HubRung | ConnectRung

  datatype PageOutcome = Attempted | Unreachable | Failed

  /** Everything the daemon decides, with the clock readings and the answers it was
      decided by. `at` is the reading with which the pass began. */
  datatype Event =
    | Resumed                              // power resume
    | DeviceEvent(at: int)                 // a device event that was not coalesced
    | Unpark(at: int)                      // ... and that cancelled the rate limits
    | LinkUp(at: int)                      // the transport came up
    | LinkDown                             // a poll that is treated as "down"
    | Found(ready: bool)                   // a poll found the device; audio ready or not
    | EpisodeClosed
    // the first half of a pass
    | Began(at: int, admin: bool, connected: bool)
    | DebtRead(at: int, unpaid: bool)      // is a driver still owed?
    | RepairPass(at: int, present: bool, repaired: bool, journal: bool)
    | Recovered(next: int, done: int)      // ... and it brought a radio back
    | StreamRead(at: int, playing: bool)   // connected: is the audio there already?
    | AudioAsked(at: int, asked: int, accepted: bool)
    | Paged(at: int, sent: int, outcome: PageOutcome)
    | Answered(over: int, socket: Option<nat>)
    | Opened(kept: nat)
    | Closed(kept: nat)
    // the rungs
    | Escalating(at: int)                  // the pass reached the hardware rungs
    | FreezeRead(at: int, frozen: bool)    // the kill switch was looked at
    | Asked(rung: Rung, at: int, granted: bool)   // a circuit breaker was consulted
    | PageScan(at: int, ok: bool, done: int)
    | PageScanMuted
    | EarbudRestart(at: int, ok: bool, done: int)
    | DongleOff                            // the dongle is marked off, no usb-cycle
    | UsbCycle(at: int, ok: bool, done: int)
    | HubCycle(at: int, ok: bool, done: int)
    // the connect pass
    | StreamReread(at: int, playing: bool)
    | Toggled(at: int, done: int)          // it removed a driver
    | InertStamp(taken: int, force: int, done: int)   // inert, it took the toggle's turn
    | ConnectDone(at: int, verdict: ConnectFsm.Outcome, settled: int)

  /** Events, newest last. */
  datatype History = Start | Then(before: History, last: Event)

  function Events(h: History): seq<Event> {
    match h
    case Start => []
    case Then(p, e) => Events(p) + [e]
  }

  // -------------------------------------------------------------------------
  // State
  // -------------------------------------------------------------------------

  datatype Wakes = Wakes(last: int, unpark: int, churn: int)
  datatype ToggleClock = ToggleClock(last: int, fails: u32)
  datatype Link = Link(upSince: int, downSince: int, stable: u32, flaps: u32)
  datatype Connect = Connect(fails: u32, next: int, absent: u32, breaker: Breaker.State)
  datatype Audio = Audio(last: int, accepted: bool)
  datatype Page = Page(last: int, settleUntil: int, held: Option<nat>)
  datatype Repair = Repair(armed: bool, last: int, fails: u32, sawAbsent: bool, sawUnelevated: bool)
  datatype R1 = R1(armed: int, last: int, inEpisode: bool, rejects: u32, breaker: Breaker.State)
  datatype R2 = R2(last: int, inEpisode: bool, fails: u32, breaker: Breaker.State)
  datatype R3 = R3(last: int, restarts: u32, forceAfter: int, complete: int, breaker: Breaker.State)
  datatype R4 = R4(last: int, fails: u32, breaker: Breaker.State)
  datatype Freeze = Freeze(frozen: bool, checked: int)

  datatype State = State(
    wakes: Wakes, toggle: ToggleClock, link: Link, connect: Connect, audio: Audio, page: Page,
    repair: Repair, r1: R1, r2: R2, r3: R3, r4: R4, freeze: Freeze, log: History)

  function FreshBreaker(rung: Rung): Breaker.State {
    match rung
    case PageScanRung => Breaker.Fresh(R1_CB_WINDOW_MS, R1_CB_MAX_RESETS, R1_CB_COOLDOWN_MS)
    case EarbudRung => Breaker.Fresh(R3_CB_WINDOW_MS, R3_CB_MAX_RESTARTS, R3_CB_COOLDOWN_MS)
    case UsbRung => Breaker.Fresh(R2_CB_WINDOW_MS, R2_CB_MAX_CYCLES, R2_CB_COOLDOWN_MS)
    case HubRung => Breaker.Fresh(R4_CB_WINDOW_MS, R4_CB_MAX_PORTCYCLES, R4_CB_COOLDOWN_MS)
    case ConnectRung => Breaker.Fresh(CONNECT_CB_WINDOW_MS, CONNECT_CB_MAX_EVENTS, CONNECT_CB_COOLDOWN_MS)
  }

  /** `SharedState::new`. */
  function Initial(): State {
    State(
      Wakes(0, 0, 0), ToggleClock(0, 0), Link(0, 0, 0, 0), Connect(0, 0, 0, FreshBreaker(ConnectRung)),
      Audio(0, false), Page(0, 0, None), Repair(false, 0, 0, false, false),
      R1(0, 0, false, 0, FreshBreaker(PageScanRung)), R2(0, false, 0, FreshBreaker(UsbRung)),
      R3(0, 0, 0, 0, FreshBreaker(EarbudRung)), R4(0, 0, FreshBreaker(HubRung)), Freeze(false, 0), Start)
  }

  function Log(s: State, e: Event): State {
    s.(log := Then(s.log, e))
  }

  /** Something of ours that rewrote the device tree, finished at `done`. */
  function Churned(s: State, e: Event, done: int): State {
    Log(s, e).(wakes := s.wakes.(churn := done))
  }

  // -------------------------------------------------------------------------
  // What the outside world answers
  // -------------------------------------------------------------------------

  /** The clock readings of one pass, in the order in which they are taken. */
  datatype Times = Times(
    now: int, repaired: int, repairedNext: int, audio: int, page: int, paged: int, reset: int,
    restarted: int, cycled: int, ported: int, toggled: int, settled: int,
    inertForce: int, inertToggle: int, inertChurn: int)

  /** One pass of `recover_link` as the outside world plays it. */
  datatype Pass = Pass(
    times: Times, admin: bool, debtUnpaid: bool,
    repaired: bool, present: nat, journalAfter: bool,
    streaming: bool, audioAccepted: bool,
    pageOutcome: PageOutcome, pageHeld: Option<nat>,
    resetOk: bool, freezeFile: bool, restartOk: bool, cycleOff: bool, cycleOk: bool, portOk: bool,
    streamingLate: bool, toggling: ConnectFsm.ConnectResult, plain: ConnectFsm.ConnectResult)
  {
    /** What `connect` answers, given whether it may toggle. */
    function Connect(allow: bool): ConnectFsm.ConnectResult {
      if allow then toggling else plain
    }
  }

  /** The end of a rung: carry on down the ladder, or this pass is over. */
  datatype Flow = Flow(s: State, go: bool)

  // -------------------------------------------------------------------------
  // recover_link, rung by rung
  // -------------------------------------------------------------------------

  function Begin(s: State, p: Pass, connected: bool): State {
    var now := p.times.now;
    var s := Log(s, Began(now, p.admin, connected));
    var s := if s.link.downSince == 0 then s.(link := s.link.(downSince := now)) else s;
    if !p.admin then s.(repair := s.repair.(sawUnelevated := true))
    else if s.repair.sawUnelevated then s.(repair := s.repair.(sawUnelevated := false, fails := 0))
    else s
  }

  /** Rung -1: an unpaid driver debt ends the pass. */
  function RungDebt(s: State, p: Pass): Flow {
    var s := Log(s, DebtRead(p.times.now, p.debtUnpaid));
    if p.debtUnpaid then
      Flow(s.(connect := s.connect.(next := p.times.now + CONNECT_REFUSED_RETRY_MS)), false)
    else Flow(s, true)
  }

  function AfterRepair(r: Repair, p: Pass): Repair {
    var r := r.(last := p.times.now, armed := p.journalAfter);
    var r := if p.present == 0 then r.(sawAbsent := true)
             else if r.sawAbsent then r.(sawAbsent := false, fails := 0)
             else r;
    if p.repaired || !p.journalAfter then r.(fails := 0) else r.(fails := SatInc(r.fails))
  }

  function Repaired(s: State, p: Pass): State {
    Churned(s, Recovered(p.times.repairedNext, p.times.repaired), p.times.repaired)
    .(connect := s.connect.(fails := 0, next := p.times.repairedNext + R2_POST_CYCLE_RECONNECT_MS, absent := 0))
  }

  /** Rung 0: repair before escalating. */
  function RungRepair(s: State, p: Pass): Flow {
    var due := ShouldRetryRecovery(p.times.now, s.repair.last, RecoveryDelay(s.repair.fails));
    var s := if due then
               Log(s, RepairPass(p.times.now, p.present > 0, p.repaired, p.journalAfter))
               .(repair := AfterRepair(s.repair, p))
             else s;
    if due && p.repaired then Flow(Repaired(s, p), false) else Flow(s, !s.repair.armed)
  }

  /** The native audio request, and the gates that leave a settling link alone. */
  function RungAudio(s: State, p: Pass, connected: bool): Flow {
    var s := if connected then Log(s, StreamRead(p.times.now, p.streaming)) else s;
    if connected && p.streaming then Flow(s, false)
    else
      var s := if AudioDue(p.times.now, s.audio.last) then
                 Log(s, AudioAsked(p.times.now, p.times.audio, p.audioAccepted))
                 .(audio := Audio(p.times.audio, p.audioAccepted))
               else s;
      Flow(s, !s.audio.accepted
              && !(connected && p.times.now - s.link.upSince < AUDIO_READY_GRACE_MS)
              && !PageSettling(p.times.now, s.page.settleUntil))
  }

  /** The old hold is closed only after the new socket exists. */
  function ReplaceHold(s: State, socket: nat): State {
    var both := Log(s, Opened(socket));
    var s := if s.page.held.Some? then Log(both, Closed(s.page.held.value)) else both;
    s.(page := s.page.(held := Some(socket)))
  }

  /** A page that went out is left to settle. */
  function Attempt(s: State, p: Pass): State {
    var s := Log(s, Answered(p.times.paged, p.pageHeld));
    var s := if p.pageHeld.Some? then ReplaceHold(s, p.pageHeld.value) else s;
    var until := p.times.paged + PAGE_SETTLE_MS;
    s.(page := s.page.(settleUntil := until), connect := s.connect.(next := until))
  }

  /** Page first: an attempted page ends the pass. */
  function RungPage(s: State, p: Pass, connected: bool): Flow {
    if connected || !ShouldPage(p.times.now, s.link.downSince, s.page.last) then Flow(s, true)
    else
      var s := Log(s, Paged(p.times.now, p.times.page, p.pageOutcome)).(page := s.page.(last := p.times.page));
      if p.pageOutcome != Attempted then Flow(s, true) else Flow(Attempt(s, p), false)
  }

  /** Arming the episode, and the flap storm that forces the first rung. */
  function Arm(s: State, now: int): State {
    var armed := if s.r1.armed == 0 then now else s.r1.armed;
    var armed := if s.link.flaps >= FLAP_FORCE_R1_AFTER && armed > now - R1_ARM_MS then now - R1_ARM_MS else armed;
    Log(s, Escalating(now)).(r1 := s.r1.(armed := armed))
  }

  /** A breaker is consulted only when the gate before it is open. */
  function Ask(b: Breaker.State, due: bool, now: int): (Breaker.State, bool) {
    if due then Breaker.Allow(b, now) else (b, false)
  }

  function LogAsked(s: State, rung: Rung, due: bool, now: int, granted: bool): State {
    if due then Log(s, Asked(rung, now, granted)) else s
  }

  function ScanNow(s: State, p: Pass): Flow {
    var now := p.times.now;
    var s := Churned(s, PageScan(now, p.resetOk, p.times.reset), p.times.reset);
    if p.resetOk then
      Flow(s.(r1 := s.r1.(last := now, inEpisode := true, rejects := 0),
              connect := s.connect.(fails := 0, next := now + R1_POST_RESET_RECONNECT_MS)), false)
    else
      Flow(s.(r1 := s.r1.(last := now, inEpisode := true, rejects := SatInc(s.r1.rejects))), true)
  }

  /** R1: page-scan toggle. */
  function RungPageScan(s: State, p: Pass): Flow {
    var now := p.times.now;
    var s := Arm(s, now);
    if RadioResetRungDead(s.r1.rejects) then
      Flow(Log(s.(r1 := s.r1.(inEpisode := true)), PageScanMuted), true)
    else
      var due := ShouldRadioReset(s.r1.armed, now, s.r1.last);
      var (b, granted) := Ask(s.r1.breaker, due, now);
      var s := LogAsked(s.(r1 := s.r1.(breaker := b)), PageScanRung, due, now, granted);
      if !granted then Flow(s, true) else ScanNow(s, p)
  }

  /** `escalation_frozen`: the kill switch, re-read at most every 15 s. */
  predicate FreezeStale(f: Freeze, now: int) {
    f.checked == 0 || now - f.checked >= FREEZE_RECHECK_MS
  }

  function Refreeze(f: Freeze, now: int, file: bool): Freeze {
    if FreezeStale(f, now) then Freeze(file, now) else f
  }

  function LookAtSwitch(s: State, p: Pass): State {
    var now := p.times.now;
    (if FreezeStale(s.freeze, now) then Log(s, FreezeRead(now, p.freezeFile)) else s)
    .(freeze := Refreeze(s.freeze, now, p.freezeFile))
  }

  /** Within one pass the switch is read at most once: later rungs see the answer
      of the first, whatever the file says by then. */
  lemma FreezeIsReadOnce(f: Freeze, now: int, file: bool, later: bool)
    requires now != 0
    ensures Refreeze(Refreeze(f, now, file), now, later) == Refreeze(f, now, file)
  {
  }

  function RestartNow(s: State, p: Pass): Flow {
    var after := p.times.restarted;
    var s := Churned(s, EarbudRestart(p.times.now, p.restartOk, after), after)
             .(r3 := s.r3.(forceAfter := 0, last := p.times.now, restarts := SatInc(s.r3.restarts)));
    if p.restartOk then
      Flow(s.(r3 := s.r3.(complete := after),
              connect := s.connect.(fails := 0, next := after + R3_POST_RESTART_RECONNECT_MS)), false)
    else Flow(s, true)
  }

  /** R3: earbud devnode restart. */
  function RungEarbud(s: State, p: Pass): Flow {
    var now := p.times.now;
    var s := LookAtSwitch(s, p);
    var due := !s.freeze.frozen
               && ShouldEarbudRestart(s.r1.armed, now, s.r3.last, s.r3.restarts, s.r3.forceAfter);
    var (b, granted) := Ask(s.r3.breaker, due, now);
    var s := LogAsked(s.(r3 := s.r3.(breaker := b)), EarbudRung, due, now, granted);
    if !granted then Flow(s, true) else RestartNow(s, p)
  }

  predicate UsbDue(s: State, now: int) {
    !UsbCycleRungDead(s.r2.fails) && !s.freeze.frozen && !PeerAbsentFreeze(s.connect.absent)
    && UsbCycleLeftInEpisode(s.r2.last, s.r1.armed)
    && ShouldUsbCycle(s.r1.armed, now, s.r1.inEpisode, s.r2.last)
    && UsbCycleQuietAfterRestart(now, s.r3.complete)
  }

  /** After a cycle that brought the radio back, the earbud rung gets a fresh,
      delayed chance. */
  function Refresh(r: R3, after: int): R3 {
    r.(forceAfter := after + R3_POST_CYCLE_DELAY_MS, restarts := 0, last := 0)
  }

  function CycleNow(s: State, p: Pass): Flow {
    var now, after := p.times.now, p.times.cycled;
    var s := Churned(s, UsbCycle(now, p.cycleOk, after), after);
    if p.cycleOk then
      Flow(s.(r2 := s.r2.(last := now, fails := 0, inEpisode := true), r3 := Refresh(s.r3, after),
              connect := s.connect.(fails := 0, next := after + R2_POST_CYCLE_RECONNECT_MS)), false)
    else
      Flow(s.(r2 := s.r2.(last := now, fails := SatInc(s.r2.fails))), true)
  }

  /** R2: usb-cycle. The breaker is spent even when the dongle is marked off. */
  function RungUsb(s: State, p: Pass): Flow {
    var now := p.times.now;
    var due := UsbDue(s, now);
    var (b, granted) := Ask(s.r2.breaker, due, now);
    var s := LogAsked(s.(r2 := s.r2.(breaker := b)), UsbRung, due, now, granted);
    if !granted then Flow(s, true) else if p.cycleOff then Flow(Log(s, DongleOff), true) else CycleNow(s, p)
  }

  predicate HubDue(s: State, now: int) {
    !HubPortCycleRungDead(s.r4.fails) && !s.freeze.frozen && !PeerAbsentFreeze(s.connect.absent)
    && ShouldHubPortCycle(s.r1.armed, now, s.r2.inEpisode, s.r4.last)
  }

  function PortNow(s: State, p: Pass): Flow {
    var now, after := p.times.now, p.times.ported;
    var s := Churned(s, HubCycle(now, p.portOk, after), after);
    if p.portOk then
      Flow(s.(r4 := s.r4.(last := now, fails := 0), r3 := Refresh(s.r3, after),
              connect := s.connect.(fails := 0, next := after + R4_POST_CYCLE_RECONNECT_MS)), false)
    else
      Flow(s.(r4 := s.r4.(last := now, fails := SatInc(s.r4.fails))), true)
  }

  /** R4: hub port power-cycle. */
  function RungHub(s: State, p: Pass): Flow {
    var now := p.times.now;
    var due := HubDue(s, now);
    var (b, granted) := Ask(s.r4.breaker, due, now);
    var s := LogAsked(s.(r4 := s.r4.(breaker := b)), HubRung, due, now, granted);
    if !granted then Flow(s, true) else PortNow(s, p)
  }

  /** The four hardware rungs, softest first. */
  function Escalate(s: State, p: Pass): Flow {
    var r1 := RungPageScan(s, p);
    if !r1.go then r1 else
    var r3 := RungEarbud(r1.s, p);
    if !r3.go then r3 else
    var r2 := RungUsb(r3.s, p);
    if !r2.go then r2 else RungHub(r2.s, p)
  }

  function AskConnect(s: State, p: Pass, due: bool): Flow {
    var (b, granted) := Ask(s.connect.breaker, due, p.times.now);
    Flow(LogAsked(s.(connect := s.connect.(breaker := b)), ConnectRung, due, p.times.now, granted), granted)
  }

  /** Is a connect pass due, and does the storm breaker let it through? */
  function ConnectGate(s: State, p: Pass, connected: bool): Flow {
    var heard := if connected then Log(s, StreamReread(p.times.now, p.streamingLate)) else s;
    if connected && p.streamingLate then Flow(heard, false)
    else AskConnect(heard, p, p.times.now >= heard.connect.next)
  }

  function StampToggle(s: State, p: Pass): State {
    var after := p.times.toggled;
    Churned(s, Toggled(p.times.now, after), after).(toggle := ToggleClock(after, SatInc(s.toggle.fails)))
  }

  /** An inert stack queues the earbud restart and takes the toggle's turn. */
  function StampInert(s: State, p: Pass): State {
    Churned(s, InertStamp(p.times.inertToggle, p.times.inertForce, p.times.inertChurn), p.times.inertChurn)
    .(r3 := s.r3.(forceAfter := p.times.inertForce),
      toggle := ToggleClock(p.times.inertToggle, SatInc(s.toggle.fails)))
  }

  /** What the connect outcome does to the backoff. */
  function AfterConnect(c: Connect, o: ConnectFsm.Outcome, p: Pass): Connect {
    var now := p.times.now;
    match o
    case Connected => c.(fails := 0, next := 0, absent := 0)
    case Reconnecting => c.(fails := 0, next := p.times.settled + CONNECT_TOGGLE_SETTLE_MS)
    case Inert => c.(next := now + CONNECT_REFUSED_RETRY_MS)
    case ServiceDebt => c.(next := now + CONNECT_REFUSED_RETRY_MS)
    case Refused => c.(next := now + CONNECT_REFUSED_RETRY_MS)
    case NotFound =>
      c.(absent := SatInc(c.absent), fails := SatInc(c.fails), next := now + ConnectBackoff(SatInc(c.fails)))
    case Failed => c.(absent := 0, fails := SatInc(c.fails), next := now + ConnectBackoff(SatInc(c.fails)))
  }

  /** The connect pass itself. */
  function RungConnect(s: State, p: Pass): State {
    var allow := ShouldToggle(p.times.now, s.toggle.last, s.toggle.fails);
    var res := p.Connect(allow);
    var s := if res.toggled then StampToggle(s, p) else s;
    var s := if res.outcome == ConnectFsm.Inert && allow && s.r3.forceAfter == 0 then StampInert(s, p) else s;
    Log(s, ConnectDone(p.times.now, res.outcome, p.times.settled))
    .(connect := AfterConnect(s.connect, res.outcome, p))
  }

  /** The first half of `recover_link`: repairs, and the gates that leave a
      healthy or settling link alone. */
  function Prepare(s: State, p: Pass, connected: bool): Flow {
    var debt := RungDebt(s, p);
    if !debt.go then debt else
    var repair := RungRepair(debt.s, p);
    if !repair.go then repair else
    var audio := RungAudio(repair.s, p, connected);
    if !audio.go then audio else RungPage(audio.s, p, connected)
  }

  function RecoverFrom(s: State, p: Pass, connected: bool): State {
    var ready := Prepare(s, p, connected);
    if !ready.go then ready.s else
    var rungs := if connected then Flow(ready.s, true) else Escalate(ready.s, p);
    if !rungs.go then rungs.s else
    var gate := ConnectGate(rungs.s, p, connected);
    if !gate.go then gate.s else RungConnect(gate.s, p)
  }

  /** `recover_link`. */
  function RecoverLink(s: State, p: Pass, connected: bool): State {
    RecoverFrom(Begin(s, p, connected), p, connected)
  }

  // -------------------------------------------------------------------------
  // Polls and wakes
  // -------------------------------------------------------------------------

  function ReleaseHold(s: State): State {
    if s.page.held.None? then s
    else Log(s, Closed(s.page.held.value)).(page := s.page.(held := None))
  }

  function ClearRungs(s: State): State {
    s.(r1 := s.r1.(armed := 0, inEpisode := false), r2 := s.r2.(inEpisode := false),
       r3 := s.r3.(restarts := 0, last := 0, forceAfter := 0, complete := 0))
  }

  function ClearLink(s: State): State {
    s.(link := s.link.(flaps := 0, downSince := 0), audio := Audio(0, false), page := s.page.(last := 0),
       connect := s.connect.(absent := 0), repair := s.repair.(fails := 0))
  }

  /** Three ready polls in a row close the episode. */
  function CloseEpisode(s: State): State {
    ReleaseHold(ClearLink(ClearRungs(Log(s, EpisodeClosed))))
  }

  /** `on_connected` up to the decision whether to close the episode; `up` is the
      clock, `ready` whether the target streams. */
  function Count(s: State, up: int, ready: bool): (State, bool) {
    var s := if s.link.upSince == 0 then Log(s, LinkUp(up)).(link := s.link.(upSince := up)) else s;
    var s := Log(s, Found(ready));
    if !ready then (s.(link := s.link.(stable := 0)), false)
    else
      var stable := SatInc(s.link.stable);
      (s.(link := s.link.(stable := stable), connect := s.connect.(fails := 0, next := 0),
          toggle := s.toggle.(fails := 0)),
       stable >= LINK_STABLE_POLLS_TO_CLOSE)
  }

  /** `on_connected`: a ready poll that does not close an armed episode is a flap. */
  function OnConnected(s: State, up: int, ready: bool): State {
    var (s, closes) := Count(s, up, ready);
    if closes then CloseEpisode(s)
    else if ready && s.r1.armed != 0 then s.(link := s.link.(flaps := SatInc(s.link.flaps)))
    else s
  }

  /** `on_disconnected`, up to its call of `recover_link`. */
  function OnDisconnected(s: State): State {
    Log(Log(s, LinkDown), Found(false)).(link := s.link.(upSince := 0, stable := 0))
  }

  /** A poll that found the device. `audioDead` is the render-session sensor,
      `ready` and `readyLate` two readings of the same flag. */
  datatype Poll = Poll(
    connected: bool, watchdog: bool, audioDead: bool, up: int, ready: bool, readyLate: bool, pass: Pass)

  /** `handle_found`. */
  function HandleFound(s: State, q: Poll): State {
    if q.connected && !(q.audioDead && !q.watchdog) then
      var s := OnConnected(s, q.up, q.ready);
      if !q.watchdog && !q.readyLate then RecoverLink(s, q.pass, true) else s
    else
      var s := OnDisconnected(s);
      if q.watchdog then s else RecoverLink(s, q.pass, q.connected)
  }

  datatype Wake = Timer | Resume | Device(now: int)

  /** A resume is a fresh start; sockets do not survive sleep. */
  function OnResume(s: State): State {
    ReleaseHold(Log(s, Resumed)
    .(toggle := ToggleClock(0, 0), audio := Audio(0, false), page := s.page.(last := 0, settleUntil := 0)))
  }

  /** A device event that is neither coalesced, nor our own echo, nor too soon
      after the last unpark cancels the rate limits. */
  function OnDevice(s: State, now: int): State {
    var w := s.wakes.(last := now);
    var s := Log(s, DeviceEvent(now));
    if DeviceWakeMayUnpark(now, w.unpark, w.churn) then
      Log(s, Unpark(now))
      .(wakes := w.(unpark := now), toggle := s.toggle.(last := 0), connect := s.connect.(next := 0),
        page := s.page.(last := 0))
    else s.(wakes := w)
  }

  predicate Coalesced(s: State, w: Wake) {
    w.Device? && !DeviceWakeAllowed(w.now, s.wakes.last)
  }

  function OnWake(s: State, w: Wake): State {
    match w
    case Timer => s
    case Resume => OnResume(s)
    case Device(now) => if Coalesced(s, w) then s else OnDevice(s, now)
  }

  /** One turn of the loop in `run`. `poll` is `None` when no radio knows the
      device; a coalesced device event does not poll at all. */
  datatype Turn = Turn(wake: Wake, poll: Option<Poll>)

  function Step(s: State, t: Turn): State {
    var woken := OnWake(s, t.wake);
    if Coalesced(s, t.wake) || t.poll.None? then woken else HandleFound(woken, t.poll.value)
  }

  function Run(s: State, turns: seq<Turn>): State {
    if turns == [] then s else Step(Run(s, turns[..|turns| - 1]), turns[|turns| - 1])
  }
}
