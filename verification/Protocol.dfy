/** The daemon as a protocol: which event may, and which must, come next after a
    history. The conditions are comparisons of clock readings and counters taken
    from `Replay`; nothing here follows the passes of `Ladder`. The theorem is that
    every run of the ladder obeys it and that the fields are the replayed ones, so
    that the other modules can argue about histories alone. */
module Protocol {
  import opened Config
  import opened Numeric
  import opened Backoff
  import opened Gates
  import opened Ladder
  import opened Runs
  import opened Replay
  import opened Wrappers
  import Breaker
  import ConnectFsm

  // -------------------------------------------------------------------------
  // The protocol
  // -------------------------------------------------------------------------

  /** Where the daemon is after an event. The stages from `Repairing` to
      `Connecting` are gates: a closed one is passed without an event. */
  datatype Stage =
    | Idle
    | Unparking(at: int)
    | Dropping(kept: nat)
    | Counting(up: bool)
    | Closing
    | Checking
    | Repairing | Mending | Blocking
    | Listening | Asking | Waiting | Paging
    | Answering | Opening(kept: nat)
    | Arming | Scanning | Freezing | Restarting | Cycling | Porting
    | Rehearing | Connecting
    | Acting(rung: Rung)
    | Concluding(toggled: bool)

  /** Far from our own churn and from the last unpark. */
  predicate Unparks(w: Wakes, at: int) {
    !(0 != w.churn <= at < w.churn + SELF_CHURN_ECHO_MS)
    && !(0 != w.unpark <= at < w.unpark + DEVICE_WAKE_UNPARK_MS)
  }

  function Below(rung: Rung): Stage {
    match rung
    case PageScanRung => Freezing
    case EarbudRung => Cycling
    case UsbRung => Porting
    case HubRung => Rehearing
    case ConnectRung => Idle
  }

  function Dropped(held: Option<nat>): Stage {
    if held.Some? then Dropping(held.value) else Idle
  }

  // The stage behind event `e`, which led from `s` to `next`.
  function Behind(s: State, e: Event, next: State): Stage {
    match e
    case Resumed => Dropped(next.page.held)
    case DeviceEvent(at) => if Unparks(next.wakes, at) then Unparking(at) else Idle
    case LinkUp(_) => Counting(true)
    case LinkDown => Counting(false)
    case Found(ready) => if ready && next.link.stable >= LINK_STABLE_POLLS_TO_CLOSE then Closing else Idle
    case EpisodeClosed => Dropped(next.page.held)
    case Began(_, _, _) => Checking
    case DebtRead(_, unpaid) => if unpaid then Idle else Repairing
    case RepairPass(_, _, repaired, _) => if repaired then Mending else Blocking
    case StreamRead(_, playing) => if playing then Idle else Asking
    case AudioAsked(_, _, _) => Waiting
    case Paged(_, _, outcome) => if outcome.Attempted? then Answering else Arming
    case Answered(_, socket) => if socket.Some? then Opening(socket.value) else Idle
    case Opened(_) => Dropped(s.page.held)
    case Escalating(_) => Scanning
    case FreezeRead(_, _) => Restarting
    case Asked(rung, _, granted) => if granted then Acting(rung) else Below(rung)
    case PageScanMuted => Freezing
    case DongleOff => Porting
    case PageScan(_, ok, _) => if ok then Idle else Freezing
    case EarbudRestart(_, ok, _) => if ok then Idle else Cycling
    case UsbCycle(_, ok, _) => if ok then Idle else Porting
    case HubCycle(_, ok, _) => if ok then Idle else Rehearing
    case StreamReread(_, playing) => if playing then Idle else Connecting
    case Toggled(_, _) => Concluding(true)
    case InertStamp(_, _, _) => Concluding(false)
    case _ => Idle
  }

  function StageOf(h: History): Stage {
    match h
    case Start => Idle
    case Then(p, e) => Behind(StateOf(p), e, StateOf(h))
  }

  // The gates, in the clock readings and counters that open them.

  predicate RepairDue(r: Repair, now: int) {
    !(0 != r.last <= now < r.last + RecoveryDelay(r.fails))
  }

  predicate PageDue(s: State, now: int) {
    s.link.downSince != 0 && s.link.downSince + PAGE_MIN_DOWN_MS <= now
    && (s.page.last != 0 ==> s.page.last + PAGE_CADENCE_MS <= now)
  }

  predicate ScanDue(s: State, now: int) {
    s.r1.armed != 0 && s.r1.armed + R1_ARM_MS <= now && (s.r1.last != 0 ==> s.r1.last + R1_COOLDOWN_MS <= now)
  }

  predicate RestartDue(s: State, now: int) {
    !s.freeze.frozen && s.r1.armed != 0
    && if s.r3.forceAfter != 0 then s.r3.forceAfter <= now
       else s.r1.armed + R3_ARM_MS <= now && s.r3.restarts < R3_MAX_PER_EPISODE
            && (s.r3.last != 0 ==> s.r3.last + R3_MIN_INTERVAL_MS <= now)
  }

  predicate CycleDue(s: State, now: int) {
    !s.freeze.frozen && s.connect.absent < PEER_ABSENT_FREEZE_AFTER && s.r2.fails < R2_DEAD_FAILURES
    && s.r1.armed != 0 && s.r1.armed + R2_ARM_MS <= now && s.r1.inEpisode
    && s.r2.last < s.r1.armed && (s.r2.last != 0 ==> s.r2.last + R2_MIN_INTERVAL_MS <= now)
    && (s.r3.complete != 0 ==> s.r3.complete + R2_POST_R3_QUIET_MS <= now)
  }

  predicate PortDue(s: State, now: int) {
    !s.freeze.frozen && s.connect.absent < PEER_ABSENT_FREEZE_AFTER && s.r4.fails < R4_DEAD_FAILURES
    && s.r1.armed != 0 && s.r1.armed + R4_ARM_MS <= now && s.r2.inEpisode
    && (s.r4.last != 0 ==> s.r4.last + R4_MIN_INTERVAL_MS <= now)
  }

  predicate ToggleDue(s: State, now: int) {
    !(0 != s.toggle.last <= now < s.toggle.last + ToggleInterval(s.toggle.fails))
  }

  /** Is the gate open, and something owed at this stage? */
  predicate Open(s: State, p: PassAt, stage: Stage) {
    match stage
    case Repairing => RepairDue(s.repair, p.now)
    case Blocking => false
    case Listening => p.connected
    case Asking => s.audio.last != 0 ==> s.audio.last + AUDIO_CONNECT_CADENCE_MS <= p.now
    case Waiting => false
    case Paging => !p.connected && PageDue(s, p.now)
    case Arming => !p.connected
    case Scanning => s.r1.rejects >= R1_DEAD_REJECTIONS || ScanDue(s, p.now)
    case Freezing => s.freeze.checked == 0 || s.freeze.checked + FREEZE_RECHECK_MS <= p.now
    case Restarting => RestartDue(s, p.now)
    case Cycling => CycleDue(s, p.now)
    case Porting => PortDue(s, p.now)
    case Rehearing => p.connected
    case Connecting => s.connect.next <= p.now
    case _ => true
  }

  /** Where a closed gate leads. */
  function Past(s: State, p: PassAt, stage: Stage): Stage {
    match stage
    case Repairing => Blocking
    case Blocking => if s.repair.armed then Idle else Listening
    case Listening => Asking
    case Asking => Waiting
    case Waiting =>
      if s.audio.accepted || (p.connected && p.now < s.link.upSince + AUDIO_READY_GRACE_MS)
         || (s.page.settleUntil != 0 && p.now < s.page.settleUntil)
      then Idle else Paging
    case Paging => Arming
    case Arming => Rehearing
    case Scanning => Freezing
    case Freezing => Restarting
    case Restarting => Cycling
    case Cycling => Porting
    case Porting => Rehearing
    case Rehearing => Connecting
    case _ => Idle
  }

  function Height(stage: Stage): nat {
    match stage
    case Repairing => 14
    case Blocking => 13
    case Listening => 12
    case Asking => 11
    case Waiting => 10
    case Paging => 9
    case Arming => 8
    case Scanning => 7
    case Freezing => 6
    case Restarting => 5
    case Cycling => 4
    case Porting => 3
    case Rehearing => 2
    case Connecting => 1
    case _ => 0
  }

  /** The first open gate from `stage` on. */
  function Settle(s: State, p: PassAt, stage: Stage): Stage
    decreases Height(stage)
  {
    if Open(s, p, stage) then stage else Settle(s, p, Past(s, p, stage))
  }

  /** A breaker is asked with the reading of the pass, and its answer is obeyed. */
  predicate Question(s: State, e: Event, rung: Rung, now: int) {
    e == Asked(rung, now, Breaker.Allow(BreakerOf(s, rung), now).1)
  }

  /** What a granted question allows. */
  predicate Licensed(rung: Rung, s: State, e: Event, now: int) {
    match rung
    case PageScanRung => e.PageScan? && e.at == now
    case EarbudRung => e.EarbudRestart? && e.at == now
    case UsbRung => e.DongleOff? || (e.UsbCycle? && e.at == now)
    case HubRung => e.HubCycle? && e.at == now
    case ConnectRung =>
      (e.Toggled? && e.at == now && ToggleDue(s, now))
      || (e.InertStamp? && ToggleDue(s, now) && s.r3.forceAfter == 0 && Clock(s.log) <= e.force <= e.taken <= e.done)
      || (e.ConnectDone? && e.at == now && !e.verdict.Reconnecting? && !e.verdict.ServiceDebt?
          && (e.verdict.Inert? ==> ToggleDue(s, now) && s.r3.forceAfter != 0))
  }

  /** A pass begins behind a poll that found the device; on a transport that is not
      connected only behind one that was treated as "down". */
  predicate MayBegin(h: History, connected: bool) {
    h.Then? && (h.last.Found? || h.last.EpisodeClosed? || h.last.Closed?)
    && (!connected ==> h.last == Found(false) && StateOf(h).link.upSince == 0)
  }

  // What may happen between the passes.
  predicate LegalWake(h: History, s: State, e: Event) {
    match e
    case Resumed => true
    case DeviceEvent(at) => !(0 != s.wakes.last <= at < s.wakes.last + DEVICE_EVENT_DEBOUNCE_MS)
    case LinkUp(_) => s.link.upSince == 0
    case LinkDown => true
    case Found(_) => s.link.upSince != 0
    case Began(_, _, connected) => MayBegin(h, connected)
    case _ => false
  }

  /** May `e` come next at the open gate `stage`? */
  predicate LegalAt(h: History, s: State, now: int, stage: Stage, e: Event) {
    match stage
    case Idle => LegalWake(h, s, e)
    case Unparking(at) => e == Unpark(at)
    case Dropping(kept) => e == Closed(kept)
    case Counting(up) => e.Found? && (e.ready ==> up)
    case Closing => e.EpisodeClosed?
    case Checking => e.DebtRead? && e.at == now
    case Repairing => e.RepairPass? && e.at == now
    case Mending => e.Recovered? && Clock(h) <= e.done <= e.next
    case Listening => e.StreamRead? && e.at == now
    case Asking => e.AudioAsked? && e.at == now
    case Paging => e.Paged? && e.at == now
    case Answering => e.Answered? && (e.socket.Some? ==> e.socket != s.page.held)
    case Opening(kept) => e == Opened(kept)
    case Arming => e == Escalating(now)
    case Scanning =>
      if s.r1.rejects >= R1_DEAD_REJECTIONS then e.PageScanMuted? else Question(s, e, PageScanRung, now)
    case Freezing => e.FreezeRead? && e.at == now
    case Restarting => Question(s, e, EarbudRung, now)
    case Cycling => Question(s, e, UsbRung, now)
    case Porting => Question(s, e, HubRung, now)
    case Rehearing => e.StreamReread? && e.at == now
    case Connecting => Question(s, e, ConnectRung, now)
    case Acting(rung) => Licensed(rung, s, e, now)
    case Concluding(toggled) =>
      e.ConnectDone? && e.at == now
      && if toggled then e.verdict.Reconnecting? || e.verdict.ServiceDebt? else e.verdict.Inert?
    case _ => false
  }

  /** Where the daemon stands after `h`. */
  function Now(h: History): Stage {
    Settle(StateOf(h), PassOf(h), StageOf(h))
  }

  /** May `e` come next after `h`? Clock readings never go back. */
  predicate Legal(h: History, e: Event) {
    LegalAt(h, StateOf(h), PassOf(h).now, Now(h), e)
    && (Reading(e).Some? ==> Clock(h) <= Reading(e).value)
  }

  /** `h` continues `g` legally, with readings from `start` on. */
  predicate Extends(g: History, h: History, start: int) {
    h == g
    || (h.Then? && Extends(g, h.before, start) && Legal(h.before, h.last)
        && (Reading(h.last).Some? ==> 1 <= start <= Reading(h.last).value))
  }

  predicate Lawful(h: History) {
    Extends(Start, h, 1)
  }

  // -------------------------------------------------------------------------
  // What the outside world has answered
  // -------------------------------------------------------------------------

  /** Event `e`, at stage `x` of a pass in state `s`, shows the readings and the
      answers of the pass. */
  predicate Told(p: Pass, connected: bool, s: State, x: Stage, e: Event) {
    match e
    case Began(at, admin, c) => at == p.times.now && admin == p.admin && c == connected
    case DebtRead(_, unpaid) => unpaid == p.debtUnpaid
    case RepairPass(_, present, repaired, journal) =>
      present == (p.present > 0) && repaired == p.repaired && journal == p.journalAfter
    case Recovered(next, done) => next == p.times.repairedNext && done == p.times.repaired
    case StreamRead(_, playing) => connected && playing == p.streaming
    case AudioAsked(_, asked, accepted) => asked == p.times.audio && accepted == p.audioAccepted
    case Paged(_, sent, outcome) => !connected && sent == p.times.page && outcome == p.pageOutcome
    case Answered(over, socket) => !connected && over == p.times.paged && socket == p.pageHeld
    case FreezeRead(_, frozen) => !connected && frozen == p.freezeFile
    case PageScan(_, ok, done) => !connected && ok == p.resetOk && done == p.times.reset
    case EarbudRestart(_, ok, done) => !connected && ok == p.restartOk && done == p.times.restarted
    case DongleOff => !connected && p.cycleOff
    case UsbCycle(_, ok, done) => !connected && !p.cycleOff && ok == p.cycleOk && done == p.times.cycled
    case HubCycle(_, ok, done) => !connected && ok == p.portOk && done == p.times.ported
    case StreamReread(_, playing) => connected && playing == p.streamingLate
    case Toggled(_, done) => p.toggling.toggled && done == p.times.toggled
    case InertStamp(taken, force, done) =>
      p.toggling.outcome.Inert? && taken == p.times.inertToggle && force == p.times.inertForce
      && done == p.times.inertChurn
    case ConnectDone(_, verdict, settled) =>
      settled == p.times.settled
      && verdict == (if x.Concluding? then p.toggling else p.Connect(ToggleDue(s, p.times.now))).outcome
    case Opened(_) => !connected
    case Closed(_) => !connected
    case Escalating(_) => !connected
    case PageScanMuted => !connected
    case Asked(rung, _, _) => connected ==> rung.ConnectRung?
    case _ => false
  }

  // -------------------------------------------------------------------------
  // What is known of a legal event
  // -------------------------------------------------------------------------

  lemma {:induction false} Settles(s: State, p: PassAt, stage: Stage)
    ensures Open(s, p, Settle(s, p, stage))
    ensures Height(Settle(s, p, stage)) == 0 ==> Settle(s, p, stage) in {stage, Idle}
    ensures Settle(s, p, stage).Scanning? ==> stage.Scanning?
    decreases Height(stage)
  {
    if !Open(s, p, stage) {
      Settles(s, p, Past(s, p, stage));
    }
  }

  lemma NoGate(s: State, p: PassAt, x: Stage)
    ensures Height(x) == 0 ==> Settle(s, p, x) == x
  {
  }

  /** The gate in front of a rung's breaker. */
  predicate Gate(s: State, rung: Rung, now: int) {
    match rung
    case PageScanRung => s.r1.rejects < R1_DEAD_REJECTIONS && ScanDue(s, now)
    case EarbudRung => RestartDue(s, now)
    case UsbRung => CycleDue(s, now)
    case HubRung => PortDue(s, now)
    case ConnectRung => s.connect.next <= now
  }

  /** A breaker is asked only behind an open gate, with the reading of the pass, and
      its answer is obeyed. */
  lemma AskedAtGate(h: History, e: Event)
    requires Legal(h, e) && e.Asked?
    ensures e.at == PassOf(h).now && Gate(StateOf(h), e.rung, e.at)
    ensures e.granted == Breaker.Allow(BreakerOf(StateOf(h), e.rung), e.at).1
  {
    hide Enter, Behind, Settle;
    Settles(StateOf(h), PassOf(h), StageOf(h));
  }

  predicate IsAction(rung: Rung, e: Event) {
    match rung
    case PageScanRung => e.PageScan?
    case EarbudRung => e.EarbudRestart?
    case UsbRung => e.UsbCycle?
    case HubRung => e.HubCycle?
    case ConnectRung => e.Toggled?
  }

  lemma Acts(h: History, s: State, now: int, x: Stage, rung: Rung, e: Event)
    requires LegalAt(h, s, now, x, e) && IsAction(rung, e)
    ensures x == Acting(rung) && e.at == now
  {
    hide ToggleDue;
  }

  lemma Granted(h: History, rung: Rung)
    requires Now(h) == Acting(rung)
    ensures h.Then? && h.last.Asked? && h.last.rung == rung && h.last.granted
  {
    hide Enter, Settle;
    Settles(StateOf(h), PassOf(h), StageOf(h));
  }

  // A question leaves the gate as it is.
  lemma StillOpen(s: State, e: Event)
    requires e.Asked? && Gate(s, e.rung, e.at)
    ensures Gate(Enter(s, e), e.rung, e.at)
  {
  }

  /** A rung acts right behind the granted question of its own pass, and the gate
      stands open. */
  lemma ActsAtGate(h: History, rung: Rung, e: Event)
    requires Lawful(Then(h, e)) && IsAction(rung, e)
    ensures h.Then? && h.last == Asked(rung, e.at, true) && Lawful(h.before) && Legal(h.before, h.last)
    ensures e.at == PassOf(h).now && Gate(StateOf(h), rung, e.at)
  {
    hide LegalAt, Now, Gate, Enter, Reading;
    assert Lawful(h) && Legal(h, e);
    Acts(h, StateOf(h), PassOf(h).now, Now(h), rung, e);
    Granted(h, rung);
    assert Lawful(h.before) && Legal(h.before, h.last);
    AskedAtGate(h.before, h.last);
    assert h.last.at == PassOf(h.before).now;
    assert PassOf(h) == PassOf(h.before);
    assert StateOf(h) == Enter(StateOf(h.before), h.last);
    StillOpen(StateOf(h.before), h.last);
  }

  /** Within a pass, not between two of them. */
  predicate Busy(stage: Stage) {
    !(stage.Idle? || stage.Unparking? || stage.Dropping? || stage.Counting? || stage.Closing?)
  }

  // Between two passes nothing begins one but its first event.
  lemma NotBusy(h: History, e: Event)
    requires Legal(h, e) && !Busy(Now(h)) && !e.Began?
    ensures !Busy(Behind(StateOf(h), e, StateOf(Then(h, e))))
  {
    hide StateOf;
  }

  lemma BusyBehind(h: History)
    requires Busy(Now(h))
    ensures Busy(StageOf(h))
  {
    hide StageOf;
    Settles(StateOf(h), PassOf(h), StageOf(h));
  }

  /** A pass begins at 1 or later. */
  lemma {:induction false} PassBegan(h: History)
    requires Lawful(h)
    ensures 0 <= PassOf(h).now <= Clock(h) && (Busy(Now(h)) ==> 1 <= PassOf(h).now)
  {
    if h.Then? {
      hide LegalAt, Behind, Now;
      PassBegan(h.before);
      if Busy(Now(h)) {
        BusyBehind(h);
        if !h.last.Began? && !Busy(Now(h.before)) {
          NotBusy(h.before, h.last);
        }
      }
    }
  }

  // Events that carry the reading with which their pass began.
  predicate InPass(e: Event) {
    e.DebtRead? || e.RepairPass? || e.StreamRead? || e.AudioAsked? || e.Paged? || e.Escalating? || e.FreezeRead?
    || e.Asked? || e.PageScan? || e.EarbudRestart? || e.UsbCycle? || e.HubCycle? || e.StreamReread? || e.Toggled?
    || e.ConnectDone?
  }

  lemma StampIs(h: History, s: State, now: int, x: Stage, e: Event)
    requires LegalAt(h, s, now, x, e) && InPass(e)
    ensures e.at == now && Busy(x)
  {
    hide ToggleDue, LegalWake;
    if x.Idle? {
      OnlyWakes(h, s, e);
    }
  }

  lemma OnlyWakes(h: History, s: State, e: Event)
    requires LegalWake(h, s, e)
    ensures !InPass(e)
  {
  }

  /** Every event of a pass carries the reading with which the pass began. */
  lemma Stamped(h: History, e: Event)
    requires Lawful(Then(h, e)) && InPass(e)
    ensures 1 <= e.at == PassOf(h).now
  {
    hide LegalAt, Now;
    StampIs(h, StateOf(h), PassOf(h).now, Now(h), e);
    PassBegan(h);
  }

  /** A FRESH DAEMON WAITS FOR NOTHING: no device event is coalesced or kept from
      unparking, repair, audio, toggle and connect are due at once, a page as soon as the
      link is seen down -- and no rung is, before an episode is armed. */
  lemma FreshStart(now: int, rung: Rung)
    requires 1 <= now
    ensures var s := StateOf(Start);
            LegalWake(Start, s, DeviceEvent(now)) && Unparks(s.wakes, now)
            && RepairDue(s.repair, now) && !s.repair.armed && !s.repair.sawUnelevated && !s.repair.sawAbsent
            && Open(s, PassAt(now, false), Asking) && Past(s, PassAt(now, false), Waiting) == Paging
            && PageDue(s.(link := s.link.(downSince := now)), now) && s.page.held.None? && s.link.upSince == 0
            && Open(s, PassAt(now, false), Freezing) && ToggleDue(s, now) && Gate(s, ConnectRung, now)
            && Breaker.Allow(BreakerOf(s, rung), now).1 && (!rung.ConnectRung? ==> !Gate(s, rung, now))
            && s.link.stable == s.link.flaps == s.connect.absent == s.connect.fails == s.toggle.fails == 0
            && s.r1.last == s.r2.last == s.r3.last == s.r4.last == s.r3.forceAfter == s.r3.complete == 0
            && s.r1.rejects == s.r2.fails == s.r3.restarts == s.r4.fails == s.repair.fails == 0
            && !s.r1.inEpisode && !s.r2.inEpisode
  {
  }

  // -------------------------------------------------------------------------
  // Moments of a history
  // -------------------------------------------------------------------------

  /** The history of the first `n` events. */
  function Upto(h: History, n: nat): (p: History)
    requires n <= |Events(h)|
    ensures Events(p) == Events(h)[..n]
  {
    if n == |Events(h)| then h else Upto(h.before, n)
  }

  /** Every event of a legal history was legal when it happened. */
  lemma {:induction false} Moment(h: History, n: nat)
    requires Lawful(h) && n < |Events(h)|
    ensures Lawful(Upto(h, n)) && Legal(Upto(h, n), Events(h)[n])
    ensures Upto(h, n + 1) == Then(Upto(h, n), Events(h)[n]) && Lawful(Upto(h, n + 1))
  {
    if n < |Events(h.before)| {
      Moment(h.before, n);
    }
  }
}
