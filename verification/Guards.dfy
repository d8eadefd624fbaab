/** What has to be true before a pass of `recover_link` may act: repair before
    escalation, hardware only on a down link, the two freezes and the watchdog. All
    of it holds in every state, and for every answer of the outside world. */
module Guards {
  import opened Config
  import opened Numeric
  import opened Backoff
  import opened Gates
  import opened Ladder
  import Replay

  predicate Hardware(e: Event) {
    e.PageScan? || e.EarbudRestart? || e.UsbCycle? || e.HubCycle?
  }

  /** Anything a pass may do to the stack: a hardware rung or a driver toggle. */
  predicate Acts(e: Event) {
    Hardware(e) || e.Toggled? || e.InertStamp?
  }

  /** What a stretch of history may be free of: everything but repairs, every action,
      the pages and the hardware rungs, the rungs that restart a devnode, the two that
      take the dongle down, or everything that belongs to a pass. */
  datatype Bar = RepairOnly | NoAction | NoHardware | NoPnp | NoDongle | NoPass

  predicate Passes(bar: Bar, e: Event) {
    match bar
    case RepairOnly => e.Began? || e.DebtRead? || e.RepairPass? || e.Recovered?
    case NoAction => !Acts(e)
    case NoHardware => !Hardware(e) && !e.Escalating? && !e.Paged? && !e.Opened?
    case NoPnp => !(e.EarbudRestart? || e.UsbCycle? || e.HubCycle?)
    case NoDongle => !(e.UsbCycle? || e.HubCycle?)
    case NoPass => e.LinkUp? || e.LinkDown? || e.Found? || e.EpisodeClosed? || e.Closed?
  }

  /** `h` continues `g` with events that pass the bar only. */
  predicate Continues(g: History, h: History, bar: Bar) {
    h == g || (h.Then? && Passes(bar, h.last) && Continues(g, h.before, bar))
  }

  lemma Grow(g: History, bar: Bar)
    ensures forall p: History, e: Event {:trigger Continues(g, Then(p, e), bar)} ::
              Continues(g, p, bar) && Passes(bar, e) ==> Continues(g, Then(p, e), bar)
  {
  }

  // -------------------------------------------------------------------------
  // Repair before escalation
  // -------------------------------------------------------------------------

  /** The failures that set the delay of this pass: none if we have just become
      elevated. */
  function FailsNow(s: State, p: Pass): u32 {
    if p.admin && s.repair.sawUnelevated then 0 else s.repair.fails
  }

  predicate RepairIsDue(s: State, p: Pass) {
    s.repair.last == 0 || p.times.now < s.repair.last
    || p.times.now - s.repair.last >= RecoveryDelay(FailsNow(s, p))
  }

  /** Rung 0 stops the pass: a repair that is due found something broken or leaves a
      journal behind, and one that is not due left a journal behind the last time. */
  predicate RepairStops(s: State, p: Pass) {
    if RepairIsDue(s, p) then p.repaired || p.journalAfter else s.repair.armed
  }

  predicate AudioTakesOver(s: State, p: Pass) {
    if s.audio.last == 0 || p.times.now - s.audio.last >= AUDIO_CONNECT_CADENCE_MS then p.audioAccepted
    else s.audio.accepted
  }

  predicate PageIsDue(s: State, p: Pass) {
    var since := if s.link.downSince == 0 then p.times.now else s.link.downSince;
    since != 0 && p.times.now - since >= PAGE_MIN_DOWN_MS
    && (s.page.last == 0 || p.times.now - s.page.last >= PAGE_CADENCE_MS)
  }

  /** A pass comes to the rungs only if no driver debt is left unpaid, rung 0 lets it,
      the audio is neither there already nor about to be, the link has had its grace,
      and no page was just answered or is settling. */
  predicate MayAct(s: State, p: Pass, connected: bool) {
    !p.debtUnpaid && !RepairStops(s, p)
    && !(connected && (p.streaming || p.times.now - s.link.upSince < AUDIO_READY_GRACE_MS))
    && !AudioTakesOver(s, p)
    && !(s.page.settleUntil != 0 && p.times.now < s.page.settleUntil)
    && (connected || p.pageOutcome != Attempted || !PageIsDue(s, p))
  }

  lemma BeginStays(g: History, s: State, p: Pass, connected: bool, bar: Bar)
    requires Continues(g, s.log, bar) && Passes(bar, Began(p.times.now, p.admin, connected))
    requires Passes(bar, DebtRead(p.times.now, p.debtUnpaid))
    ensures Continues(g, RungDebt(Begin(s, p, connected), p).s.log, bar)
  {
    Grow(g, bar);
  }

  lemma RepairStays(g: History, s: State, p: Pass, bar: Bar)
    requires Continues(g, s.log, bar) && bar != NoPass
    ensures Continues(g, RungRepair(s, p).s.log, bar)
  {
    Grow(g, bar);
  }

  lemma AudioStays(g: History, s: State, p: Pass, connected: bool, bar: Bar)
    requires Continues(g, s.log, bar) && bar != NoPass && bar != RepairOnly
    ensures Continues(g, RungAudio(s, p, connected).s.log, bar)
  {
    Grow(g, bar);
  }

  lemma PageStays(g: History, s: State, p: Pass, connected: bool, bar: Bar)
    requires Continues(g, s.log, bar) && (connected || bar in {NoAction, NoPnp, NoDongle})
    ensures Continues(g, RungPage(s, p, connected).s.log, bar)
  {
    Grow(g, bar);
  }

  lemma PrepareStays(g: History, s: State, p: Pass, connected: bool, bar: Bar)
    requires Continues(g, s.log, bar) && bar in {NoAction, NoHardware, NoPnp, NoDongle}
    requires connected || bar != NoHardware
    ensures Continues(g, Prepare(Begin(s, p, connected), p, connected).s.log, bar)
  {
    BeginStays(g, s, p, connected, bar);
    var debt := RungDebt(Begin(s, p, connected), p);
    RepairStays(g, debt.s, p, bar);
    var repair := RungRepair(debt.s, p);
    AudioStays(g, repair.s, p, connected, bar);
    PageStays(g, RungAudio(repair.s, p, connected).s, p, connected, bar);
  }

  // What the first steps of a pass leave for the later ones.
  lemma RepairLeaves(s: State, p: Pass, connected: bool)
    ensures var debt := RungDebt(Begin(s, p, connected), p);
            var r := RungRepair(debt.s, p);
            debt.go == !p.debtUnpaid
            && (debt.go ==> r.go == !RepairStops(s, p))
            && r.s.audio == s.audio && r.s.page == s.page && r.s.link.upSince == s.link.upSince
            && r.s.link.downSince == (if s.link.downSince == 0 then p.times.now else s.link.downSince)
  {
  }

  lemma AudioGoes(s: State, p: Pass, connected: bool)
    ensures var r := RungAudio(s, p, connected);
            r.go == (!(connected && (p.streaming || p.times.now - s.link.upSince < AUDIO_READY_GRACE_MS))
                     && !AudioTakesOver(s, p) && !(s.page.settleUntil != 0 && p.times.now < s.page.settleUntil))
            && r.s.link == s.link && r.s.page == s.page
  {
  }

  lemma PrepareGoes(s: State, p: Pass, connected: bool)
    ensures Prepare(Begin(s, p, connected), p, connected).go == MayAct(s, p, connected)
  {
    hide RungDebt, RungRepair, RungAudio, RepairStops, AudioTakesOver;
    RepairLeaves(s, p, connected);
    var repair := RungRepair(RungDebt(Begin(s, p, connected), p).s, p);
    AudioGoes(repair.s, p, connected);
    SameAudio(s, repair.s, p);
  }

  lemma SameAudio(s: State, r: State, p: Pass)
    requires r.audio == s.audio
    ensures AudioTakesOver(r, p) == AudioTakesOver(s, p)
  {
  }

  /** REPAIR BEFORE ESCALATION: while a driver is owed or rung 0 stops the pass --
      a radio was just repaired, a journal was found behind a repair that is due, or
      was left behind by the last one -- the pass does nothing but that repair. */
  lemma StoppedPassOnlyRepairs(s: State, p: Pass, connected: bool)
    requires p.debtUnpaid || RepairStops(s, p)
    ensures Continues(s.log, RecoverLink(s, p, connected).log, RepairOnly)
  {
    hide RungRepair, RepairStops;
    BeginStays(s.log, s, p, connected, RepairOnly);
    RepairLeaves(s, p, connected);
    RepairStays(s.log, RungDebt(Begin(s, p, connected), p).s, p, RepairOnly);
  }

  /** ... and whatever else keeps a pass from the rungs, it takes no action. */
  lemma BlockedPassActsNot(s: State, p: Pass, connected: bool)
    requires !MayAct(s, p, connected)
    ensures Continues(s.log, RecoverLink(s, p, connected).log, NoAction)
  {
    hide Prepare;
    PrepareStays(s.log, s, p, connected, NoAction);
    PrepareGoes(s, p, connected);
  }

  // -------------------------------------------------------------------------
  // The pass goes on exactly when it may
  // -------------------------------------------------------------------------

  /** How often a pass came to the rungs: to the hardware rungs on a link that is
      down, to the second look at the audio on a connected transport. */
  function Entries(h: History): nat {
    match h
    case Start => 0
    case Then(p, e) => Entries(p) + (if e.Escalating? || e.StreamReread? then 1 else 0)
  }

  lemma Unfold()
    ensures forall p: History, e: Event {:trigger Entries(Then(p, e))} ::
              Entries(Then(p, e)) == Entries(p) + (if e.Escalating? || e.StreamReread? then 1 else 0)
  {
  }

  lemma ScanEnters(s: State, p: Pass)
    ensures Entries(RungPageScan(s, p).s.log) == Entries(s.log) + 1
  {
    Unfold();
  }

  lemma EarbudEntersNot(s: State, p: Pass)
    ensures Entries(RungEarbud(s, p).s.log) == Entries(s.log)
  {
    Unfold();
  }

  lemma UsbEntersNot(s: State, p: Pass)
    ensures Entries(RungUsb(s, p).s.log) == Entries(s.log)
  {
    Unfold();
  }

  lemma HubEntersNot(s: State, p: Pass)
    ensures Entries(RungHub(s, p).s.log) == Entries(s.log)
  {
    Unfold();
  }

  lemma DebtEntersNot(s: State, p: Pass, connected: bool)
    ensures Entries(RungDebt(Begin(s, p, connected), p).s.log) == Entries(s.log)
  {
    Unfold();
  }

  lemma RepairEntersNot(s: State, p: Pass)
    ensures Entries(RungRepair(s, p).s.log) == Entries(s.log)
  {
    Unfold();
  }

  lemma AudioEntersNot(s: State, p: Pass, connected: bool)
    ensures Entries(RungAudio(s, p, connected).s.log) == Entries(s.log)
  {
    Unfold();
  }

  lemma PageEntersNot(s: State, p: Pass, connected: bool)
    ensures Entries(RungPage(s, p, connected).s.log) == Entries(s.log)
  {
    Unfold();
  }

  lemma PrepareEntersNot(s: State, p: Pass, connected: bool)
    ensures Entries(Prepare(Begin(s, p, connected), p, connected).s.log) == Entries(s.log)
  {
    hide RungDebt, RungRepair, RungAudio, RungPage;
    DebtEntersNot(s, p, connected);
    var debt := RungDebt(Begin(s, p, connected), p);
    RepairEntersNot(debt.s, p);
    var repair := RungRepair(debt.s, p);
    AudioEntersNot(repair.s, p, connected);
    PageEntersNot(RungAudio(repair.s, p, connected).s, p, connected);
  }

  lemma EscalateEnters(s: State, p: Pass)
    ensures Entries(Escalate(s, p).s.log) == Entries(s.log) + 1
  {
    hide RungPageScan, RungEarbud, RungUsb, RungHub;
    ScanEnters(s, p);
    var r1 := RungPageScan(s, p);
    EarbudEntersNot(r1.s, p);
    var r3 := RungEarbud(r1.s, p);
    UsbEntersNot(r3.s, p);
    HubEntersNot(RungUsb(r3.s, p).s, p);
  }

  lemma GateEnters(s: State, p: Pass, connected: bool)
    ensures Entries(ConnectGate(s, p, connected).s.log) == Entries(s.log) + (if connected then 1 else 0)
  {
    Unfold();
  }

  lemma ConnectEntersNot(s: State, p: Pass)
    ensures Entries(RungConnect(s, p).log) == Entries(s.log)
  {
    Unfold();
  }

  /** AND NOTHING ELSE STOPS A PASS: it comes to the rungs, once, exactly when it
      may act. */
  lemma EntersIff(s: State, p: Pass, connected: bool)
    ensures Entries(RecoverLink(s, p, connected).log)
            == Entries(s.log) + (if MayAct(s, p, connected) then 1 else 0)
  {
    hide Prepare, Escalate, ConnectGate, RungConnect, MayAct;
    PrepareGoes(s, p, connected);
    PrepareEntersNot(s, p, connected);
    var ready := Prepare(Begin(s, p, connected), p, connected).s;
    EscalateEnters(ready, p);
    var rungs := if connected then ready else Escalate(ready, p).s;
    GateEnters(rungs, p, connected);
    ConnectEntersNot(ConnectGate(rungs, p, connected).s, p);
  }

  // -------------------------------------------------------------------------
  // Hardware only on a down link, and the two freezes
  // -------------------------------------------------------------------------

  /** Nothing that a connect pass does is a hardware rung. */
  lemma ConnectIsSoft(g: History, s: State, p: Pass, connected: bool, bar: Bar)
    requires Continues(g, s.log, bar) && bar in {NoHardware, NoPnp, NoDongle}
    ensures Continues(g, ConnectGate(s, p, connected).s.log, bar)
    ensures Continues(g, RungConnect(s, p).log, bar)
  {
    Grow(g, bar);
  }

  // A pass whose hardware rungs keep to the bar.
  lemma WholePass(g: History, s: State, p: Pass, connected: bool, bar: Bar)
    requires Continues(g, s.log, bar) && bar in {NoHardware, NoPnp, NoDongle} && (connected || bar != NoHardware)
    requires var ready := Prepare(Begin(s, p, connected), p, connected);
             ready.go && !connected ==> Continues(g, Escalate(ready.s, p).s.log, bar)
    ensures Continues(g, RecoverLink(s, p, connected).log, bar)
  {
    hide Prepare, Escalate, ConnectGate, RungConnect;
    PrepareStays(g, s, p, connected, bar);
    var ready := Prepare(Begin(s, p, connected), p, connected);
    if ready.go {
      var rungs := if connected then ready.s else Escalate(ready.s, p).s;
      ConnectIsSoft(g, rungs, p, connected, bar);
      ConnectIsSoft(g, ConnectGate(rungs, p, connected).s, p, connected, bar);
    }
  }

  /** HARDWARE ONLY WHEN DOWN: a pass on a connected transport runs no hardware
      rung and sends no page, whatever its audio does. */
  lemma ConnectedPassIsSoft(s: State, p: Pass)
    ensures Continues(s.log, RecoverLink(s, p, true).log, NoHardware)
  {
    WholePass(s.log, s, p, true, NoHardware);
  }

  /** What the kill switch says in this pass: it is read at most every 15 s. */
  predicate KillSwitch(s: State, p: Pass) {
    if s.freeze.checked == 0 || p.times.now - s.freeze.checked >= FREEZE_RECHECK_MS then p.freezeFile
    else s.freeze.frozen
  }

  /** A frozen escalation keeps every rung but the page-scan toggle from running,
      an absent peer the two that take the dongle down. */
  predicate Frozen(s: State, p: Pass, bar: Bar) {
    (bar.NoPnp? && KillSwitch(s, p))
    || (bar.NoDongle? && (KillSwitch(s, p) || s.connect.absent >= PEER_ABSENT_FREEZE_AFTER))
  }

  lemma ScanUnderFreeze(g: History, s: State, p: Pass, bar: Bar)
    requires Continues(g, s.log, bar) && bar in {NoPnp, NoDongle}
    ensures var r := RungPageScan(s, p).s;
            Continues(g, r.log, bar) && r.freeze == s.freeze && r.connect.absent == s.connect.absent
  {
    Grow(g, bar);
  }

  lemma EarbudUnderFreeze(g: History, s: State, p: Pass, bar: Bar)
    requires Continues(g, s.log, bar) && Frozen(s, p, bar)
    ensures var r := RungEarbud(s, p).s;
            Continues(g, r.log, bar) && (r.freeze.frozen || r.connect.absent >= PEER_ABSENT_FREEZE_AFTER)
  {
    Grow(g, bar);
  }

  lemma DongleUnderFreeze(s: State, p: Pass)
    requires s.freeze.frozen || s.connect.absent >= PEER_ABSENT_FREEZE_AFTER
    ensures RungUsb(s, p).s.log == s.log && RungHub(RungUsb(s, p).s, p).s.log == s.log
  {
  }

  lemma EscalateUnderFreeze(g: History, s: State, p: Pass, bar: Bar)
    requires Continues(g, s.log, bar) && Frozen(s, p, bar)
    ensures Continues(g, Escalate(s, p).s.log, bar)
  {
    hide RungPageScan, RungEarbud, RungUsb, RungHub;
    ScanUnderFreeze(g, s, p, bar);
    var r1 := RungPageScan(s, p);
    if r1.go {
      EarbudUnderFreeze(g, r1.s, p, bar);
      var r3 := RungEarbud(r1.s, p);
      if r3.go {
        DongleUnderFreeze(r3.s, p);
      }
    }
  }

  // The first half of a pass leaves both freezes alone unless it ends the pass.
  lemma PrepareLeavesFreezes(s: State, p: Pass, connected: bool)
    ensures var ready := Prepare(Begin(s, p, connected), p, connected);
            ready.go ==> ready.s.freeze == s.freeze && ready.s.connect.absent == s.connect.absent
  {
  }

  /** THE FREEZES: with the kill switch on no devnode is restarted and the dongle
      stays up; after five absent verdicts in a row the dongle stays up. */
  lemma FreezesHold(s: State, p: Pass, connected: bool, bar: Bar)
    requires Frozen(s, p, bar)
    ensures Continues(s.log, RecoverLink(s, p, connected).log, bar)
  {
    hide Prepare, Escalate;
    PrepareLeavesFreezes(s, p, connected);
    PrepareStays(s.log, s, p, connected, bar);
    var ready := Prepare(Begin(s, p, connected), p, connected);
    if ready.go {
      EscalateUnderFreeze(s.log, ready.s, p, bar);
    }
    WholePass(s.log, s, p, connected, bar);
  }

  // -------------------------------------------------------------------------
  // A poll and its pass
  // -------------------------------------------------------------------------

  lemma PollStays(g: History, s: State, q: Poll, bar: Bar)
    requires Continues(g, s.log, bar) && bar in {NoHardware, NoPass}
    ensures Continues(g, OnConnected(s, q.up, q.ready).log, bar) && Continues(g, OnDisconnected(s).log, bar)
  {
    Grow(g, bar);
  }

  /** A poll that found the transport connected runs no hardware rung and sends no
      page, the detour for dead audio included. */
  lemma ConnectedPollIsSoft(s: State, q: Poll)
    requires q.connected
    ensures Continues(s.log, HandleFound(s, q).log, NoHardware)
  {
    hide RecoverLink, OnConnected, OnDisconnected;
    PollStays(s.log, s, q, NoHardware);
    var up, down := OnConnected(s, q.up, q.ready), OnDisconnected(s);
    WholePass(s.log, up, q.pass, true, NoHardware);
    WholePass(s.log, down, q.pass, true, NoHardware);
  }

  /** A poll whose watchdog tripped counts the link and does nothing else. */
  lemma TrippedPollOnlyCounts(s: State, q: Poll)
    requires q.watchdog
    ensures Continues(s.log, HandleFound(s, q).log, NoPass)
  {
    hide RecoverLink, OnConnected, OnDisconnected;
    PollStays(s.log, s, q, NoPass);
  }
}
