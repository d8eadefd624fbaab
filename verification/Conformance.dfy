/** Every run of the ladder obeys the protocol: one lemma for each step of a pass,
    of a poll and of a wake, then the turn and the run. */
module Conformance {
  import opened Config
  import opened Numeric
  import opened Gates
  import opened Ladder
  import opened Runs
  import opened Replay
  import opened Protocol
  import opened Wrappers
  import Breaker
  import ConnectFsm

  /** A pass under way: the history `g` it extends, the first reading it may show, the
      history `m` it began with, the answers of the outside world, and whether the
      transport is connected. */
  datatype Scene = Scene(g: History, start: int, m: History, p: Pass, connected: bool)
  {
    function At(): PassAt {
      PassAt(p.times.now, connected)
    }

    predicate Said(s: State, x: Stage, e: Event) {
      Told(p, connected, s, x, e)
    }

    /** Everything since `m` shows the answers of this pass. */
    predicate Tells(h: History) {
      h == m || (h.Then? && Tells(h.before) && Said(StateOf(h.before), Now(h.before), h.last))
    }
  }

  /** `s` is the replayed state of a legal history, and no reading is later than `t`. */
  predicate Sound(g: History, start: int, s: State, t: int) {
    Extends(g, s.log, start) && s == StateOf(s.log) && Clock(s.log) <= t && 1 <= start
  }

  /** ... that stands where a pass stands at `x`. */
  predicate Stands(c: Scene, s: State, x: Stage, t: int) {
    Sound(c.g, c.start, s, t) && c.start <= t && c.Tells(s.log)
    && TallyOf(s.log) == TallyOf(c.m).(passes := TallyOf(c.m).passes + 1)
    && PassOf(s.log) == c.At() && Now(s.log) == Settle(s, c.At(), x)
  }

  /** ... and owes nothing: the turn may end. */
  predicate Rests(g: History, start: int, s: State, t: int) {
    Sound(g, start, s, t) && Now(s.log) == Idle
  }

  lemma EnterLogs(s: State, e: Event)
    ensures Enter(s, e).log == Then(s.log, e)
  {
  }

  // A pass has one beginning, and no poll or wake happens within it.
  lemma NothingElse(c: Scene, s: State, x: Stage, h: History, e: Event)
    requires c.Said(s, x, e) && !e.Began?
    ensures TallyOf(Then(h, e)) == TallyOf(h)
  {
  }

  // One event at an open gate.
  lemma Advance(c: Scene, s: State, x: Stage, e: Event, t: int, u: int)
    requires Stands(c, s, x, t) && Open(s, c.At(), x) && LegalAt(s.log, s, c.p.times.now, x, e) && c.Said(s, x, e)
    requires t <= u && (Reading(e).Some? ==> t <= Reading(e).value <= u) && !e.Began?
    ensures Stands(c, Enter(s, e), Behind(s, e, Enter(s, e)), u)
  {
    hide Enter, Behind, LegalAt, Open, Scene.Said;
    EnterLogs(s, e);
    NothingElse(c, s, x, s.log, e);
  }

  // A closed gate.
  lemma Skip(c: Scene, s: State, x: Stage, t: int)
    requires Stands(c, s, x, t) && !Open(s, c.At(), x)
    ensures Stands(c, s, Past(s, c.At(), x), t)
  {
  }

  lemma Later(c: Scene, s: State, x: Stage, t: int, u: int)
    requires Stands(c, s, x, t) && t <= u
    ensures Stands(c, s, x, u)
  {
  }

  lemma NotLater(c: Scene, s: State, x: Stage, t: int)
    requires Stands(c, s, x, t)
    ensures Clock(s.log) <= t
  {
    hide Extends, StateOf, Settle;
  }

  // A question at an open gate.
  lemma Consult(c: Scene, s: State, x: Stage, rung: Rung, t: int)
    requires Stands(c, s, x, t) && Open(s, c.At(), x)
    requires var e := Asked(rung, c.p.times.now, Breaker.Allow(BreakerOf(s, rung), c.p.times.now).1);
             LegalAt(s.log, s, c.p.times.now, x, e)
    requires c.connected ==> rung.ConnectRung?
    ensures var (b, granted) := Breaker.Allow(BreakerOf(s, rung), c.p.times.now);
            var next := Log(WithBreaker(s, rung, b), Asked(rung, c.p.times.now, granted));
            Stands(c, next, if granted then Acting(rung) else Below(rung), t)
  {
    hide Stands, Settle, Open;
    var e := Asked(rung, c.p.times.now, Breaker.Allow(BreakerOf(s, rung), c.p.times.now).1);
    Advance(c, s, x, e, t, t);
  }

  lemma DebtObeys(c: Scene, s: State, t: int)
    requires Stands(c, s, Checking, t)
    ensures var r := RungDebt(s, c.p); Stands(c, r.s, if r.go then Repairing else Idle, t)
  {
    hide Stands;
    Advance(c, s, Checking, DebtRead(c.p.times.now, c.p.debtUnpaid), t, t);
  }

  // The gate that rung 0 leaves behind.
  lemma BlockObeys(c: Scene, s: State, t: int)
    requires Stands(c, s, Blocking, t) && t <= c.p.times.repairedNext
    ensures Stands(c, s, if s.repair.armed then Idle else Listening, c.p.times.repairedNext)
  {
    hide Stands;
    Skip(c, s, Blocking, t);
    Later(c, s, if s.repair.armed then Idle else Listening, t, c.p.times.repairedNext);
  }

  lemma DueRepairObeys(c: Scene, s: State)
    requires Stands(c, s, Repairing, c.p.times.now) && RepairDue(s.repair, c.p.times.now)
    ensures var next := Log(s, RepairPass(c.p.times.now, c.p.present > 0, c.p.repaired, c.p.journalAfter))
                        .(repair := AfterRepair(s.repair, c.p));
            Stands(c, next, if c.p.repaired then Mending else Blocking, c.p.times.now)
  {
    hide Stands;
    var p := c.p;
    var e := RepairPass(p.times.now, p.present > 0, p.repaired, p.journalAfter);
    Advance(c, s, Repairing, e, p.times.now, p.times.now);
  }

  lemma MendObeys(c: Scene, s: State)
    requires Stands(c, s, Mending, c.p.times.now) && InOrder(c.p.times.now, c.p.times)
    ensures Stands(c, Repaired(s, c.p), Idle, c.p.times.repairedNext)
  {
    hide Stands;
    var k := c.p.times;
    NotLater(c, s, Mending, k.now);
    Advance(c, s, Mending, Recovered(k.repairedNext, k.repaired), k.now, k.repairedNext);
  }

  lemma RepairObeys(c: Scene, s: State)
    requires Stands(c, s, Repairing, c.p.times.now) && InOrder(c.p.times.now, c.p.times)
    ensures var r := RungRepair(s, c.p); Stands(c, r.s, if r.go then Listening else Idle, c.p.times.repairedNext)
  {
    hide Stands, AfterRepair, Repaired;
    var p, now := c.p, c.p.times.now;
    if RepairDue(s.repair, now) {
      DueRepairObeys(c, s);
      var next := Log(s, RepairPass(now, p.present > 0, p.repaired, p.journalAfter))
                  .(repair := AfterRepair(s.repair, p));
      if p.repaired {
        MendObeys(c, next);
      } else {
        BlockObeys(c, next, now);
      }
    } else {
      Skip(c, s, Repairing, now);
      BlockObeys(c, s, now);
    }
  }

  // The rest of the audio step, once the request is made or not due.
  lemma WaitObeys(c: Scene, s: State, t: int)
    requires Stands(c, s, Waiting, t)
    ensures var go := !s.audio.accepted
                      && !(c.connected && c.p.times.now - s.link.upSince < AUDIO_READY_GRACE_MS)
                      && !PageSettling(c.p.times.now, s.page.settleUntil);
            Stands(c, s, if go then Paging else Idle, t)
  {
    hide Stands;
    Skip(c, s, Waiting, t);
  }

  lemma AskObeys(c: Scene, s: State)
    requires Stands(c, s, Asking, c.p.times.repairedNext) && InOrder(c.p.times.now, c.p.times)
    ensures var p := c.p;
            var next := if AudioDue(p.times.now, s.audio.last) then
                          Log(s, AudioAsked(p.times.now, p.times.audio, p.audioAccepted))
                          .(audio := Audio(p.times.audio, p.audioAccepted))
                        else s;
            Stands(c, next, Waiting, p.times.audio)
  {
    hide Stands;
    if Open(s, c.At(), Asking) {
      Advance(c, s, Asking, AudioAsked(c.p.times.now, c.p.times.audio, c.p.audioAccepted),
              c.p.times.repairedNext, c.p.times.audio);
    } else {
      Skip(c, s, Asking, c.p.times.repairedNext);
      Later(c, s, Waiting, c.p.times.repairedNext, c.p.times.audio);
    }
  }

  lemma AudioObeys(c: Scene, s: State)
    requires Stands(c, s, Listening, c.p.times.repairedNext) && InOrder(c.p.times.now, c.p.times)
    ensures var r := RungAudio(s, c.p, c.connected); Stands(c, r.s, if r.go then Paging else Idle, c.p.times.audio)
  {
    hide Stands;
    var p, t := c.p, c.p.times.repairedNext;
    var e := StreamRead(p.times.now, p.streaming);
    if c.connected {
      Advance(c, s, Listening, e, t, t);
    } else {
      Skip(c, s, Listening, t);
    }
    var s' := if c.connected then Log(s, e) else s;
    if c.connected && p.streaming {
      Later(c, s', Idle, t, p.times.audio);
    } else {
      AskObeys(c, s');
      var asked := if AudioDue(p.times.now, s'.audio.last) then
                     Log(s', AudioAsked(p.times.now, p.times.audio, p.audioAccepted))
                     .(audio := Audio(p.times.audio, p.audioAccepted))
                   else s';
      WaitObeys(c, asked, p.times.audio);
    }
  }

  lemma HoldObeys(c: Scene, s: State, socket: nat, t: int)
    requires !c.connected && Stands(c, s, Opening(socket), t) && s.page.held != Some(socket)
    ensures Stands(c, ReplaceHold(s, socket), Idle, t)
  {
    hide Stands;
    Advance(c, s, Opening(socket), Opened(socket), t, t);
    var both := Enter(s, Opened(socket));
    if s.page.held.Some? {
      Advance(c, both, Dropping(s.page.held.value), Closed(s.page.held.value), t, t);
    }
  }

  lemma AnswerObeys(c: Scene, s: State)
    requires !c.connected && Stands(c, s, Answering, c.p.times.page) && InOrder(c.p.times.now, c.p.times)
    requires c.p.pageHeld.Some? ==> c.p.pageHeld != s.page.held
    ensures Stands(c, Attempt(s, c.p), Idle, c.p.times.paged)
  {
    hide Stands;
    var p := c.p;
    var e := Answered(p.times.paged, p.pageHeld);
    Advance(c, s, Answering, e, p.times.page, p.times.paged);
    if p.pageHeld.Some? {
      HoldObeys(c, Enter(s, e), p.pageHeld.value, p.times.paged);
    }
  }

  lemma PageObeys(c: Scene, s: State)
    requires Stands(c, s, Paging, c.p.times.audio) && InOrder(c.p.times.now, c.p.times)
    requires c.p.pageHeld.Some? ==> c.p.pageHeld != s.page.held
    ensures var r := RungPage(s, c.p, c.connected); Stands(c, r.s, if r.go then Arming else Idle, c.p.times.paged)
  {
    hide Stands;
    var p := c.p;
    if Open(s, c.At(), Paging) {
      var e := Paged(p.times.now, p.times.page, p.pageOutcome);
      Advance(c, s, Paging, e, p.times.audio, p.times.page);
      var sent := Enter(s, e);
      if p.pageOutcome == Attempted {
        AnswerObeys(c, sent);
      } else {
        Later(c, sent, Arming, p.times.page, p.times.paged);
      }
    } else {
      Skip(c, s, Paging, p.times.audio);
      Later(c, s, Arming, p.times.audio, p.times.paged);
    }
  }

  lemma ArmObeys(c: Scene, s: State, t: int)
    requires Stands(c, s, Arming, t) && !c.connected
    ensures Stands(c, Arm(s, c.p.times.now), Scanning, t)
  {
    hide Stands;
    Advance(c, s, Arming, Escalating(c.p.times.now), t, t);
  }

  lemma ScanObeys(c: Scene, s: State)
    requires !c.connected && Stands(c, s, Acting(PageScanRung), c.p.times.paged) && InOrder(c.p.times.now, c.p.times)
    ensures var r := ScanNow(s, c.p); Stands(c, r.s, if r.go then Freezing else Idle, c.p.times.reset)
  {
    hide Stands;
    var p := c.p;
    Advance(c, s, Acting(PageScanRung), PageScan(p.times.now, p.resetOk, p.times.reset), p.times.paged, p.times.reset);
  }

  lemma PageScanObeys(c: Scene, s: State)
    requires Stands(c, s, Arming, c.p.times.paged) && !c.connected && InOrder(c.p.times.now, c.p.times)
    ensures var r := RungPageScan(s, c.p); Stands(c, r.s, if r.go then Freezing else Idle, c.p.times.reset)
  {
    hide Stands;
    var p, t := c.p, c.p.times.paged;
    ArmObeys(c, s, t);
    var s := Arm(s, p.times.now);
    if RadioResetRungDead(s.r1.rejects) {
      Advance(c, s, Scanning, PageScanMuted, t, p.times.reset);
    } else if ScanDue(s, p.times.now) {
      Consult(c, s, Scanning, PageScanRung, t);
      var (b, granted) := Breaker.Allow(s.r1.breaker, p.times.now);
      var asked := Log(WithBreaker(s, PageScanRung, b), Asked(PageScanRung, p.times.now, granted));
      if granted {
        ScanObeys(c, asked);
      } else {
        Later(c, asked, Freezing, t, p.times.reset);
      }
    } else {
      Skip(c, s, Scanning, t);
      Later(c, s, Freezing, t, p.times.reset);
    }
  }

  lemma FreezeObeys(c: Scene, s: State, t: int)
    requires !c.connected && Stands(c, s, Freezing, t)
    ensures Stands(c, LookAtSwitch(s, c.p), Restarting, t)
  {
    hide Stands;
    if Open(s, c.At(), Freezing) {
      Advance(c, s, Freezing, FreezeRead(c.p.times.now, c.p.freezeFile), t, t);
    } else {
      Skip(c, s, Freezing, t);
    }
  }

  lemma RestartObeys(c: Scene, s: State)
    requires !c.connected && Stands(c, s, Acting(EarbudRung), c.p.times.reset) && InOrder(c.p.times.now, c.p.times)
    ensures var r := RestartNow(s, c.p); Stands(c, r.s, if r.go then Cycling else Idle, c.p.times.restarted)
  {
    hide Stands;
    var p := c.p;
    Advance(c, s, Acting(EarbudRung), EarbudRestart(p.times.now, p.restartOk, p.times.restarted),
            p.times.reset, p.times.restarted);
  }

  lemma EarbudObeys(c: Scene, s: State)
    requires !c.connected && Stands(c, s, Freezing, c.p.times.reset) && InOrder(c.p.times.now, c.p.times)
    ensures var r := RungEarbud(s, c.p); Stands(c, r.s, if r.go then Cycling else Idle, c.p.times.restarted)
  {
    hide Stands;
    hide LookAtSwitch, RestartNow;
    var p, t := c.p, c.p.times.reset;
    FreezeObeys(c, s, t);
    var s := LookAtSwitch(s, p);
    if RestartDue(s, p.times.now) {
      Consult(c, s, Restarting, EarbudRung, t);
      var (b, granted) := Breaker.Allow(s.r3.breaker, p.times.now);
      var asked := Log(WithBreaker(s, EarbudRung, b), Asked(EarbudRung, p.times.now, granted));
      if granted {
        RestartObeys(c, asked);
      } else {
        Later(c, asked, Cycling, t, p.times.restarted);
      }
    } else {
      Skip(c, s, Restarting, t);
      Later(c, s, Cycling, t, p.times.restarted);
    }
  }

  lemma CycleObeys(c: Scene, s: State)
    requires !c.connected && Stands(c, s, Acting(UsbRung), c.p.times.restarted) && InOrder(c.p.times.now, c.p.times)
    ensures var r := if c.p.cycleOff then Flow(Log(s, DongleOff), true) else CycleNow(s, c.p);
            Stands(c, r.s, if r.go then Porting else Idle, c.p.times.cycled)
  {
    hide Stands;
    var p := c.p;
    Advance(c, s, Acting(UsbRung), if p.cycleOff then DongleOff else UsbCycle(p.times.now, p.cycleOk, p.times.cycled),
            p.times.restarted, p.times.cycled);
  }

  lemma UsbObeys(c: Scene, s: State)
    requires !c.connected && Stands(c, s, Cycling, c.p.times.restarted) && InOrder(c.p.times.now, c.p.times)
    ensures var r := RungUsb(s, c.p); Stands(c, r.s, if r.go then Porting else Idle, c.p.times.cycled)
  {
    hide Stands;
    var p, t := c.p, c.p.times.restarted;
    if CycleDue(s, p.times.now) {
      Consult(c, s, Cycling, UsbRung, t);
      var (b, granted) := Breaker.Allow(s.r2.breaker, p.times.now);
      var asked := Log(WithBreaker(s, UsbRung, b), Asked(UsbRung, p.times.now, granted));
      if granted {
        CycleObeys(c, asked);
      } else {
        Later(c, asked, Porting, t, p.times.cycled);
      }
    } else {
      Skip(c, s, Cycling, t);
      Later(c, s, Porting, t, p.times.cycled);
    }
  }

  lemma PortObeys(c: Scene, s: State)
    requires !c.connected && Stands(c, s, Acting(HubRung), c.p.times.cycled) && InOrder(c.p.times.now, c.p.times)
    ensures var r := PortNow(s, c.p); Stands(c, r.s, if r.go then Rehearing else Idle, c.p.times.ported)
  {
    hide Stands;
    var p := c.p;
    Advance(c, s, Acting(HubRung), HubCycle(p.times.now, p.portOk, p.times.ported), p.times.cycled, p.times.ported);
  }

  lemma HubObeys(c: Scene, s: State)
    requires !c.connected && Stands(c, s, Porting, c.p.times.cycled) && InOrder(c.p.times.now, c.p.times)
    ensures var r := RungHub(s, c.p); Stands(c, r.s, if r.go then Rehearing else Idle, c.p.times.ported)
  {
    hide Stands;
    var p, t := c.p, c.p.times.cycled;
    if PortDue(s, p.times.now) {
      Consult(c, s, Porting, HubRung, t);
      var (b, granted) := Breaker.Allow(s.r4.breaker, p.times.now);
      var asked := Log(WithBreaker(s, HubRung, b), Asked(HubRung, p.times.now, granted));
      if granted {
        PortObeys(c, asked);
      } else {
        Later(c, asked, Rehearing, t, p.times.ported);
      }
    } else {
      Skip(c, s, Porting, t);
      Later(c, s, Rehearing, t, p.times.ported);
    }
  }

  lemma EscalateObeys(c: Scene, s: State)
    requires Stands(c, s, Arming, c.p.times.paged) && !c.connected && InOrder(c.p.times.now, c.p.times)
    ensures var r := Escalate(s, c.p); Stands(c, r.s, if r.go then Rehearing else Idle, c.p.times.ported)
  {
    hide Stands;
    var p, end := c.p, c.p.times.ported;
    PageScanObeys(c, s);
    var r1 := RungPageScan(s, p);
    Later(c, r1.s, if r1.go then Freezing else Idle, p.times.reset, end);
    if r1.go {
      EarbudObeys(c, r1.s);
      var r3 := RungEarbud(r1.s, p);
      Later(c, r3.s, if r3.go then Cycling else Idle, p.times.restarted, end);
      if r3.go {
        UsbObeys(c, r3.s);
        var r2 := RungUsb(r3.s, p);
        Later(c, r2.s, if r2.go then Porting else Idle, p.times.cycled, end);
        if r2.go {
          HubObeys(c, r2.s);
        }
      }
    }
  }

  lemma DueObeys(c: Scene, s: State, t: int)
    requires Stands(c, s, Connecting, t)
    ensures var r := AskConnect(s, c.p, c.p.times.now >= s.connect.next);
            Stands(c, r.s, if r.go then Acting(ConnectRung) else Idle, t)
  {
    hide Stands;
    if s.connect.next <= c.p.times.now {
      Consult(c, s, Connecting, ConnectRung, t);
    } else {
      Skip(c, s, Connecting, t);
    }
  }

  lemma GateObeys(c: Scene, s: State, t: int)
    requires Stands(c, s, Rehearing, t)
    ensures var r := ConnectGate(s, c.p, c.connected); Stands(c, r.s, if r.go then Acting(ConnectRung) else Idle, t)
  {
    hide Stands;
    if c.connected {
      var e := StreamReread(c.p.times.now, c.p.streamingLate);
      Advance(c, s, Rehearing, e, t, t);
      assert Enter(s, e) == Log(s, e);
      if !c.p.streamingLate {
        DueObeys(c, Log(s, e), t);
      }
    } else {
      Skip(c, s, Rehearing, t);
      DueObeys(c, s, t);
    }
  }

  lemma ToggledObeys(c: Scene, s: State)
    requires Stands(c, s, Acting(ConnectRung), c.p.times.ported) && InOrder(c.p.times.now, c.p.times)
    requires ToggleDue(s, c.p.times.now) && c.p.toggling.toggled
    ensures Stands(c, StampToggle(s, c.p), Concluding(true), c.p.times.toggled)
  {
    hide Stands;
    var k := c.p.times;
    Advance(c, s, Acting(ConnectRung), Toggled(k.now, k.toggled), k.ported, k.toggled);
    assert StampToggle(s, c.p) == Enter(s, Toggled(k.now, k.toggled));
  }

  lemma InertObeys(c: Scene, s: State)
    requires Stands(c, s, Acting(ConnectRung), c.p.times.ported) && InOrder(c.p.times.now, c.p.times)
    requires ToggleDue(s, c.p.times.now) && s.r3.forceAfter == 0 && c.p.toggling.outcome.Inert?
    ensures Stands(c, StampInert(s, c.p), Concluding(false), c.p.times.inertChurn)
  {
    hide Stands;
    var k := c.p.times;
    var e := InertStamp(k.inertToggle, k.inertForce, k.inertChurn);
    NotLater(c, s, Acting(ConnectRung), k.ported);
    Advance(c, s, Acting(ConnectRung), e, k.ported, k.inertChurn);
    assert StampInert(s, c.p) == Enter(s, e);
  }

  lemma ConcludeObeys(c: Scene, s: State, toggled: bool, o: ConnectFsm.Outcome, t: int)
    requires Stands(c, s, Concluding(toggled), t) && InOrder(c.p.times.now, c.p.times) && t <= c.p.times.inertChurn
    requires if toggled then o.Reconnecting? || o.ServiceDebt? else o.Inert?
    requires (toggled ==> t <= c.p.times.settled) && o == c.p.toggling.outcome
    ensures Stands(c, Enter(s, ConnectDone(c.p.times.now, o, c.p.times.settled)), Idle, c.p.times.inertChurn)
  {
    hide Stands, Enter;
    var k := c.p.times;
    Advance(c, s, Concluding(toggled), ConnectDone(k.now, o, k.settled), t, k.inertChurn);
  }

  // What the end of a connect pass leaves, is what the history says.
  lemma Done(s: State, p: Pass, o: ConnectFsm.Outcome)
    ensures Enter(s, ConnectDone(p.times.now, o, p.times.settled))
            == Log(s, ConnectDone(p.times.now, o, p.times.settled)).(connect := AfterConnect(s.connect, o, p))
  {
  }

  lemma ConnectObeys(c: Scene, s: State)
    requires Stands(c, s, Acting(ConnectRung), c.p.times.ported) && InOrder(c.p.times.now, c.p.times)
    requires Plausible(true, c.p.toggling) && Plausible(false, c.p.plain)
    ensures Stands(c, RungConnect(s, c.p), Idle, c.p.times.inertChurn)
  {
    hide Stands, Enter, StampToggle, StampInert, AfterConnect;
    var p, k := c.p, c.p.times;
    var allow := ShouldToggle(k.now, s.toggle.last, s.toggle.fails);
    assert allow == ToggleDue(s, k.now);
    var r := p.Connect(allow);
    if r.toggled {
      Done(StampToggle(s, p), p, r.outcome);
      ToggledObeys(c, s);
      ConcludeObeys(c, StampToggle(s, p), true, r.outcome, k.toggled);
    } else if r.outcome == ConnectFsm.Inert && s.r3.forceAfter == 0 {
      Done(StampInert(s, p), p, r.outcome);
      InertObeys(c, s);
      ConcludeObeys(c, StampInert(s, p), false, r.outcome, k.inertChurn);
    } else {
      Done(s, p, r.outcome);
      Advance(c, s, Acting(ConnectRung), ConnectDone(k.now, r.outcome, k.settled), k.ported, k.inertChurn);
    }
  }

  lemma PrepareObeys(c: Scene, s: State)
    requires Stands(c, s, Checking, c.p.times.now) && InOrder(c.p.times.now, c.p.times)
    requires c.p.pageHeld.Some? ==> c.p.pageHeld != s.page.held
    ensures var r := Prepare(s, c.p, c.connected); Stands(c, r.s, if r.go then Arming else Idle, c.p.times.paged)
  {
    hide Stands;
    var p, end := c.p, c.p.times.paged;
    DebtObeys(c, s, p.times.now);
    var debt := RungDebt(s, p);
    Later(c, debt.s, if debt.go then Repairing else Idle, p.times.now, end);
    if debt.go {
      RepairObeys(c, debt.s);
      var repair := RungRepair(debt.s, p);
      Later(c, repair.s, if repair.go then Listening else Idle, p.times.repairedNext, end);
      if repair.go {
        AudioObeys(c, repair.s);
        var audio := RungAudio(repair.s, p, c.connected);
        Later(c, audio.s, if audio.go then Paging else Idle, p.times.audio, end);
        if audio.go {
          PageObeys(c, audio.s);
        }
      }
    }
  }

  // A connected pass goes past the hardware rungs.
  lemma RungsObey(c: Scene, s: State)
    requires Stands(c, s, Arming, c.p.times.paged) && InOrder(c.p.times.now, c.p.times)
    ensures var r := if c.connected then Flow(s, true) else Escalate(s, c.p);
            Stands(c, r.s, if r.go then Rehearing else Idle, c.p.times.ported)
  {
    hide Stands;
    if c.connected {
      Skip(c, s, Arming, c.p.times.paged);
      Later(c, s, Rehearing, c.p.times.paged, c.p.times.ported);
    } else {
      EscalateObeys(c, s);
    }
  }

  lemma BeginObeys(c: Scene, s: State, t: int)
    requires Rests(c.g, c.start, s, t) && MayBegin(s.log, c.connected) && 1 <= c.start <= t <= c.p.times.now
    requires c.m == s.log
    ensures Stands(c, Begin(s, c.p, c.connected), Checking, c.p.times.now)
  {
    var e := Began(c.p.times.now, c.p.admin, c.connected);
    assert Begin(s, c.p, c.connected) == Enter(s, e);
    assert Legal(s.log, e) && c.Tells(s.log);
  }

  lemma PassObeys(c: Scene, s: State)
    requires Stands(c, s, Checking, c.p.times.now) && InOrder(c.p.times.now, c.p.times)
    requires Plausible(true, c.p.toggling) && Plausible(false, c.p.plain)
    requires c.p.pageHeld.Some? ==> c.p.pageHeld != s.page.held
    ensures Stands(c, RecoverFrom(s, c.p, c.connected), Idle, c.p.times.inertChurn)
  {
    hide Stands;
    var p, end := c.p, c.p.times.inertChurn;
    PrepareObeys(c, s);
    var ready := Prepare(s, p, c.connected);
    Later(c, ready.s, if ready.go then Arming else Idle, p.times.paged, end);
    if ready.go {
      RungsObey(c, ready.s);
      var rungs := if c.connected then Flow(ready.s, true) else Escalate(ready.s, p);
      Later(c, rungs.s, if rungs.go then Rehearing else Idle, p.times.ported, end);
      if rungs.go {
        GateObeys(c, rungs.s, p.times.ported);
        var gate := ConnectGate(rungs.s, p, c.connected);
        Later(c, gate.s, if gate.go then Acting(ConnectRung) else Idle, p.times.ported, end);
        if gate.go {
          ConnectObeys(c, gate.s);
        }
      }
    }
  }

  lemma RecoverObeys(c: Scene, s: State, t: int)
    requires Rests(c.g, c.start, s, t) && MayBegin(s.log, c.connected) && 1 <= c.start <= t && c.m == s.log
    requires InOrder(t, c.p.times) && Plausible(true, c.p.toggling) && Plausible(false, c.p.plain)
    requires c.p.pageHeld.Some? ==> c.p.pageHeld != s.page.held
    ensures var r := RecoverLink(s, c.p, c.connected);
            Rests(c.g, c.start, r, c.p.times.inertChurn) && c.Tells(r.log)
            && TallyOf(r.log) == TallyOf(s.log).(passes := TallyOf(s.log).passes + 1)
  {
    BeginObeys(c, s, t);
    PassObeys(c, Begin(s, c.p, c.connected));
  }

  // One event outside of a pass.
  lemma Between(g: History, start: int, s: State, e: Event, t: int, u: int)
    requires Sound(g, start, s, t) && t <= u && LegalAt(s.log, s, PassOf(s.log).now, Now(s.log), e)
    requires Reading(e).Some? ==> start <= t <= Reading(e).value <= u
    requires Height(Behind(s, e, Enter(s, e))) == 0
    ensures Sound(g, start, Enter(s, e), u) && Now(Enter(s, e).log) == Behind(s, e, Enter(s, e))
  {
    hide Enter, Behind, LegalAt, Settle;
    EnterLogs(s, e);
    NoGate(StateOf(Then(s.log, e)), PassOf(Then(s.log, e)), StageOf(Then(s.log, e)));
  }

  lemma ReleaseObeys(g: History, start: int, s: State, t: int)
    requires Sound(g, start, s, t) && Now(s.log) == Dropped(s.page.held)
    ensures Rests(g, start, ReleaseHold(s), t)
    ensures s.log.Then? && s.log.last.EpisodeClosed? ==> MayBegin(ReleaseHold(s).log, true)
  {
    hide Sound, Now;
    if s.page.held.Some? {
      Between(g, start, s, Closed(s.page.held.value), t, t);
    }
  }

  lemma FoundObeys(g: History, start: int, s: State, ready: bool, t: int)
    requires Sound(g, start, s, t) && s.link.upSince != 0 && Now(s.log) in {Idle, Counting(true)}
    ensures var e := Found(ready);
            Sound(g, start, Enter(s, e), t)
            && Now(Enter(s, e).log) == (if ready && Enter(s, e).link.stable >= 3 then Closing else Idle)
  {
    hide Sound, Now;
    Between(g, start, s, Found(ready), t, t);
  }

  lemma CloseObeys(g: History, start: int, s: State, t: int)
    requires Sound(g, start, s, t) && Now(s.log) == Closing
    ensures var r := ReleaseHold(Enter(s, EpisodeClosed)); Rests(g, start, r, t) && MayBegin(r.log, true)
  {
    hide Sound, Now;
    Between(g, start, s, EpisodeClosed, t, t);
    ReleaseObeys(g, start, Enter(s, EpisodeClosed), t);
  }

  lemma UpObeys(g: History, start: int, s: State, up: int, t: int)
    requires Rests(g, start, s, t) && 1 <= start <= t <= up
    ensures var r := if s.link.upSince == 0 then Enter(s, LinkUp(up)) else s;
            Sound(g, start, r, up) && r.link.upSince != 0 && Now(r.log) in {Idle, Counting(true)}
  {
    hide Now;
    if s.link.upSince == 0 {
      Between(g, start, s, LinkUp(up), t, up);
    }
  }

  // A poll that found the device connected, in terms of its events.
  lemma CountEnters(s: State, up: int, ready: bool)
    ensures var m := if s.link.upSince == 0 then Enter(s, LinkUp(up)) else s;
            var found := Enter(m, Found(ready));
            OnConnected(s, up, ready)
            == if ready && found.link.stable >= 3 then ReleaseHold(Enter(found, EpisodeClosed)) else found
  {
  }

  lemma ConnectedObeys(g: History, start: int, s: State, up: int, ready: bool, t: int)
    requires Rests(g, start, s, t) && 1 <= start <= t <= up
    ensures var r := OnConnected(s, up, ready); Rests(g, start, r, up) && MayBegin(r.log, true)
  {
    hide Sound, Now, OnConnected, ReleaseHold;
    UpObeys(g, start, s, up, t);
    var m := if s.link.upSince == 0 then Enter(s, LinkUp(up)) else s;
    FoundObeys(g, start, m, ready, up);
    var found := Enter(m, Found(ready));
    CountEnters(s, up, ready);
    if ready && found.link.stable >= 3 {
      CloseObeys(g, start, found, up);
    }
  }

  lemma DisconnectedObeys(g: History, start: int, s: State, t: int)
    requires Rests(g, start, s, t)
    ensures var r := OnDisconnected(s);
            Rests(g, start, r, t) && MayBegin(r.log, true) && MayBegin(r.log, false) && r.page == s.page
  {
    hide Now;
    Between(g, start, s, LinkDown, t, t);
    Between(g, start, Enter(s, LinkDown), Found(false), t, t);
  }

  lemma ConnectedOnlyDrops(s: State, up: int, ready: bool)
    ensures OnConnected(s, up, ready).page.held in {s.page.held, None}
  {
  }

  lemma RestsOn(g: History, start: int, s: State, t: int, u: int)
    requires Rests(g, start, s, t) && t <= u
    ensures Rests(g, start, s, u)
  {
  }

  lemma PollObeys(g: History, start: int, s: State, q: Poll, t: int)
    requires Rests(g, start, s, t) && 1 <= start <= t <= q.up && PossiblePass(s, q.up, q.pass)
    ensures Rests(g, start, HandleFound(s, q), q.pass.times.inertChurn)
  {
    hide RecoverLink, OnConnected, Sound, Now;
    var end := q.pass.times.inertChurn;
    if q.connected && !(q.audioDead && !q.watchdog) {
      ConnectedObeys(g, start, s, q.up, q.ready, t);
      ConnectedOnlyDrops(s, q.up, q.ready);
      RestsOn(g, start, OnConnected(s, q.up, q.ready), q.up, end);
      if !q.watchdog && !q.readyLate {
        var up := OnConnected(s, q.up, q.ready);
        RecoverObeys(Scene(g, start, up.log, q.pass, true), up, q.up);
      }
    } else {
      DisconnectedObeys(g, start, s, t);
      RestsOn(g, start, OnDisconnected(s), t, q.up);
      RestsOn(g, start, OnDisconnected(s), t, end);
      if !q.watchdog {
        RecoverObeys(Scene(g, start, OnDisconnected(s).log, q.pass, q.connected), OnDisconnected(s), q.up);
      }
    }
  }

  lemma ResumeObeys(g: History, start: int, s: State, t: int)
    requires Rests(g, start, s, t)
    ensures Rests(g, start, OnResume(s), t)
  {
    hide Sound, Now;
    Between(g, start, s, Resumed, t, t);
    assert OnResume(s) == ReleaseHold(Enter(s, Resumed));
    ReleaseObeys(g, start, Enter(s, Resumed), t);
  }

  lemma DeviceObeys(g: History, start: int, s: State, now: int, t: int)
    requires Rests(g, start, s, t) && 1 <= start <= t <= now && DeviceWakeAllowed(now, s.wakes.last)
    ensures Rests(g, start, OnDevice(s, now), now)
  {
    hide Sound, Now;
    Between(g, start, s, DeviceEvent(now), t, now);
    var seen := Enter(s, DeviceEvent(now));
    if DeviceWakeMayUnpark(now, s.wakes.unpark, s.wakes.churn) {
      Between(g, start, seen, Unpark(now), now, now);
      assert OnDevice(s, now) == Enter(seen, Unpark(now));
    } else {
      assert OnDevice(s, now) == seen;
    }
  }

  lemma WakeObeys(g: History, start: int, s: State, w: Wake, t: int)
    requires Rests(g, start, s, t) && 1 <= start <= t <= WakeEnd(t, w)
    ensures Rests(g, start, OnWake(s, w), WakeEnd(t, w))
  {
    hide OnResume, OnDevice;
    match w
    case Timer =>
    case Resume => ResumeObeys(g, start, s, t);
    case Device(now) =>
      if !Coalesced(s, w) {
        DeviceObeys(g, start, s, now, t);
      }
  }

  /** Every turn obeys the protocol and owes nothing at its end. */
  lemma StepObeys(g: History, start: int, s: State, turn: Turn, t: int)
    requires Rests(g, start, s, t) && Possible(s, t, turn) && 1 <= start <= t
    ensures Rests(g, start, Step(s, turn), End(t, turn))
  {
    hide HandleFound, OnWake, Sound, Now;
    ClockGoesOn(s, t, turn);
    WakeObeys(g, start, s, turn.wake, t);
    RestsOn(g, start, OnWake(s, turn.wake), WakeEnd(t, turn.wake), End(t, turn));
    if turn.poll.Some? {
      PollObeys(g, start, OnWake(s, turn.wake), turn.poll.value, WakeEnd(t, turn.wake));
    }
  }

  lemma ClockGoesOn(s: State, t: int, turn: Turn)
    requires Possible(s, t, turn)
    ensures t <= End(t, turn)
  {
  }

  /** EVERY RUN OBEYS THE PROTOCOL: after any possible run the fields hold what the
      history says, every event was legal when it happened, and every event that was
      owed has happened. */
  lemma {:induction false} RunObeys(turns: seq<Turn>, t: int)
    requires PossibleRun(Initial(), t, turns)
    ensures 1 <= t <= RunEnd(t, turns) && Rests(Start, 1, Run(Initial(), turns), RunEnd(t, turns))
    ensures Lawful(Run(Initial(), turns).log)
    decreases |turns|
  {
    if turns != [] {
      var sofar := turns[..|turns| - 1];
      RunObeys(sofar, t);
      StepObeys(Start, 1, Run(Initial(), sofar), turns[|turns| - 1], RunEnd(t, sofar));
      ClockGoesOn(Run(Initial(), sofar), RunEnd(t, sofar), turns[|turns| - 1]);
    }
  }

  /** ... and what `later` turns add is stamped after their beginning. */
  lemma {:induction false} LaterIsLater(before: seq<Turn>, later: seq<Turn>, t: int)
    requires PossibleRun(Initial(), t, before + later)
    ensures PossibleRun(Initial(), t, before) && 1 <= RunEnd(t, before)
    ensures Rests(Run(Initial(), before).log, RunEnd(t, before), Run(Initial(), before + later),
                  RunEnd(t, before + later))
    decreases |later|
  {
    if later == [] {
      assert before + later == before;
      RunObeys(before, t);
    } else {
      var n := |later| - 1;
      var sofar := before + later[..n];
      assert (before + later)[..|before + later| - 1] == sofar;
      LaterIsLater(before, later[..n], t);
      RunObeys(before, t);
      RunGoesOn(before, later[..n], t);
      StepObeys(Run(Initial(), before).log, RunEnd(t, before), Run(Initial(), sofar), later[n], RunEnd(t, sofar));
    }
  }

  lemma {:induction false} RunGoesOn(before: seq<Turn>, later: seq<Turn>, t: int)
    requires PossibleRun(Initial(), t, before + later)
    ensures RunEnd(t, before) <= RunEnd(t, before + later)
    decreases |later|
  {
    if later == [] {
      assert before + later == before;
    } else {
      var n := |later| - 1;
      var sofar := before + later[..n];
      assert (before + later)[..|before + later| - 1] == sofar;
      RunGoesOn(before, later[..n], t);
      ClockGoesOn(Run(Initial(), sofar), RunEnd(t, sofar), later[n]);
    }
  }
}
