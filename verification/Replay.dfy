/** The state of the daemon, read off its history: what each logged event leaves
    behind, without saying how a pass gets there. `Protocol` proves that the fields
    hold exactly this after every run. */
module Replay {
  import opened Config
  import opened Numeric
  import opened Backoff
  import opened Gates
  import opened Ladder
  import opened Wrappers
  import Breaker
  import ConnectFsm

  function BreakerOf(s: State, rung: Rung): Breaker.State {
    match rung
    case PageScanRung => s.r1.breaker
    case EarbudRung => s.r3.breaker
    case UsbRung => s.r2.breaker
    case HubRung => s.r4.breaker
    case ConnectRung => s.connect.breaker
  }

  function WithBreaker(s: State, rung: Rung, b: Breaker.State): State {
    match rung
    case PageScanRung => s.(r1 := s.r1.(breaker := b))
    case EarbudRung => s.(r3 := s.r3.(breaker := b))
    case UsbRung => s.(r2 := s.r2.(breaker := b))
    case HubRung => s.(r4 := s.r4.(breaker := b))
    case ConnectRung => s.(connect := s.connect.(breaker := b))
  }

  // A rung that worked: the next connect attempt waits until `next`.
  function Reconnect(s: State, next: int): State {
    s.(connect := s.connect.(fails := 0, next := next))
  }

  // A radio that came back at `done`: the earbuds get a fresh, delayed chance.
  function FreshEarbuds(s: State, done: int): State {
    s.(r3 := s.r3.(forceAfter := done + R3_POST_CYCLE_DELAY_MS, restarts := 0, last := 0))
  }

  // Events of the wake loop and of a poll.
  function EnterPoll(s: State, e: Event): State {
    match e
    case Resumed =>
      s.(toggle := ToggleClock(0, 0), audio := Audio(0, false), page := s.page.(last := 0, settleUntil := 0))
    case DeviceEvent(at) => s.(wakes := s.wakes.(last := at))
    case Unpark(at) =>
      s.(wakes := s.wakes.(unpark := at), toggle := s.toggle.(last := 0), connect := s.connect.(next := 0),
         page := s.page.(last := 0))
    case LinkUp(at) => s.(link := s.link.(upSince := at))
    case LinkDown => s.(link := s.link.(upSince := 0))
    case Found(ready) =>
      if !ready then s.(link := s.link.(stable := 0))
      else
        s.(link := s.link.(stable := SatInc(s.link.stable),
                           flaps := if s.r1.armed != 0 then SatInc(s.link.flaps) else s.link.flaps),
           connect := s.connect.(fails := 0, next := 0), toggle := s.toggle.(fails := 0))
    case EpisodeClosed =>
      s.(r1 := s.r1.(armed := 0, inEpisode := false), r2 := s.r2.(inEpisode := false),
         r3 := s.r3.(restarts := 0, last := 0, forceAfter := 0, complete := 0),
         link := s.link.(flaps := 0, downSince := 0), audio := Audio(0, false), page := s.page.(last := 0),
         connect := s.connect.(absent := 0), repair := s.repair.(fails := 0))
    case _ => s
  }

  // Events of the first half of a pass.
  function EnterPrepare(s: State, e: Event): State {
    match e
    case Began(at, admin, _) =>
      s.(link := s.link.(downSince := if s.link.downSince == 0 then at else s.link.downSince),
         repair := s.repair.(sawUnelevated := !admin,
                             fails := if admin && s.repair.sawUnelevated then 0 else s.repair.fails))
    case DebtRead(at, unpaid) =>
      if unpaid then s.(connect := s.connect.(next := at + CONNECT_REFUSED_RETRY_MS)) else s
    case RepairPass(at, present, repaired, journal) =>
      var comeback := present && s.repair.sawAbsent;
      s.(repair := s.repair.(last := at, armed := journal, sawAbsent := !present,
                             fails := if repaired || !journal then 0
                                      else if comeback then 1
                                      else SatInc(s.repair.fails)))
    case Recovered(next, done) =>
      Reconnect(s.(connect := s.connect.(absent := 0), wakes := s.wakes.(churn := done)),
                next + R2_POST_CYCLE_RECONNECT_MS)
    case AudioAsked(_, asked, accepted) => s.(audio := Audio(asked, accepted))
    case Paged(_, sent, _) => s.(page := s.page.(last := sent))
    case Answered(over, _) =>
      s.(page := s.page.(settleUntil := over + PAGE_SETTLE_MS), connect := s.connect.(next := over + PAGE_SETTLE_MS))
    case Opened(kept) => s.(page := s.page.(held := Some(kept)))
    case Closed(kept) => if s.page.held == Some(kept) then s.(page := s.page.(held := None)) else s
    case _ => s
  }

  // Events of the hardware rungs.
  function EnterRung(s: State, e: Event): State {
    match e
    case Escalating(at) =>
      var since := if s.r1.armed == 0 then at else s.r1.armed;
      var forced := s.link.flaps >= FLAP_FORCE_R1_AFTER && since > at - R1_ARM_MS;
      s.(r1 := s.r1.(armed := if forced then at - R1_ARM_MS else since))
    case FreezeRead(at, frozen) => s.(freeze := Freeze(frozen, at))
    case PageScan(at, ok, done) =>
      var s := s.(r1 := s.r1.(last := at, inEpisode := true, rejects := if ok then 0 else SatInc(s.r1.rejects)),
                  wakes := s.wakes.(churn := done));
      if ok then Reconnect(s, at + R1_POST_RESET_RECONNECT_MS) else s
    case PageScanMuted => s.(r1 := s.r1.(inEpisode := true))
    case EarbudRestart(at, ok, done) =>
      var s := s.(r3 := s.r3.(last := at, restarts := SatInc(s.r3.restarts), forceAfter := 0,
                              complete := if ok then done else s.r3.complete),
                  wakes := s.wakes.(churn := done));
      if ok then Reconnect(s, done + R3_POST_RESTART_RECONNECT_MS) else s
    case UsbCycle(at, ok, done) =>
      var s := s.(r2 := s.r2.(last := at, inEpisode := s.r2.inEpisode || ok,
                              fails := if ok then 0 else SatInc(s.r2.fails)),
                  wakes := s.wakes.(churn := done));
      if ok then Reconnect(FreshEarbuds(s, done), done + R2_POST_CYCLE_RECONNECT_MS) else s
    case HubCycle(at, ok, done) =>
      var s := s.(r4 := s.r4.(last := at, fails := if ok then 0 else SatInc(s.r4.fails)),
                  wakes := s.wakes.(churn := done));
      if ok then Reconnect(FreshEarbuds(s, done), done + R4_POST_CYCLE_RECONNECT_MS) else s
    case _ => s
  }

  // What a connect pass at `at` leaves of the backoff.
  function Concluded(c: Connect, at: int, o: ConnectFsm.Outcome, settled: int): Connect {
    if o.Connected? then c.(fails := 0, next := 0, absent := 0)
    else if o.Reconnecting? then c.(fails := 0, next := settled + CONNECT_TOGGLE_SETTLE_MS)
    else if o.NotFound? || o.Failed? then
      var fails := SatInc(c.fails);
      c.(fails := fails, next := at + ConnectBackoff(fails), absent := if o.NotFound? then SatInc(c.absent) else 0)
    else c.(next := at + CONNECT_REFUSED_RETRY_MS)
  }

  // Events of the connect pass.
  function EnterConnect(s: State, e: Event): State {
    match e
    case Asked(rung, at, _) => WithBreaker(s, rung, Breaker.Allow(BreakerOf(s, rung), at).0)
    case Toggled(_, done) =>
      s.(toggle := ToggleClock(done, SatInc(s.toggle.fails)), wakes := s.wakes.(churn := done))
    case InertStamp(taken, force, done) =>
      s.(toggle := ToggleClock(taken, SatInc(s.toggle.fails)), r3 := s.r3.(forceAfter := force),
         wakes := s.wakes.(churn := done))
    case ConnectDone(at, verdict, settled) => s.(connect := Concluded(s.connect, at, verdict, settled))
    case _ => s
  }

  /** What one event leaves behind. */
  function Enter(s: State, e: Event): State {
    EnterConnect(EnterRung(EnterPrepare(EnterPoll(s, e), e), e), e).(log := Then(s.log, e))
  }

  /** The state after a history. */
  function StateOf(h: History): State {
    match h
    case Start => Initial()
    case Then(p, e) => Enter(StateOf(p), e)
  }

  lemma {:induction false} LogIs(h: History)
    ensures StateOf(h).log == h
  {
    if h.Then? {
      LogIs(h.before);
    }
  }

  /** The pass now or last under way: the reading it began with, and whether the
      transport was connected. */
  datatype PassAt = PassAt(now: int, connected: bool)

  function PassOf(h: History): PassAt {
    match h
    case Start => PassAt(0, false)
    case Then(p, e) => if e.Began? then PassAt(e.at, e.connected) else PassOf(p)
  }

  /** The latest clock reading that an event adds to those before it. */
  function Reading(e: Event): Option<int> {
    match e
    case DeviceEvent(at) => Some(at)
    case Unpark(at) => Some(at)
    case LinkUp(at) => Some(at)
    case Began(at, _, _) => Some(at)
    case Recovered(next, _) => Some(next)
    case AudioAsked(_, asked, _) => Some(asked)
    case Paged(_, sent, _) => Some(sent)
    case Answered(over, _) => Some(over)
    case PageScan(_, _, done) => Some(done)
    case EarbudRestart(_, _, done) => Some(done)
    case UsbCycle(_, _, done) => Some(done)
    case HubCycle(_, _, done) => Some(done)
    case Toggled(_, done) => Some(done)
    case InertStamp(_, _, done) => Some(done)
    case ConnectDone(_, verdict, settled) => if verdict.Reconnecting? then Some(settled) else None
    case _ => None
  }

  /** The latest reading of a history. */
  function Clock(h: History): int {
    match h
    case Start => 0
    case Then(p, e) => if Reading(e).Some? then Reading(e).value else Clock(p)
  }

  /** How many resumes, device events, polls and passes there were. */
  datatype Tally = Tally(resumes: nat, devices: nat, polls: nat, passes: nat)

  function Count(x: Tally, e: Event): Tally {
    match e
    case Resumed => x.(resumes := x.resumes + 1)
    case DeviceEvent(_) => x.(devices := x.devices + 1)
    case Found(_) => x.(polls := x.polls + 1)
    case Began(_, _, _) => x.(passes := x.passes + 1)
    case _ => x
  }

  function TallyOf(h: History): Tally {
    match h
    case Start => Tally(0, 0, 0, 0)
    case Then(p, e) => Count(TallyOf(p), e)
  }

  lemma TallyUnfolds()
    ensures forall p: History, e: Event {:trigger TallyOf(Then(p, e))} :: TallyOf(Then(p, e)) == Count(TallyOf(p), e)
  {
  }
}
