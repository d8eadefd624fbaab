/** How far apart the rungs of a run are, and behind what they wait: the timers of
    `ladder.rs` and `page_fsm.rs` as distances between logged events. */
module Distances {
  import opened Config
  import opened Numeric
  import opened Ladder
  import opened Runs
  import opened Replay
  import opened Protocol
  import opened Wrappers
  import Conformance

  // -------------------------------------------------------------------------
  // Attempts of one rung
  // -------------------------------------------------------------------------

  /** The rungs whose timer nothing resets, and its length. */
  predicate Timed(rung: Rung) {
    rung.PageScanRung? || rung.UsbRung? || rung.HubRung?
  }

  function Interval(rung: Rung): int {
    match rung
    case PageScanRung => 60_000
    case EarbudRung => 90_000
    case UsbRung => 120_000
    case HubRung => 300_000
    case ConnectRung => 0
  }

  function LastOf(s: State, rung: Rung): int {
    match rung
    case PageScanRung => s.r1.last
    case EarbudRung => s.r3.last
    case UsbRung => s.r2.last
    case HubRung => s.r4.last
    case ConnectRung => 0
  }

  lemma LastEnters(s: State, e: Event, rung: Rung)
    requires Timed(rung)
    ensures LastOf(Enter(s, e), rung) == if IsAction(rung, e) then e.at else LastOf(s, rung)
  {
  }

  lemma {:induction false} LastIsPast(h: History, rung: Rung)
    requires Lawful(h) && Timed(rung)
    ensures 0 <= LastOf(StateOf(h), rung) <= PassOf(h).now
  {
    if h.Then? {
      hide LegalAt, Now, Enter;
      LastIsPast(h.before, rung);
      LastEnters(StateOf(h.before), h.last, rung);
      PassBegan(h.before);
      if IsAction(rung, h.last) {
        Stamped(h.before, h.last);
      }
    }
  }

  lemma {:induction false} Remembered(h: History, rung: Rung, i: nat)
    requires Lawful(h) && Timed(rung) && i < |Events(h)| && IsAction(rung, Events(h)[i])
    ensures 1 <= Events(h)[i].at <= LastOf(StateOf(h), rung)
  {
    hide LegalAt, Now, Enter;
    LastEnters(StateOf(h.before), h.last, rung);
    if IsAction(rung, h.last) {
      Stamped(h.before, h.last);
    }
    if i < |Events(h.before)| {
      Remembered(h.before, rung, i);
      LastIsPast(h.before, rung);
    }
  }

  lemma AttemptBehind(h: History, rung: Rung, i: nat, j: nat)
    requires Lawful(h) && Timed(rung) && i < j < |Events(h)|
    requires IsAction(rung, Events(h)[i]) && IsAction(rung, Events(h)[j])
    ensures Events(h)[j].at - Events(h)[i].at >= Interval(rung)
  {
    hide Legal, Enter;
    var p := Upto(h, j);
    Moment(h, j);
    assert Events(p)[i] == Events(h)[i];
    Remembered(p, rung, i);
    ActsAtGate(p, rung, Events(h)[j]);
  }

  /** THE TIMERS OF THE RUNGS: in every run any two page-scan toggles are at least
      60 s apart, any two usb-cycles 2 min and any two hub port cycles 5 min. */
  lemma {:induction false} AttemptsKeepTheirInterval(turns: seq<Turn>, t: int, rung: Rung, i: nat, j: nat)
    requires PossibleRun(Initial(), t, turns) && Timed(rung) && i < j < |Did(turns)|
    requires IsAction(rung, Did(turns)[i]) && IsAction(rung, Did(turns)[j])
    ensures Did(turns)[j].at - Did(turns)[i].at >= Interval(rung)
  {
    hide Legal;
    Conformance.RunObeys(turns, t);
    AttemptBehind(Run(Initial(), turns).log, rung, i, j);
  }

  // -------------------------------------------------------------------------
  // The earbud rung
  // -------------------------------------------------------------------------

  lemma {:induction false} InOrderSofar(h: History, i: nat)
    requires Lawful(h) && i < |Events(h)|
    ensures var e := Events(h)[i];
            (InPass(e) ==> 1 <= e.at <= PassOf(h).now) && (Reading(e).Some? ==> 1 <= Reading(e).value <= Clock(h))
  {
    hide LegalAt, Now;
    PassBegan(h.before);
    if i < |Events(h.before)| {
      InOrderSofar(h.before, i);
    } else if InPass(h.last) {
      Stamped(h.before, h.last);
    }
  }

  // A cycle that brought the radio back.
  predicate CameBack(e: Event) {
    (e.UsbCycle? || e.HubCycle?) && e.ok
  }

  /** Nothing between events `i` and `j` gave the earbuds a fresh chance. */
  predicate Unrefreshed(es: seq<Event>, i: nat, j: nat)
    requires j <= |es|
  {
    forall k :: i < k < j ==> !es[k].EpisodeClosed? && !es[k].InertStamp? && !CameBack(es[k])
  }

  lemma EarbudEnters(s: State, e: Event)
    ensures var r := Enter(s, e).r3;
            if e.EarbudRestart? then
              r.last == e.at && r.restarts == SatInc(s.r3.restarts) && r.forceAfter == 0
              && r.complete == (if e.ok then e.done else s.r3.complete)
            else if e.EpisodeClosed? then
              r.last == 0 && r.restarts == 0 && r.forceAfter == 0 && r.complete == 0
            else if CameBack(e) then
              r.last == 0 && r.restarts == 0 && r.forceAfter == e.done + R3_POST_CYCLE_DELAY_MS
              && r.complete == s.r3.complete
            else if e.InertStamp? then r == s.r3.(forceAfter := e.force)
            else r.last == s.r3.last && r.restarts == s.r3.restarts && r.forceAfter == s.r3.forceAfter
                 && r.complete == s.r3.complete
  {
  }

  // The events of a shorter history, seen from a longer one.
  lemma Shorter(h: History)
    requires h.Then?
    ensures |Events(h)| == |Events(h.before)| + 1 && Events(h)[|Events(h)| - 1] == h.last
    ensures forall k :: 0 <= k < |Events(h.before)| ==> Events(h)[k] == Events(h.before)[k]
  {
  }

  lemma {:induction false} RestartStands(h: History, i: nat)
    requires Lawful(h) && i < |Events(h)| && Events(h)[i].EarbudRestart? && Unrefreshed(Events(h), i, |Events(h)|)
    ensures var s := StateOf(h); s.r3.forceAfter == 0 && 1 <= s.r3.restarts && Events(h)[i].at <= s.r3.last
  {
    hide LegalAt, Now, Enter;
    Shorter(h);
    InOrderSofar(h, i);
    EarbudEnters(StateOf(h.before), h.last);
    if i < |Events(h.before)| {
      RestartStands(h.before, i);
      if h.last.EarbudRestart? {
        Stamped(h.before, h.last);
        InOrderSofar(h.before, i);
      }
    }
  }

  lemma {:induction false} TwoRestartsStand(h: History, i: nat, k: nat)
    requires Lawful(h) && i < k < |Events(h)| && Unrefreshed(Events(h), i, |Events(h)|)
    requires Events(h)[i].EarbudRestart? && Events(h)[k].EarbudRestart?
    ensures StateOf(h).r3.forceAfter == 0 && 2 <= StateOf(h).r3.restarts
  {
    hide LegalAt, Now, Enter;
    Shorter(h);
    EarbudEnters(StateOf(h.before), h.last);
    if k < |Events(h.before)| {
      TwoRestartsStand(h.before, i, k);
    } else {
      RestartStands(h.before, i);
    }
  }

  // No restart, no other reason for one and no closing between `i` and `j`.
  predicate Unused(es: seq<Event>, i: nat, j: nat)
    requires j <= |es|
  {
    Unrefreshed(es, i, j) && forall k :: i < k < j ==> !es[k].EarbudRestart?
  }

  // The same distance, seen from the history before event `j`.
  lemma Unrefreshes(h: History, i: nat, j: nat)
    requires i < j <= |Events(h)|
    ensures Events(Upto(h, j))[i] == Events(h)[i]
    ensures Unrefreshed(Events(h), i, j) ==> Unrefreshed(Events(Upto(h, j)), i, j)
    ensures Unused(Events(h), i, j) ==> Unused(Events(Upto(h, j)), i, j)
  {
    assert forall n :: 0 <= n < j ==> Events(Upto(h, j))[n] == Events(h)[n];
  }

  lemma RestartBehind(h: History, i: nat, j: nat)
    requires Lawful(h) && i < j < |Events(h)| && Unrefreshed(Events(h), i, j)
    requires Events(h)[i].EarbudRestart? && Events(h)[j].EarbudRestart?
    ensures Events(h)[j].at - Events(h)[i].at >= Interval(EarbudRung)
  {
    hide Legal, Enter;
    Moment(h, j);
    Unrefreshes(h, i, j);
    RestartStands(Upto(h, j), i);
    InOrderSofar(Upto(h, j), i);
    ActsAtGate(Upto(h, j), EarbudRung, Events(h)[j]);
  }

  lemma ThirdIsRefreshed(h: History, i: nat, k: nat, j: nat)
    requires Lawful(h) && i < k < j < |Events(h)|
    requires Events(h)[i].EarbudRestart? && Events(h)[k].EarbudRestart? && Events(h)[j].EarbudRestart?
    ensures !Unrefreshed(Events(h), i, j)
  {
    hide Legal, Enter;
    Moment(h, j);
    ActsAtGate(Upto(h, j), EarbudRung, Events(h)[j]);
    if Unrefreshed(Events(h), i, j) {
      Unrefreshes(h, i, j);
      assert Events(Upto(h, j))[k] == Events(h)[k];
      TwoRestartsStand(Upto(h, j), i, k);
    }
  }

  /** THE EARBUD RUNG: unless an episode was closed, a cycle brought the radio back
      or an inert stack asked for a restart in between, two restarts are at least
      90 s apart ... */
  lemma {:induction false} RestartsKeepTheirInterval(turns: seq<Turn>, t: int, i: nat, j: nat)
    requires PossibleRun(Initial(), t, turns) && i < j < |Did(turns)| && Unrefreshed(Did(turns), i, j)
    requires Did(turns)[i].EarbudRestart? && Did(turns)[j].EarbudRestart?
    ensures Did(turns)[j].at - Did(turns)[i].at >= Interval(EarbudRung)
  {
    hide Legal;
    Conformance.RunObeys(turns, t);
    RestartBehind(Run(Initial(), turns).log, i, j);
  }

  /** ... and there is no third. */
  lemma {:induction false} NoThirdRestart(turns: seq<Turn>, t: int, i: nat, k: nat, j: nat)
    requires PossibleRun(Initial(), t, turns) && i < k < j < |Did(turns)|
    requires Did(turns)[i].EarbudRestart? && Did(turns)[k].EarbudRestart? && Did(turns)[j].EarbudRestart?
    ensures !Unrefreshed(Did(turns), i, j)
  {
    hide Legal;
    Conformance.RunObeys(turns, t);
    ThirdIsRefreshed(Run(Initial(), turns).log, i, k, j);
  }

  lemma {:induction false} RefreshStands(h: History, i: nat)
    requires Lawful(h) && i < |Events(h)| && CameBack(Events(h)[i]) && Unused(Events(h), i, |Events(h)|)
    ensures StateOf(h).r3.forceAfter == Events(h)[i].done + R3_POST_CYCLE_DELAY_MS
  {
    hide LegalAt, Now, Enter;
    Shorter(h);
    EarbudEnters(StateOf(h.before), h.last);
    if i < |Events(h.before)| {
      RefreshStands(h.before, i);
    }
  }

  lemma RefreshBehind(h: History, i: nat, j: nat)
    requires Lawful(h) && i < j < |Events(h)| && Unused(Events(h), i, j)
    requires CameBack(Events(h)[i]) && Events(h)[j].EarbudRestart?
    ensures Events(h)[j].at - Events(h)[i].done >= R3_POST_CYCLE_DELAY_MS
  {
    hide Legal, Enter;
    Moment(h, j);
    Unrefreshes(h, i, j);
    RefreshStands(Upto(h, j), i);
    InOrderSofar(Upto(h, j), i);
    ActsAtGate(Upto(h, j), EarbudRung, Events(h)[j]);
  }

  /** The restart that a cycle asks for comes at least 15 s after the cycle. */
  lemma {:induction false} RefreshIsDelayed(turns: seq<Turn>, t: int, i: nat, j: nat)
    requires PossibleRun(Initial(), t, turns) && i < j < |Did(turns)| && Unused(Did(turns), i, j)
    requires CameBack(Did(turns)[i]) && Did(turns)[j].EarbudRestart?
    ensures Did(turns)[j].at - Did(turns)[i].done >= R3_POST_CYCLE_DELAY_MS
  {
    hide Legal;
    Conformance.RunObeys(turns, t);
    RefreshBehind(Run(Initial(), turns).log, i, j);
  }

  /** No episode was closed between events `i` and `j`. */
  predicate OneEpisode(es: seq<Event>, i: nat, j: nat)
    requires j <= |es|
  {
    forall k :: i < k < j ==> !es[k].EpisodeClosed?
  }

  lemma {:induction false} DoneStands(h: History, i: nat)
    requires Lawful(h) && i < |Events(h)| && OneEpisode(Events(h), i, |Events(h)|)
    requires Events(h)[i].EarbudRestart? && Events(h)[i].ok
    ensures 1 <= Events(h)[i].done <= StateOf(h).r3.complete
  {
    hide LegalAt, Now, Enter;
    Shorter(h);
    InOrderSofar(h, i);
    EarbudEnters(StateOf(h.before), h.last);
    if i < |Events(h.before)| {
      InOrderSofar(h.before, i);
      DoneStands(h.before, i);
    }
  }

  lemma CycleBehindRestart(h: History, i: nat, j: nat)
    requires Lawful(h) && i < j < |Events(h)| && OneEpisode(Events(h), i, j)
    requires Events(h)[i].EarbudRestart? && Events(h)[i].ok && Events(h)[j].UsbCycle?
    ensures Events(h)[j].at - Events(h)[i].done >= R2_POST_R3_QUIET_MS
  {
    hide Legal, Enter;
    Moment(h, j);
    assert forall n :: 0 <= n < j ==> Events(Upto(h, j))[n] == Events(h)[n];
    DoneStands(Upto(h, j), i);
    ActsAtGate(Upto(h, j), UsbRung, Events(h)[j]);
  }

  /** A usb-cycle comes at least 30 s after every restart of its episode that
      worked. */
  lemma {:induction false} CyclesWaitForRestarts(turns: seq<Turn>, t: int, i: nat, j: nat)
    requires PossibleRun(Initial(), t, turns) && i < j < |Did(turns)| && OneEpisode(Did(turns), i, j)
    requires Did(turns)[i].EarbudRestart? && Did(turns)[i].ok && Did(turns)[j].UsbCycle?
    ensures Did(turns)[j].at - Did(turns)[i].done >= R2_POST_R3_QUIET_MS
  {
    hide Legal;
    Conformance.RunObeys(turns, t);
    CycleBehindRestart(Run(Initial(), turns).log, i, j);
  }

  // -------------------------------------------------------------------------
  // How long an episode is armed
  // -------------------------------------------------------------------------

  /** How long a rung waits from the arming of its episode on. */
  function ArmTime(rung: Rung): int {
    match rung
    case PageScanRung => 20_000
    case EarbudRung => 30_000
    case UsbRung => 45_000
    case HubRung => 90_000
    case ConnectRung => 0
  }

  /** The current episode: when a pass first came to the hardware rungs, and how many
      polls since then found the audio ready. */
  datatype Outage = Outage(first: Option<int>, blips: nat)

  function Lasts(x: Outage, e: Event): Outage {
    match e
    case EpisodeClosed => Outage(None, 0)
    case Escalating(at) => if x.first.None? then x.(first := Some(at)) else x
    case Found(ready) => if ready && x.first.Some? then x.(blips := x.blips + 1) else x
    case _ => x
  }

  function OutageOf(h: History): Outage {
    match h
    case Start => Outage(None, 0)
    case Then(p, e) => Lasts(OutageOf(p), e)
  }

  /** The arming is that first time, and after a flap storm at most 20 s earlier. */
  predicate Arms(x: Outage, s: State) {
    s.link.flaps <= x.blips
    && (x.first.None? ==> s.r1.armed == 0 && x.blips == 0)
    && (x.first.Some? && s.r1.armed != 0 ==> s.r1.armed >= x.first.value - R1_ARM_MS)
    && (x.first.Some? && x.blips < FLAP_FORCE_R1_AFTER ==> s.r1.armed == x.first.value)
  }

  lemma ArmsEnters(x: Outage, s: State, e: Event)
    requires Arms(x, s)
    requires e.Escalating? ==> 1 <= e.at && (x.first.Some? ==> 1 <= x.first.value <= e.at)
    ensures Arms(Lasts(x, e), Enter(s, e))
  {
  }

  lemma {:induction false} AllArms(h: History)
    requires Lawful(h)
    ensures Arms(OutageOf(h), StateOf(h))
    ensures var first := OutageOf(h).first; first.Some? ==> 1 <= first.value <= PassOf(h).now
  {
    if h.Then? {
      hide LegalAt, Now, Enter, Arms;
      AllArms(h.before);
      PassBegan(h.before);
      if h.last.Escalating? {
        Stamped(h.before, h.last);
      }
      ArmsEnters(OutageOf(h.before), StateOf(h.before), h.last);
    }
  }

  /** Ready polls of a stretch. */
  function Blips(es: seq<Event>): nat {
    if es == [] then 0
    else Blips(es[..|es| - 1]) + (if es[|es| - 1].Found? && es[|es| - 1].ready then 1 else 0)
  }

  lemma BlipsSnoc(es: seq<Event>, e: Event)
    ensures Blips(es + [e]) == Blips(es) + (if e.Found? && e.ready then 1 else 0)
  {
    assert (es + [e])[..|es|] == es;
  }

  // One more event at the end of a stretch.
  lemma Stretch(es: seq<Event>, i: nat, e: Event)
    requires i < |es| && OneEpisode(es, i, |es|) && !e.EpisodeClosed?
    ensures OneEpisode(es + [e], i, |es| + 1)
    ensures Blips((es + [e])[i..]) == Blips(es[i..]) + (if e.Found? && e.ready then 1 else 0)
  {
    assert (es + [e])[i..] == es[i..] + [e];
    BlipsSnoc(es[i..], e);
  }

  lemma AtTheEnd(es: seq<Event>, e: Event)
    ensures OneEpisode(es + [e], |es|, |es| + 1)
  {
  }

  lemma {:induction false} FirstAt(h: History) returns (i: nat)
    requires OutageOf(h).first.Some?
    ensures i < |Events(h)| && Events(h)[i] == Escalating(OutageOf(h).first.value)
    ensures OneEpisode(Events(h), i, |Events(h)|) && OutageOf(h).blips <= Blips(Events(h)[i..])
  {
    hide Blips, OneEpisode;
    var p := h.before;
    if OutageOf(p).first.None? {
      NoBlips(p);
      i := |Events(p)|;
      AtTheEnd(Events(p), h.last);
    } else {
      i := FirstAt(p);
      Stretch(Events(p), i, h.last);
    }
  }

  lemma {:induction false} NoBlips(h: History)
    ensures OutageOf(h).first.None? ==> OutageOf(h).blips == 0
  {
    if h.Then? {
      NoBlips(h.before);
    }
  }

  lemma ArmedBehind(h: History, rung: Rung, j: nat) returns (i: nat)
    requires Lawful(h) && j < |Events(h)| && Timed(rung) && IsAction(rung, Events(h)[j])
    ensures i < j && Events(h)[i].Escalating? && OneEpisode(Events(h), i, j)
    ensures Events(h)[j].at - Events(h)[i].at >= ArmTime(rung) - R1_ARM_MS
    ensures Blips(Events(h)[i..j]) < FLAP_FORCE_R1_AFTER ==> Events(h)[j].at - Events(h)[i].at >= ArmTime(rung)
  {
    hide Legal, Enter, Lasts;
    var p := Upto(h, j);
    Moment(h, j);
    ActsAtGate(p, rung, Events(h)[j]);
    AllArms(p);
    i := FirstAt(p);
    assert forall n :: 0 <= n < j ==> Events(p)[n] == Events(h)[n];
    assert Events(p)[i..] == Events(h)[i..j];
  }

  /** EACH RUNG WAITS ITS TURN: a page-scan toggle comes 20 s, a usb-cycle 45 s and a
      hub port cycle 90 s after a pass of the same episode first came to the rungs --
      sooner, and by no more than 20 s, only if three polls since then found the
      audio ready. */
  lemma {:induction false} RungsWaitTheirTurn(turns: seq<Turn>, t: int, rung: Rung, j: nat) returns (i: nat)
    requires PossibleRun(Initial(), t, turns) && j < |Did(turns)| && Timed(rung) && IsAction(rung, Did(turns)[j])
    ensures i < j && Did(turns)[i].Escalating? && OneEpisode(Did(turns), i, j)
    ensures Did(turns)[j].at - Did(turns)[i].at >= ArmTime(rung) - R1_ARM_MS
    ensures Blips(Did(turns)[i..j]) < FLAP_FORCE_R1_AFTER ==> Did(turns)[j].at - Did(turns)[i].at >= ArmTime(rung)
  {
    hide Legal;
    Conformance.RunObeys(turns, t);
    i := ArmedBehind(Run(Initial(), turns).log, rung, j);
  }

  /** What asks for an early restart of the earbuds, and from when on. */
  predicate AsksForRestart(e: Event) {
    e.InertStamp? || CameBack(e)
  }

  function RestartFrom(e: Event): int
    requires AsksForRestart(e)
  {
    if e.InertStamp? then e.force else e.done + R3_POST_CYCLE_DELAY_MS
  }

  lemma {:induction false} AskedForAt(h: History) returns (i: nat)
    requires StateOf(h).r3.forceAfter != 0
    ensures i < |Events(h)| && AsksForRestart(Events(h)[i]) && Unused(Events(h), i, |Events(h)|)
    ensures StateOf(h).r3.forceAfter == RestartFrom(Events(h)[i])
  {
    hide Enter;
    Shorter(h);
    EarbudEnters(StateOf(h.before), h.last);
    if AsksForRestart(h.last) {
      i := |Events(h.before)|;
    } else {
      i := AskedForAt(h.before);
    }
  }

  lemma RestartReason(h: History, j: nat) returns (i: nat)
    requires Lawful(h) && j < |Events(h)| && Events(h)[j].EarbudRestart?
    ensures i < j && OneEpisode(Events(h), i, j)
    ensures if AsksForRestart(Events(h)[i]) then
              Unused(Events(h), i, j) && Events(h)[j].at >= RestartFrom(Events(h)[i])
            else
              Events(h)[i].Escalating? && Events(h)[j].at - Events(h)[i].at >= ArmTime(EarbudRung) - R1_ARM_MS
              && (Blips(Events(h)[i..j]) < FLAP_FORCE_R1_AFTER ==>
                    Events(h)[j].at - Events(h)[i].at >= ArmTime(EarbudRung))
  {
    hide Legal, Enter, Lasts;
    var p := Upto(h, j);
    Moment(h, j);
    ActsAtGate(p, EarbudRung, Events(h)[j]);
    assert forall n :: 0 <= n < j ==> Events(p)[n] == Events(h)[n];
    if StateOf(p).r3.forceAfter != 0 {
      i := AskedForAt(p);
    } else {
      AllArms(p);
      i := FirstAt(p);
      assert Events(p)[i..] == Events(h)[i..j];
    }
  }

  /** ... and an earbud restart comes when an inert stack or a cycle asked for one,
      at the time asked for, or else 30 s after the rungs were first reached. */
  lemma {:induction false} RestartsHaveAReason(turns: seq<Turn>, t: int, j: nat) returns (i: nat)
    requires PossibleRun(Initial(), t, turns) && j < |Did(turns)| && Did(turns)[j].EarbudRestart?
    ensures i < j && OneEpisode(Did(turns), i, j)
    ensures if AsksForRestart(Did(turns)[i]) then
              Unused(Did(turns), i, j) && Did(turns)[j].at >= RestartFrom(Did(turns)[i])
            else
              Did(turns)[i].Escalating? && Did(turns)[j].at - Did(turns)[i].at >= ArmTime(EarbudRung) - R1_ARM_MS
              && (Blips(Did(turns)[i..j]) < FLAP_FORCE_R1_AFTER ==>
                    Did(turns)[j].at - Did(turns)[i].at >= ArmTime(EarbudRung))
  {
    hide Legal;
    Conformance.RunObeys(turns, t);
    i := RestartReason(Run(Initial(), turns).log, j);
  }
}
