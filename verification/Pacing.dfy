/** How often the daemon re-installs a driver, and what may cancel that limit:
    the wake loop and the toggle clock of `worker.rs`. */
module Pacing {
  import opened Config
  import opened Numeric
  import opened Backoff
  import opened Ladder
  import opened Runs
  import opened Replay
  import opened Protocol
  import opened Wrappers
  import Conformance

  // -------------------------------------------------------------------------
  // The clocks, read off the history
  // -------------------------------------------------------------------------

  /** When we finished rewriting the device tree, if `e` did. */
  function Churn(e: Event): Option<int> {
    match e
    case Recovered(_, done) => Some(done)
    case PageScan(_, _, done) => Some(done)
    case EarbudRestart(_, _, done) => Some(done)
    case UsbCycle(_, _, done) => Some(done)
    case HubCycle(_, _, done) => Some(done)
    case Toggled(_, done) => Some(done)
    case InertStamp(_, _, done) => Some(done)
    case _ => None
  }

  /** When the limit was last cancelled by a device event, when we last finished
      churning the tree, when the toggle's turn was last taken and how often since
      the last resume or ready poll (0 = never), and how many unparks, toggles, and
      resumes or ready polls there were. */
  datatype Clocks = Clocks(
    unpark: int, churn: int, toggle: ToggleClock, unparks: nat, toggles: nat, breaks: nat)

  function Tick(c: Clocks, e: Event): Clocks {
    var c := if Churn(e).Some? then c.(churn := Churn(e).value) else c;
    match e
    case Unpark(at) => c.(unpark := at, toggle := c.toggle.(last := 0), unparks := c.unparks + 1)
    case Resumed => c.(toggle := ToggleClock(0, 0), breaks := c.breaks + 1)
    case Found(ready) => if ready then c.(toggle := c.toggle.(fails := 0), breaks := c.breaks + 1) else c
    case Toggled(_, done) => c.(toggle := ToggleClock(done, SatInc(c.toggle.fails)), toggles := c.toggles + 1)
    case InertStamp(taken, _, _) => c.(toggle := ToggleClock(taken, SatInc(c.toggle.fails)))
    case _ => c
  }

  function ClocksOf(h: History): Clocks {
    match h
    case Start => Clocks(0, 0, ToggleClock(0, 0), 0, 0, 0)
    case Then(p, e) => Tick(ClocksOf(p), e)
  }

  // -------------------------------------------------------------------------
  // The invariant
  // -------------------------------------------------------------------------

  /** The fields are those clocks, and no stamp is later than `t`. */
  predicate Agrees(c: Clocks, s: State, t: int) {
    s.wakes.unpark == c.unpark && s.wakes.churn == c.churn && s.toggle == c.toggle
    && 0 <= c.unpark <= t && 0 <= c.churn <= t && 0 <= c.toggle.last <= t
  }

  // Up to its connect pass, a pass finds the toggle clock as it was at the beginning.
  predicate Settled(h: History) {
    Busy(StageOf(h)) && !StageOf(h).Concluding? ==> StateOf(h).toggle.last <= PassOf(h).now
  }

  predicate OnTime(h: History) {
    Agrees(ClocksOf(h), StateOf(h), Clock(h)) && Settled(h)
  }

  // The stamps of a legal event.
  predicate InTime(e: Event, t: int, u: int) {
    match e
    case Unpark(at) => 1 <= at == t
    case Recovered(_, done) => 1 <= t <= done <= u
    case InertStamp(taken, _, done) => 1 <= t <= taken <= done == u
    case _ => t <= u && (Churn(e).Some? ==> 1 <= t <= Churn(e).value == u)
  }

  lemma Keeps(c: Clocks, s: State, e: Event, t: int, u: int)
    requires Agrees(c, s, t) && t <= u && InTime(e, t, u)
    ensures Agrees(Tick(c, e), Enter(s, e), u)
  {
  }

  lemma UnparkStage(h: History, s: State, now: int, x: Stage, e: Event)
    requires LegalAt(h, s, now, x, e) && e.Unpark?
    ensures x == Unparking(e.at)
  {
    hide ToggleDue, MayBegin;
  }

  lemma UnparkAt(h: History, e: Event)
    requires Legal(h, e) && e.Unpark?
    ensures h.Then? && h.last == DeviceEvent(e.at) && Unparks(StateOf(h).wakes, e.at)
  {
    hide StateOf, Settle, LegalAt;
    UnparkStage(h, StateOf(h), PassOf(h).now, Now(h), e);
    Settles(StateOf(h), PassOf(h), StageOf(h));
  }

  // Events that end a wait of a pass are stamped behind it.
  lemma ChurnsInPass(h: History, s: State, now: int, x: Stage, e: Event)
    requires LegalAt(h, s, now, x, e) && Churn(e).Some?
    ensures Busy(x)
    ensures e.Recovered? ==> Clock(h) <= e.done <= e.next
    ensures e.InertStamp? ==> Clock(s.log) <= e.taken <= e.done
  {
    hide ToggleDue;
  }

  lemma IsInTime(h: History, e: Event)
    requires Lawful(Then(h, e))
    ensures InTime(e, Clock(h), Clock(Then(h, e)))
  {
    hide LegalAt, Now, Enter;
    PassBegan(h);
    LogIs(h);
    if e.Unpark? {
      UnparkAt(h, e);
    } else if Churn(e).Some? {
      ChurnsInPass(h, StateOf(h), PassOf(h).now, Now(h), e);
    }
  }

  // What a legal event of a pass leads to.
  lemma TurnTaken(h: History, s: State, now: int, x: Stage, e: Event)
    requires LegalAt(h, s, now, x, e) && Busy(x)
    ensures x.Concluding? ==> e.ConnectDone?
    ensures !e.Resumed? && !e.Unpark? && !e.Began?
  {
    hide ToggleDue;
  }

  lemma ToggleStays(s: State, e: Event)
    requires !e.Resumed? && !e.Unpark?
    ensures Enter(s, e).toggle.last == s.toggle.last || e.Toggled? || e.InertStamp?
  {
  }

  lemma SettledNext(h: History, e: Event)
    requires Lawful(Then(h, e)) && OnTime(h)
    ensures Settled(Then(h, e))
  {
    hide LegalAt, Settle, Enter;
    if Busy(Now(h)) {
      BusyBehind(h);
      NoGate(StateOf(h), PassOf(h), StageOf(h));
      TurnTaken(h, StateOf(h), PassOf(h).now, Now(h), e);
      ToggleStays(StateOf(h), e);
    } else if e.Began? {
      ToggleStays(StateOf(h), e);
    } else {
      NotBusy(h, e);
    }
  }

  lemma {:induction false} AllOnTime(h: History)
    requires Lawful(h)
    ensures OnTime(h)
  {
    if h.Then? {
      hide LegalAt, Now, Enter, Agrees, InTime, Settled;
      AllOnTime(h.before);
      PassBegan(h.before);
      IsInTime(h.before, h.last);
      Keeps(ClocksOf(h.before), StateOf(h.before), h.last, Clock(h.before), Clock(h));
      SettledNext(h.before, h.last);
    }
  }

  // -------------------------------------------------------------------------
  // The theorems, over the events of a whole run
  // -------------------------------------------------------------------------

  lemma {:induction false} StampsAreRemembered(h: History, i: nat)
    requires Lawful(h) && i < |Events(h)|
    ensures Events(h)[i].Unpark? ==> 0 < Events(h)[i].at <= ClocksOf(h).unpark
    ensures Churn(Events(h)[i]).Some? ==> 0 < Churn(Events(h)[i]).value <= ClocksOf(h).churn
  {
    hide LegalAt, Enter, Now, Settled;
    AllOnTime(h.before);
    IsInTime(h.before, h.last);
    if i < |Events(h.before)| {
      StampsAreRemembered(h.before, i);
    }
  }

  lemma UnparkBehind(h: History, i: nat, j: nat)
    requires Lawful(h) && i < j < |Events(h)| && Events(h)[j].Unpark?
    ensures Events(h)[i].Unpark? ==> Events(h)[j].at - Events(h)[i].at >= DEVICE_WAKE_UNPARK_MS
    ensures Churn(Events(h)[i]).Some? ==> Events(h)[j].at - Churn(Events(h)[i]).value >= SELF_CHURN_ECHO_MS
  {
    hide Legal, Enter, Settled;
    var p := Upto(h, j);
    Moment(h, j);
    assert Events(p)[i] == Events(h)[i];
    StampsAreRemembered(p, i);
    UnparkAt(p, Events(h)[j]);
    AllOnTime(p);
    IsInTime(p, Events(h)[j]);
  }

  /** UNPARKS ARE RARE AND NEVER OUR OWN ECHO: in every run, whatever resumes,
      rungs and device events come in between, an unpark comes at least 60 s after
      every earlier one and at least 15 s after the end of every rewriting of the
      device tree before it. */
  lemma {:induction false} UnparksKeepTheirDistance(turns: seq<Turn>, t: int, i: nat, j: nat)
    requires PossibleRun(Initial(), t, turns) && i < j < |Did(turns)| && Did(turns)[j].Unpark?
    ensures Did(turns)[i].Unpark? ==> Did(turns)[j].at - Did(turns)[i].at >= DEVICE_WAKE_UNPARK_MS
    ensures Churn(Did(turns)[i]).Some? ==> Did(turns)[j].at - Churn(Did(turns)[i]).value >= SELF_CHURN_ECHO_MS
  {
    hide Legal;
    Conformance.RunObeys(turns, t);
    UnparkBehind(Run(Initial(), turns).log, i, j);
  }

  function TakeTurn(n: u32, e: Event): u32 {
    if e.Resumed? || (e.Found? && e.ready) then 0
    else if e.Toggled? || e.InertStamp? then SatInc(n)
    else n
  }

  /** Turns taken at the toggle clock since the last resume or ready poll. */
  function Turns(es: seq<Event>): u32 {
    if es == [] then 0 else TakeTurn(Turns(es[..|es| - 1]), es[|es| - 1])
  }

  lemma TurnsSnoc(es: seq<Event>, e: Event)
    ensures Turns(es + [e]) == TakeTurn(Turns(es), e)
  {
    assert (es + [e])[..|es|] == es;
  }

  lemma TickFails(c: Clocks, e: Event)
    ensures Tick(c, e).toggle.fails == TakeTurn(c.toggle.fails, e)
  {
  }

  lemma {:induction false} TurnsAreCounted(h: History)
    ensures ClocksOf(h).toggle.fails == Turns(Events(h))
  {
    match h
    case Start =>
    case Then(p, e) =>
      TurnsAreCounted(p);
      TickFails(ClocksOf(p), e);
      TurnsSnoc(Events(p), e);
  }

  // Nothing between events `i` and `j` cancelled the limit.
  predicate Parked(es: seq<Event>, i: nat, j: nat)
    requires j <= |es|
  {
    forall k :: i < k < j ==> !es[k].Unpark? && !es[k].Resumed?
  }

  // The toggle clock still holds a time at or after the toggle at `i`.
  lemma {:induction false} LimitStands(h: History, i: nat)
    requires Lawful(h) && i < |Events(h)| && Events(h)[i].Toggled? && Parked(Events(h), i, |Events(h)|)
    ensures 0 < Events(h)[i].done <= ClocksOf(h).toggle.last
  {
    hide LegalAt, Enter, Now, Settled;
    AllOnTime(h.before);
    IsInTime(h.before, h.last);
    var es := Events(h.before);
    if i < |es| {
      assert Events(h)[|es|] == h.last;
      assert forall k :: i < k < |es| ==> Events(h)[k] == es[k];
      LimitStands(h.before, i);
    }
  }

  lemma ParkedPrefix(es: seq<Event>, i: nat, j: nat)
    requires i < j <= |es| && Parked(es, i, j)
    ensures es[..j][i] == es[i] && Parked(es[..j], i, j)
  {
  }

  /** A toggle is legal only when its turn has come. */
  lemma ToggleAt(h: History, s: State, now: int, x: Stage, e: Event)
    requires LegalAt(h, s, now, x, e) && e.Toggled?
    ensures e.at == now && x == Acting(ConnectRung) && ToggleDue(s, now)
  {
    hide ToggleDue;
  }

  lemma ToggleBehind(h: History, i: nat, j: nat)
    requires Lawful(h) && i < j < |Events(h)|
    requires Events(h)[i].Toggled? && Events(h)[j].Toggled? && Parked(Events(h), i, j)
    ensures Events(h)[j].at - Events(h)[i].done >= ToggleInterval(Turns(Events(h)[..j]))
  {
    hide Legal, Enter, Now, Settled, ToggleDue;
    var p := Upto(h, j);
    Moment(h, j);
    ParkedPrefix(Events(h), i, j);
    LimitStands(p, i);
    TurnsAreCounted(p);
    AllOnTime(p);
    ToggleInTime(p, Events(h)[j]);
  }

  // A toggle is judged by the clock as its pass found it.
  lemma ToggleInTime(h: History, e: Event)
    requires Lawful(h) && Legal(h, e) && e.Toggled? && ClocksOf(h).toggle.last > 0
    ensures e.at - ClocksOf(h).toggle.last >= ToggleInterval(ClocksOf(h).toggle.fails)
  {
    hide LegalAt, StateOf, Settle, ClocksOf;
    AllOnTime(h);
    ToggleAt(h, StateOf(h), PassOf(h).now, Now(h), e);
    BusyBehind(h);
    NoGate(StateOf(h), PassOf(h), StageOf(h));
  }

  /** THE TOGGLE INTERVAL: with no resume and no unpark in between, a toggle pass
      starts at least the current interval after every earlier one finished. */
  lemma {:induction false} TogglesKeepTheirInterval(turns: seq<Turn>, t: int, i: nat, j: nat)
    requires PossibleRun(Initial(), t, turns) && i < j < |Did(turns)|
    requires Did(turns)[i].Toggled? && Did(turns)[j].Toggled? && Parked(Did(turns), i, j)
    ensures Did(turns)[j].at - Did(turns)[i].done >= ToggleInterval(Turns(Did(turns)[..j]))
    ensures Did(turns)[j].at - Did(turns)[i].done >= CONNECT_TOGGLE_MIN_INTERVAL_MS
  {
    hide Legal;
    Conformance.RunObeys(turns, t);
    ToggleBehind(Run(Initial(), turns).log, i, j);
    ToggleIntervalShape(0, Turns(Did(turns)[..j]));
  }
}
