/** How many driver re-installs an absence of the earbuds can cost: the toggle
    clock, its cancellations and the wake loop of `worker.rs` taken together. */
module Absence {
  import opened Config
  import opened Backoff
  import opened Ladder
  import opened Runs
  import opened Replay
  import opened Protocol
  import opened Pacing
  import Conformance

  // -------------------------------------------------------------------------
  // What pays for a re-install
  // -------------------------------------------------------------------------

  /** From `start`, when the clocks read `c`, to a later `d` at `now` with no resume
      and no ready poll in between: only an unpark, or five minutes, pays for a toggle
      beyond the first seven, and only a minute pays for an unpark beyond the
      first. */
  predicate Paid(c: Clocks, d: Clocks, start: int, now: int) {
    var n, u := d.toggles - c.toggles, d.unparks - c.unparks;
    0 <= n && 0 <= u
    && (n > 0 || u > 0 ==> start <= now)
    && (d.toggle.fails >= n || d.toggle.fails >= 6)
    && (u > 0 ==> d.unpark > 0 && DEVICE_WAKE_UNPARK_MS * (u - 1) <= d.unpark - start)
    && (n > 0 && d.toggle.last != 0 ==> start <= d.toggle.last)
    && (d.toggle.last != 0 && n > 7 + u ==> CONNECT_TOGGLE_MAX_INTERVAL_MS * (n - 7 - u) <= d.toggle.last - start)
    && (d.toggle.last == 0 && n > 6 + u ==> CONNECT_TOGGLE_MAX_INTERVAL_MS * (n - 6 - u) <= now - start)
  }

  // What a legal event on clocks `d` shows: toggles and unparks keep their distances.
  predicate Paced(d: Clocks, e: Event, now: int, next: int) {
    InTime(e, now, next)
    && 0 <= d.unpark <= now && 0 <= d.toggle.last <= now
    && (e.Unpark? && d.unpark != 0 ==> e.at - d.unpark >= DEVICE_WAKE_UNPARK_MS)
    && (e.Toggled? && d.toggle.last != 0 ==> e.done - d.toggle.last >= ToggleInterval(d.toggle.fails))
    && (e.InertStamp? && d.toggle.last != 0 ==> e.taken - d.toggle.last >= ToggleInterval(d.toggle.fails))
  }

  lemma PaidOnce(c: Clocks, d: Clocks, e: Event, start: int, now: int, next: int)
    requires Paid(c, d, start, now) && Paced(d, e, now, next) && now <= next
    requires Reading(e).Some? ==> start <= Reading(e).value == next
    requires Tick(d, e).breaks == c.breaks == d.breaks
    ensures Paid(c, Tick(d, e), start, next)
  {
    ToggleIntervalShape(0, d.toggle.fails);
  }

  lemma TurnsDue(h: History, s: State, now: int, x: Stage, e: Event)
    requires LegalAt(h, s, now, x, e) && (e.Toggled? || e.InertStamp?)
    ensures x == Acting(ConnectRung) && ToggleDue(s, now)
  {
    hide ToggleDue;
  }

  // The toggle's turn is taken in the connect pass only, by the clock as the pass
  // found it.
  lemma TurnTakenInTime(h: History, e: Event)
    requires Lawful(Then(h, e)) && OnTime(h) && (e.Toggled? || e.InertStamp?)
    ensures ToggleDue(StateOf(h), PassOf(h).now) && StateOf(h).toggle.last <= PassOf(h).now <= Clock(h)
  {
    hide LegalAt, Settle, StateOf, ToggleDue, Agrees;
    PassBegan(h);
    TurnsDue(h, StateOf(h), PassOf(h).now, Now(h), e);
    BusyBehind(h);
    NoGate(StateOf(h), PassOf(h), StageOf(h));
  }

  lemma IsPaced(h: History, e: Event)
    requires Lawful(Then(h, e))
    ensures Paced(ClocksOf(h), e, Clock(h), Clock(Then(h, e)))
  {
    hide LegalAt, Now, Enter, Settled;
    AllOnTime(h);
    IsInTime(h, e);
    if e.Unpark? {
      UnparkAt(h, e);
    } else if e.Toggled? || e.InertStamp? {
      TurnTakenInTime(h, e);
    }
  }

  lemma {:induction false} BreaksOnlyGrow(g: History, h: History, start: int)
    requires Extends(g, h, start)
    ensures ClocksOf(g).breaks <= ClocksOf(h).breaks
  {
    hide Legal;
    if h != g {
      BreaksOnlyGrow(g, h.before, start);
    }
  }

  lemma {:induction false} PaidThroughout(g: History, h: History, start: int)
    requires Extends(g, h, start) && Lawful(h) && ClocksOf(g).breaks == ClocksOf(h).breaks
    ensures Paid(ClocksOf(g), ClocksOf(h), start, Clock(h))
  {
    if h != g {
      hide LegalAt, Paced, Paid, StateOf, Tick, Now;
      TickCounts(ClocksOf(h.before), h.last);
      BreaksOnlyGrow(g, h.before, start);
      PaidThroughout(g, h.before, start);
      IsPaced(h.before, h.last);
      PaidOnce(ClocksOf(g), ClocksOf(h.before), h.last, start, Clock(h.before), Clock(h));
    }
  }

  lemma {:induction false} StretchCost(g: History, h: History, start: int)
    requires Extends(g, h, start) && Lawful(h) && ClocksOf(g).breaks == ClocksOf(h).breaks
    ensures var n := ClocksOf(h).toggles - ClocksOf(g).toggles;
            n > 8 ==> 50_000 * (n - 8) <= Clock(h) - start
  {
    hide Legal;
    PaidThroughout(g, h, start);
    AllOnTime(h);
  }

  // -------------------------------------------------------------------------
  // The theorem
  // -------------------------------------------------------------------------

  /** Passes that removed a driver. */
  function Reinstalls(es: seq<Event>): nat {
    if es == [] then 0
    else Reinstalls(es[..|es| - 1]) + (if es[|es| - 1].Toggled? then 1 else 0)
  }

  /** Resumes, and polls that found the audio ready. */
  function Returns(es: seq<Event>): nat {
    if es == [] then 0
    else
      var e := es[|es| - 1];
      Returns(es[..|es| - 1]) + (if e.Resumed? || (e.Found? && e.ready) then 1 else 0)
  }

  lemma CountSnoc(es: seq<Event>, e: Event)
    ensures Reinstalls(es + [e]) == Reinstalls(es) + (if e.Toggled? then 1 else 0)
    ensures Returns(es + [e]) == Returns(es) + (if e.Resumed? || (e.Found? && e.ready) then 1 else 0)
  {
    assert (es + [e])[..|es|] == es;
  }

  lemma TickCounts(c: Clocks, e: Event)
    ensures Tick(c, e).toggles == c.toggles + (if e.Toggled? then 1 else 0)
    ensures Tick(c, e).breaks == c.breaks + (if e.Resumed? || (e.Found? && e.ready) then 1 else 0)
  {
  }

  lemma {:induction false} CountersCount(h: History)
    ensures ClocksOf(h).toggles == Reinstalls(Events(h)) && ClocksOf(h).breaks == Returns(Events(h))
  {
    match h
    case Start =>
    case Then(p, e) =>
      CountersCount(p);
      TickCounts(ClocksOf(p), e);
      CountSnoc(Events(p), e);
  }

  /** THE PRICE OF AN ABSENCE: take any possible run and any stretch at its end in
      which the machine does not resume and no poll finds the audio ready. Whatever
      device events arrive, the daemon re-installs drivers in it at most 8 times
      plus once per 50 seconds of the stretch. */
  lemma {:induction false} AbsenceIsBounded(before: seq<Turn>, absence: seq<Turn>, t: int)
    requires PossibleRun(Initial(), t, before + absence)
    requires Returns(Did(before + absence)) == Returns(Did(before))
    ensures var n := Reinstalls(Did(before + absence)) - Reinstalls(Did(before));
            n > 8 ==> 50_000 * (n - 8) <= RunEnd(t, before + absence) - RunEnd(t, before)
  {
    hide Legal;
    var g, h := Run(Initial(), before).log, Run(Initial(), before + absence).log;
    Conformance.LaterIsLater(before, absence, t);
    Conformance.RunObeys(before + absence, t);
    CountersCount(g);
    CountersCount(h);
    StretchCost(g, h, RunEnd(t, before));
  }
}
