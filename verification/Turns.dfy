/** What one turn of a run adds to the history: only events with the turn's own
    readings and answers, and no fewer than the turn calls for. */
module Turns {
  import opened Config
  import opened Ladder
  import opened Runs
  import opened Replay
  import opened Protocol
  import opened Wrappers
  import Conformance

  /** A device event within 400 ms of the last is coalesced: the turn does not poll. */
  predicate Swallowed(w: Wakes, wake: Wake) {
    wake.Device? && 0 != w.last <= wake.now < w.last + DEVICE_EVENT_DEBOUNCE_MS
  }

  /** The poll counts as "up": connected, and not sent on the dead-audio detour. */
  predicate Up(q: Poll) {
    q.connected && (q.watchdog || !q.audioDead)
  }

  /** A poll runs a pass unless the watchdog tripped or the audio became ready. */
  predicate RunsPass(q: Poll) {
    !q.watchdog && !(Up(q) && q.readyLate)
  }

  /** Event `e`, at stage `x` in state `s`, belongs to this turn. */
  predicate Belongs(wake: Wake, poll: Option<Poll>, s: State, x: Stage, e: Event) {
    match e
    case Resumed => wake.Resume?
    case DeviceEvent(at) => wake == Device(at)
    case Unpark(at) => wake == Device(at)
    case LinkUp(at) => poll.Some? && Up(poll.value) && at == poll.value.up
    case LinkDown => poll.Some? && !Up(poll.value)
    case Found(ready) => poll.Some? && ready == (Up(poll.value) && poll.value.ready)
    case EpisodeClosed => poll.Some? && Up(poll.value) && poll.value.ready
    case Closed(_) => wake.Resume? || poll.Some?
    case _ => poll.Some? && RunsPass(poll.value) && Told(poll.value.pass, poll.value.connected, s, x, e)
  }

  /** `h` continues `g` with events of this turn only. */
  predicate Plays(wake: Wake, poll: Option<Poll>, g: History, h: History) {
    h == g
    || (h.Then? && Plays(wake, poll, g, h.before)
        && Belongs(wake, poll, StateOf(h.before), Now(h.before), h.last))
  }

  // What the turn calls for: its wake, its poll and its pass.
  function Due(x: Tally, wake: Wake, swallowed: bool, poll: Option<Poll>): Tally {
    Tally(x.resumes + (if wake.Resume? then 1 else 0),
          x.devices + (if wake.Device? && !swallowed then 1 else 0),
          x.polls + (if poll.Some? then 1 else 0),
          x.passes + (if poll.Some? && RunsPass(poll.value) then 1 else 0))
  }

  lemma Grow(wake: Wake, poll: Option<Poll>, g: History)
    ensures forall p: History, e: Event {:trigger Plays(wake, poll, g, Then(p, e))} ::
              Plays(wake, poll, g, p) && Belongs(wake, poll, StateOf(p), Now(p), e) ==> Plays(wake, poll, g, Then(p, e))
  {
  }

  lemma {:induction false} PassPlays(c: Conformance.Scene, h: History, wake: Wake, q: Poll, g: History)
    requires c.Tells(h) && c.p == q.pass && c.connected == q.connected && RunsPass(q)
    requires Plays(wake, Some(q), g, c.m)
    ensures Plays(wake, Some(q), g, h)
  {
    hide StateOf, Now;
    if h != c.m {
      PassPlays(c, h.before, wake, q, g);
    }
  }

  lemma WakePlays(s: State, w: Wake, poll: Option<Poll>)
    ensures Plays(w, poll, s.log, OnWake(s, w).log)
    ensures TallyOf(OnWake(s, w).log) == Due(TallyOf(s.log), w, Swallowed(s.wakes, w), None)
  {
    hide StateOf, Now;
    Grow(w, poll, s.log);
  }

  lemma UpPlays(g: History, s: State, wake: Wake, q: Poll)
    requires Plays(wake, Some(q), g, s.log) && Up(q)
    ensures Plays(wake, Some(q), g, OnConnected(s, q.up, q.ready).log)
  {
    hide StateOf, Now;
    Grow(wake, Some(q), g);
  }

  lemma UpCounts(s: State, up: int, ready: bool)
    ensures TallyOf(OnConnected(s, up, ready).log) == TallyOf(s.log).(polls := TallyOf(s.log).polls + 1)
  {
    TallyUnfolds();
  }

  lemma DownPlays(g: History, s: State, wake: Wake, q: Poll)
    requires Plays(wake, Some(q), g, s.log) && !Up(q)
    ensures var r := OnDisconnected(s);
            Plays(wake, Some(q), g, r.log) && TallyOf(r.log) == TallyOf(s.log).(polls := TallyOf(s.log).polls + 1)
  {
    hide StateOf, Now;
    Grow(wake, Some(q), g);
  }

  lemma PollPlays(g: History, s: State, wake: Wake, q: Poll, t: int)
    requires Plays(wake, Some(q), g, s.log)
    requires Conformance.Rests(Start, 1, s, t) && 1 <= t <= q.up && PossiblePass(s, q.up, q.pass)
    ensures var r, x := HandleFound(s, q), TallyOf(s.log);
            Plays(wake, Some(q), g, r.log)
            && TallyOf(r.log)
               == x.(polls := x.polls + 1, passes := x.passes + (if RunsPass(q) then 1 else 0))
  {
    hide OnConnected, OnDisconnected, RecoverLink, Plays, Conformance.Rests, MayBegin;
    if Up(q) {
      var up := OnConnected(s, q.up, q.ready);
      UpPlays(g, s, wake, q);
      UpCounts(s, q.up, q.ready);
      Conformance.ConnectedObeys(Start, 1, s, q.up, q.ready, t);
      if RunsPass(q) {
        Conformance.ConnectedOnlyDrops(s, q.up, q.ready);
        var c := Conformance.Scene(Start, 1, up.log, q.pass, true);
        Conformance.RecoverObeys(c, up, q.up);
        PassPlays(c, RecoverLink(up, q.pass, true).log, wake, q, g);
      }
    } else {
      var down := OnDisconnected(s);
      DownPlays(g, s, wake, q);
      Conformance.DisconnectedObeys(Start, 1, s, t);
      if RunsPass(q) {
        var c := Conformance.Scene(Start, 1, down.log, q.pass, q.connected);
        Conformance.RestsOn(Start, 1, down, t, q.up);
        Conformance.RecoverObeys(c, down, q.up);
        PassPlays(c, RecoverLink(down, q.pass, q.connected).log, wake, q, g);
      }
    }
  }

  /** The poll of a turn, if it comes to one. */
  function Polled(s: State, turn: Turn): Option<Poll> {
    if Swallowed(s.wakes, turn.wake) then None else turn.poll
  }

  lemma StepPlays(s: State, turn: Turn, t: int)
    requires Conformance.Rests(Start, 1, s, t) && Possible(s, t, turn)
    ensures Plays(turn.wake, Polled(s, turn), s.log, Step(s, turn).log)
    ensures TallyOf(Step(s, turn).log)
            == Due(TallyOf(s.log), turn.wake, Swallowed(s.wakes, turn.wake), Polled(s, turn))
  {
    hide OnWake, HandleFound, Plays, Conformance.Rests;
    WakePlays(s, turn.wake, Polled(s, turn));
    Conformance.WakeObeys(Start, 1, s, turn.wake, t);
    if Polled(s, turn).Some? {
      PollPlays(s.log, OnWake(s, turn.wake), turn.wake, turn.poll.value, WakeEnd(t, turn.wake));
    } else if Swallowed(s.wakes, turn.wake) {
      assert Coalesced(s, turn.wake);
    }
  }

  // -------------------------------------------------------------------------
  // The theorems, over the turns of a whole run
  // -------------------------------------------------------------------------

  lemma Sofar(turns: seq<Turn>, t: int, k: nat)
    requires PossibleRun(Initial(), t, turns) && k < |turns|
    ensures PossibleRun(Initial(), t, turns[..k])
    ensures Possible(Run(Initial(), turns[..k]), RunEnd(t, turns[..k]), turns[k])
    ensures Run(Initial(), turns[..k + 1]) == Step(Run(Initial(), turns[..k]), turns[k])
  {
    if k == |turns| - 1 {
      assert turns[..k + 1] == turns;
    } else {
      var sofar := turns[..|turns| - 1];
      Sofar(sofar, t, k);
      assert sofar[..k] == turns[..k] && sofar[..k + 1] == turns[..k + 1] && sofar[k] == turns[k];
    }
  }

  /** THE HISTORY IS THE TURNS': turn `k` of any possible run adds only events with
      its own readings and answers -- and exactly one resume or device event if it
      was woken so and the event was not coalesced, one poll if it came to one, and
      one pass if the watchdog had not tripped and no audio became ready. */
  lemma {:induction false} TurnsAreTold(turns: seq<Turn>, t: int, k: nat)
    requires PossibleRun(Initial(), t, turns) && k < |turns|
    ensures var s, next := Run(Initial(), turns[..k]), Run(Initial(), turns[..k + 1]);
            var poll := Polled(s, turns[k]);
            Plays(turns[k].wake, poll, s.log, next.log)
            && TallyOf(next.log) == Due(TallyOf(s.log), turns[k].wake, Swallowed(s.wakes, turns[k].wake), poll)
  {
    hide Plays, Conformance.Rests;
    Sofar(turns, t, k);
    Conformance.RunObeys(turns[..k], t);
    StepPlays(Run(Initial(), turns[..k]), turns[k], RunEnd(t, turns[..k]));
  }

  lemma {:induction false} PlaysAt(wake: Wake, poll: Option<Poll>, g: History, h: History, n: nat)
    returns (s: State, x: Stage)
    requires Plays(wake, poll, g, h) && |Events(g)| <= n < |Events(h)|
    ensures Belongs(wake, poll, s, x, Events(h)[n])
  {
    hide StateOf, Now, Belongs;
    if n < |Events(h.before)| {
      s, x := PlaysAt(wake, poll, g, h.before, n);
    } else {
      s, x := StateOf(h.before), Now(h.before);
    }
  }

  lemma {:induction false} PlaysOn(wake: Wake, poll: Option<Poll>, g: History, h: History)
    requires Plays(wake, poll, g, h)
    ensures Events(g) <= Events(h)
  {
    hide StateOf, Now, Belongs;
    if h != g {
      PlaysOn(wake, poll, g, h.before);
    }
  }

  /** What turn `k` did: the events of the first `k + 1` turns behind those of the
      first `k`, and they stay in the history. */
  lemma {:induction false} DidGrows(turns: seq<Turn>, t: int, k: nat)
    requires PossibleRun(Initial(), t, turns) && k <= |turns|
    ensures Did(turns[..k]) <= Did(turns)
    decreases |turns| - k
  {
    if k == |turns| {
      assert turns[..k] == turns;
    } else {
      hide Plays, Due;
      TurnsAreTold(turns, t, k);
      var s := Run(Initial(), turns[..k]);
      PlaysOn(turns[k].wake, Polled(s, turns[k]), s.log, Run(Initial(), turns[..k + 1]).log);
      DidGrows(turns, t, k + 1);
    }
  }

  /** Events that touch hardware, or lead there, or page. */
  predicate NeedsDownLink(e: Event) {
    e.Escalating? || e.PageScanMuted? || e.PageScan? || e.EarbudRestart? || e.UsbCycle? || e.HubCycle?
    || e.Paged? || e.Opened?
  }

  /** Events that only a pass of `recover_link` can cause. */
  predicate OfAPass(e: Event) {
    NeedsDownLink(e) || e.DebtRead? || e.RepairPass? || e.AudioAsked? || e.Asked? || e.Toggled? || e.InertStamp?
    || e.ConnectDone?
  }

  lemma ToldWhenDown(p: Pass, connected: bool, s: State, x: Stage, e: Event)
    requires Told(p, connected, s, x, e) && NeedsDownLink(e)
    ensures !connected
  {
  }

  lemma BelongsToPass(wake: Wake, poll: Option<Poll>, s: State, x: Stage, e: Event)
    requires Belongs(wake, poll, s, x, e)
    ensures OfAPass(e) ==> poll.Some? && !poll.value.watchdog
    ensures NeedsDownLink(e) ==> poll.Some? && !poll.value.connected
  {
    hide Told;
    if NeedsDownLink(e) {
      ToldWhenDown(poll.value.pass, poll.value.connected, s, x, e);
    }
  }

  /** HARDWARE ONLY ON A DOWN LINK: in every run, a turn that escalates, runs a
      hardware rung or pages is one whose poll found the transport not connected --
      and a turn whose watchdog tripped runs no pass at all. */
  lemma {:induction false} HardwareOnlyWhenDown(turns: seq<Turn>, t: int, k: nat, n: nat)
    requires PossibleRun(Initial(), t, turns) && k < |turns|
    requires |Did(turns[..k])| <= n < |Did(turns[..k + 1])|
    ensures n < |Did(turns)|
    ensures OfAPass(Did(turns)[n]) ==> turns[k].poll.Some? && !turns[k].poll.value.watchdog
    ensures NeedsDownLink(Did(turns)[n]) ==> turns[k].poll.Some? && !turns[k].poll.value.connected
  {
    hide Plays, Due, Belongs, NeedsDownLink, OfAPass;
    TurnsAreTold(turns, t, k);
    DidGrows(turns, t, k + 1);
    var s, h := Run(Initial(), turns[..k]), Run(Initial(), turns[..k + 1]).log;
    var poll := Polled(s, turns[k]);
    var r, x := PlaysAt(turns[k].wake, poll, s.log, h, n);
    BelongsToPass(turns[k].wake, poll, r, x, Events(h)[n]);
  }
}
