/** Who owns a socket, and when an episode ends: `take_held_page`, the page step
    of `recover_link`, and the flap hysteresis of `on_connected` in `worker.rs`. */
module Holds {
  import opened Config
  import opened Numeric
  import opened Ladder
  import opened Runs
  import opened Replay
  import opened Protocol
  import opened Wrappers
  import Conformance

  /** The sockets now open, how many ready polls in a row ended the polls so far,
      and the last event. `clean` looks at the whole history: only an open socket
      was closed, and only right after a resume, a closed episode or the opening of
      its successor; only a new socket was opened; and an episode was closed exactly
      by the third and every further ready poll in a row. `owing` marks a ready poll
      that must be followed by such a closing. */
  datatype Ledger = Ledger(open: set<nat>, streak: nat, owing: bool, last: Option<Event>, clean: bool)

  /** Why a hold may be given up. */
  predicate MayClose(before: Option<Event>, socket: nat) {
    before.Some?
    && var e := before.value;
       e.Resumed? || e.EpisodeClosed? || (e.Opened? && e.kept != socket)
  }

  function Post(x: Ledger, e: Event): Ledger {
    var y := x.(last := Some(e), owing := false, clean := x.clean && !x.owing);
    match e
    case Opened(socket) => y.(open := x.open + {socket}, clean := y.clean && socket !in x.open)
    case Closed(socket) =>
      y.(open := x.open - {socket}, clean := y.clean && socket in x.open && MayClose(x.last, socket))
    case Found(ready) =>
      var n := if ready then x.streak + 1 else 0;
      y.(streak := n, owing := n >= LINK_STABLE_POLLS_TO_CLOSE)
    case EpisodeClosed => y.(clean := x.clean && x.owing)
    case _ => y
  }

  function LedgerOf(h: History): Ledger {
    match h
    case Start => Ledger({}, 0, false, None, true)
    case Then(p, e) => Post(LedgerOf(p), e)
  }

  function Hold(s: State): set<nat> {
    if s.page.held.Some? then {s.page.held.value} else {}
  }

  // The replaced hold, open until its successor is.
  function Replaced(h: History): set<nat> {
    if h.Then? && h.last.Opened? && StageOf(h).Dropping? then {StageOf(h).kept} else {}
  }

  /** The open sockets are exactly the held one, and the counter is the streak. */
  predicate Owns(x: Ledger, s: State, replaced: set<nat>) {
    x.clean && x.open == Hold(s) + replaced && s.link.stable == Min(x.streak, U32_MAX)
  }

  predicate Owned(h: History) {
    Owns(LedgerOf(h), StateOf(h), Replaced(h)) && LedgerOf(h).owing == StageOf(h).Closing?
    && LedgerOf(h).last == (if h.Then? then Some(h.last) else None)
  }

  // What the stage of a closing, a dropping or an opening calls for, and nothing
  // else does.
  lemma Forced(h: History, e: Event)
    requires Legal(h, e)
    ensures StageOf(h).Closing? <==> e.EpisodeClosed?
    ensures StageOf(h).Dropping? ==> e == Closed(StageOf(h).kept)
    ensures e.Closed? ==> StageOf(h) == Dropping(e.kept)
    ensures e.Opened? ==> StageOf(h) == Opening(e.kept)
  {
    hide StageOf, StateOf, Settle;
    NoGate(StateOf(h), PassOf(h), StageOf(h));
    Settles(StateOf(h), PassOf(h), StageOf(h));
  }

  // Nothing about sockets or polls.
  predicate Neutral(e: Event) {
    !e.Opened? && !e.Closed? && !e.Found? && !e.EpisodeClosed?
  }

  lemma KeepsNeutral(x: Ledger, s: State, e: Event)
    requires Owns(x, s, {}) && !x.owing && Neutral(e)
    ensures Owns(Post(x, e), Enter(s, e), {}) && !Post(x, e).owing
  {
  }

  lemma KeepsFound(x: Ledger, s: State, e: Event)
    requires Owns(x, s, {}) && !x.owing && e.Found?
    ensures var next := Enter(s, e);
            Owns(Post(x, e), next, {})
            && Post(x, e).owing == (e.ready && next.link.stable >= LINK_STABLE_POLLS_TO_CLOSE)
  {
  }

  lemma KeepsClosing(x: Ledger, s: State, e: Event)
    requires Owns(x, s, {}) && x.owing && e.EpisodeClosed?
    ensures Owns(Post(x, e), Enter(s, e), {}) && !Post(x, e).owing
  {
  }

  lemma KeepsOpened(x: Ledger, s: State, e: Event)
    requires Owns(x, s, {}) && !x.owing && e.Opened? && Some(e.kept) != s.page.held
    ensures Owns(Post(x, e), Enter(s, e), Hold(s)) && !Post(x, e).owing
  {
  }

  lemma KeepsClosed(x: Ledger, s: State, e: Event, replaced: set<nat>)
    requires Owns(x, s, replaced) && !x.owing && e.Closed? && MayClose(x.last, e.kept)
    requires (replaced == {} && s.page.held == Some(e.kept)) || (replaced == {e.kept} && e.kept !in Hold(s))
    ensures Owns(Post(x, e), Enter(s, e), {}) && !Post(x, e).owing
  {
  }

  // A socket that is opened is new, a socket that is dropped is held or was.
  lemma OpenedIsNew(h: History, e: Event)
    requires Lawful(Then(h, e)) && e.Opened?
    ensures Some(e.kept) != StateOf(h).page.held
  {
    hide LegalAt, Settle;
    Forced(h, e);
    assert Lawful(h) && h.last.Answered?;
    assert Legal(h.before, h.last);
    AnsweredIsNew(h.before, StateOf(h.before), PassOf(h.before).now, Now(h.before), h.last);
  }

  lemma AnsweredIsNew(h: History, s: State, now: int, x: Stage, e: Event)
    requires LegalAt(h, s, now, x, e) && e.Answered? && e.socket.Some?
    ensures e.socket != s.page.held
  {
  }

  lemma StaysHeld(s: State, e: Event)
    ensures e.Resumed? || e.EpisodeClosed? ==> Enter(s, e).page.held == s.page.held
    ensures e.Opened? ==> Enter(s, e).page.held == Some(e.kept)
  {
  }

  lemma DroppedWasHeld(h: History, kept: nat)
    requires Lawful(h) && StageOf(h) == Dropping(kept)
    ensures h.Then? && MayClose(Some(h.last), kept)
    ensures if h.last.Opened? then
              StateOf(h.before).page.held == Some(kept) && StateOf(h).page.held == Some(h.last.kept)
            else StateOf(h).page.held == Some(kept)
  {
    hide LegalAt, Settle;
    hide Enter;
    StaysHeld(StateOf(h.before), h.last);
    if h.last.Opened? {
      OpenedIsNew(h.before, h.last);
    }
  }

  lemma PostLast(x: Ledger, e: Event)
    ensures Post(x, e).last == Some(e)
  {
  }

  lemma OwnedNext(h: History, e: Event)
    requires Lawful(Then(h, e)) && Owned(h)
    ensures Owned(Then(h, e))
  {
    hide LegalAt, Now, Owns, Enter, Post;
    PostLast(LedgerOf(h), e);
    var x, s := LedgerOf(h), StateOf(h);
    Forced(h, e);
    match e
    case Opened(kept) =>
      OpenedIsNew(h, e);
      KeepsOpened(x, s, e);
      assert Replaced(Then(h, e)) == Hold(s);
    case Closed(kept) =>
      DroppedWasHeld(h, kept);
      KeepsClosed(x, s, e, Replaced(h));
    case Found(_) => KeepsFound(x, s, e);
    case EpisodeClosed => KeepsClosing(x, s, e);
    case _ => KeepsNeutral(x, s, e);
  }

  // -------------------------------------------------------------------------
  // The theorems, over the events of a whole run
  // -------------------------------------------------------------------------

  /** Openings of `socket` minus its closings. */
  function Net(es: seq<Event>, socket: nat): int {
    if es == [] then 0 else
    Net(es[..|es| - 1], socket)
    + (if es[|es| - 1] == Opened(socket) then 1 else if es[|es| - 1] == Closed(socket) then -1 else 0)
  }

  lemma NetSnoc(es: seq<Event>, e: Event, socket: nat)
    ensures Net(es + [e], socket)
            == Net(es, socket) + (if e == Opened(socket) then 1 else if e == Closed(socket) then -1 else 0)
  {
    assert (es + [e])[..|es|] == es;
  }

  function Indicator(open: set<nat>, socket: nat): int {
    if socket in open then 1 else 0
  }

  lemma PostOpen(x: Ledger, e: Event, socket: nat)
    requires Post(x, e).clean
    ensures x.clean
    ensures Indicator(Post(x, e).open, socket)
            == Indicator(x.open, socket) + (if e == Opened(socket) then 1 else if e == Closed(socket) then -1 else 0)
  {
  }

  lemma {:induction false} NetIsOpen(h: History, socket: nat)
    requires LedgerOf(h).clean
    ensures Net(Events(h), socket) == Indicator(LedgerOf(h).open, socket)
  {
    match h
    case Start =>
    case Then(p, e) =>
      PostOpen(LedgerOf(p), e, socket);
      NetIsOpen(p, socket);
      NetSnoc(Events(p), e, socket);
  }

  lemma {:induction false} AllOwned(h: History)
    requires Lawful(h)
    ensures Owned(h)
  {
    if h.Then? {
      hide LegalAt, Now, Owned;
      AllOwned(h.before);
      OwnedNext(h.before, h.last);
    }
  }

  lemma NetAt(h: History, n: nat, socket: nat)
    requires Lawful(h) && n <= |Events(h)|
    ensures 0 <= Net(Events(h)[..n], socket) <= 1
  {
    hide Legal, Replay.Enter;
    var p := Upto(h, n);
    if n < |Events(h)| {
      Moment(h, n);
    }
    AllOwned(p);
    NetIsOpen(p, socket);
  }

  /** In every reachable state the open sockets are the held one. */
  lemma {:induction false} RunOwned(turns: seq<Turn>, t: int)
    requires PossibleRun(Initial(), t, turns)
    ensures var s := Run(Initial(), turns);
            Lawful(s.log) && Owned(s.log) && StateOf(s.log) == s && Owns(LedgerOf(s.log), s, {})
            && !LedgerOf(s.log).owing
  {
    hide LegalAt, Settle, Owns, Enter;
    var h := Run(Initial(), turns).log;
    Conformance.RunObeys(turns, t);
    AllOwned(h);
    NoGate(StateOf(h), PassOf(h), StageOf(h));
  }

  /** SOCKET OWNERSHIP: at every moment of every run each socket was opened at
      most once more than it was closed and never closed more often than opened,
      and after every turn the one that is open is exactly the held one. */
  lemma {:induction false} SocketsAreOwned(turns: seq<Turn>, t: int, n: nat, socket: nat)
    requires PossibleRun(Initial(), t, turns) && n <= |Did(turns)|
    ensures 0 <= Net(Did(turns)[..n], socket) <= 1
    ensures Net(Did(turns), socket) == 1 <==> Run(Initial(), turns).page.held == Some(socket)
  {
    hide Legal;
    RunOwned(turns, t);
    NetAt(Run(Initial(), turns).log, n, socket);
    NetIsOpen(Run(Initial(), turns).log, socket);
  }

  lemma ClosingAt(h: History, n: nat)
    requires Lawful(h) && n < |Events(h)| && Events(h)[n].Closed?
    ensures n > 0 && MayClose(Some(Events(h)[n - 1]), Events(h)[n].kept)
  {
    hide LegalAt, Now, Enter, Post;
    var p := Upto(h, n);
    Moment(h, n);
    Forced(p, Events(h)[n]);
    DroppedWasHeld(p, Events(h)[n].kept);
    assert Events(p)[n - 1] == p.last;
  }

  /** A HOLD IS NEVER JUST DROPPED: in every run a socket is closed only right
      after a resume, right after the episode was closed, or right after its
      successor was opened -- so a replaced hold outlives the new socket's opening. */
  lemma {:induction false} HoldsAreGivenUpInOrder(turns: seq<Turn>, t: int, n: nat)
    requires PossibleRun(Initial(), t, turns) && n < |Did(turns)| && Did(turns)[n].Closed?
    ensures n > 0
    ensures var e := Did(turns)[n - 1];
            e.Resumed? || e.EpisodeClosed? || (e.Opened? && e.kept != Did(turns)[n].kept)
  {
    hide Legal;
    Conformance.RunObeys(turns, t);
    ClosingAt(Run(Initial(), turns).log, n);
  }

  /** Page first: a page is sent exactly when the link is down and none was sent for
      10 s; a refused or unanswered one stores nothing; a kept socket replaces the
      hold, and the old hold is closed only after the new socket exists. */
  lemma PageReplacesHold(s: State, p: Pass, connected: bool)
    ensures var r, now := RungPage(s, p, connected), p.times.now;
            var due := !connected && s.link.downSince != 0 && s.link.downSince + PAGE_MIN_DOWN_MS <= now
                       && (s.page.last == 0 || s.page.last + PAGE_CADENCE_MS <= now);
            var kept := due && p.pageOutcome == Attempted && p.pageHeld.Some?;
            r.go == !(due && p.pageOutcome == Attempted)
            && r.s.page.held == (if kept then p.pageHeld else s.page.held)
            && Events(r.s.log) == Events(s.log)
                                  + (if due then [Paged(now, p.times.page, p.pageOutcome)] else [])
                                  + (if r.go then [] else [Answered(p.times.paged, p.pageHeld)])
                                  + (if kept then [Opened(p.pageHeld.value)] else [])
                                  + (if kept && s.page.held.Some? then [Closed(s.page.held.value)] else [])
  {
    var sent := Then(s.log, Paged(p.times.now, p.times.page, p.pageOutcome));
    var answered := Then(sent, Answered(p.times.paged, p.pageHeld));
    assert Events(answered) == Events(sent) + [answered.last];
    if p.pageHeld.Some? {
      var stored := Then(answered, Opened(p.pageHeld.value));
      assert Events(stored) == Events(answered) + [stored.last];
    }
  }

  /** Ready polls in a row at the end of `es`. */
  function Streak(es: seq<Event>): nat {
    if es == [] then 0 else
    var e, n := es[|es| - 1], Streak(es[..|es| - 1]);
    if e.Found? then (if e.ready then n + 1 else 0) else n
  }

  lemma StreakSnoc(es: seq<Event>, e: Event)
    ensures Streak(es + [e]) == if e.Found? then (if e.ready then Streak(es) + 1 else 0) else Streak(es)
  {
    assert (es + [e])[..|es|] == es;
  }

  lemma {:induction false} StreakIsCounted(h: History)
    ensures LedgerOf(h).streak == Streak(Events(h))
  {
    if h.Then? {
      StreakIsCounted(h.before);
      StreakSnoc(Events(h.before), h.last);
    }
  }

  lemma OwingAfterThree(h: History)
    ensures LedgerOf(h).owing
            <==> h.Then? && h.last.Found? && Streak(Events(h)) >= LINK_STABLE_POLLS_TO_CLOSE
  {
    StreakIsCounted(h);
  }

  lemma ClosedAt(h: History, n: nat)
    requires Lawful(h) && n < |Events(h)|
    ensures Events(h)[n].EpisodeClosed?
            <==> n > 0 && Events(h)[n - 1].Found? && Streak(Events(h)[..n]) >= LINK_STABLE_POLLS_TO_CLOSE
  {
    hide LegalAt, Now, Enter, Post;
    var p := Upto(h, n);
    Moment(h, n);
    Forced(p, Events(h)[n]);
    AllOwned(p);
    OwingAfterThree(p);
    if n > 0 {
      assert Events(p)[n - 1] == p.last;
    }
  }

  /** FLAP HYSTERESIS: the event after a poll is the closing of the episode
      exactly when the last three polls that found the device were all ready, and
      an episode is closed nowhere else. */
  lemma {:induction false} EpisodesCloseOnThreeReadyPolls(turns: seq<Turn>, t: int, n: nat)
    requires PossibleRun(Initial(), t, turns) && n < |Did(turns)|
    ensures Did(turns)[n].EpisodeClosed?
            <==> n > 0 && Did(turns)[n - 1].Found? && Streak(Did(turns)[..n]) >= LINK_STABLE_POLLS_TO_CLOSE
  {
    hide Legal;
    Conformance.RunObeys(turns, t);
    ClosedAt(Run(Initial(), turns).log, n);
  }

  /** ... and no turn ends between the two. */
  lemma {:induction false} NoClosingIsPending(turns: seq<Turn>, t: int)
    requires PossibleRun(Initial(), t, turns)
    ensures Did(turns) != [] && Did(turns)[|Did(turns)| - 1].Found? ==> Streak(Did(turns)) < LINK_STABLE_POLLS_TO_CLOSE
  {
    hide Legal;
    RunOwned(turns, t);
    OwingAfterThree(Run(Initial(), turns).log);
  }
}
