/** What a pass waits for before it comes to the rungs, and how far apart its pages,
    audio requests, repairs and connect attempts are. */
module Cadences {
  import opened Config
  import opened Numeric
  import opened Backoff
  import opened Gates
  import opened Ladder
  import opened Runs
  import opened Replay
  import opened Protocol
  import opened Wrappers
  import Conformance
  import Distances

  // -------------------------------------------------------------------------
  // What keeps a pass from the rungs
  // -------------------------------------------------------------------------

  /** Stages behind rung 0. */
  predicate PastRepair(x: Stage) {
    x.Listening? || x.Asking? || x.Waiting? || PastAudio(x)
  }

  /** Stages behind the audio request and the settling of a page. */
  predicate PastAudio(x: Stage) {
    x.Paging? || x.Answering? || x.Arming? || x.Scanning? || x.Freezing? || x.Restarting? || x.Cycling? || x.Porting?
    || x.Rehearing? || x.Connecting? || x.Acting? || x.Concluding?
  }

  predicate Unblocked(s: State) {
    !s.repair.armed
  }

  predicate Undisturbed(s: State, now: int) {
    !s.audio.accepted && (s.page.settleUntil != 0 ==> s.page.settleUntil <= now)
  }

  lemma {:induction false} ThroughGates(s: State, p: PassAt, x: Stage)
    ensures PastRepair(Settle(s, p, x)) ==> PastRepair(x) || Unblocked(s)
    ensures PastAudio(Settle(s, p, x)) ==> PastAudio(x) || Undisturbed(s, p.now)
    decreases Height(x)
  {
    if !Open(s, p, x) {
      ThroughGates(s, p, Past(s, p, x));
    }
  }

  // Which events those stages lead to, and from where.
  lemma StageStays(h: History, s: State, now: int, x: Stage, e: Event, next: State)
    requires LegalAt(h, s, now, x, e)
    ensures PastRepair(Behind(s, e, next)) ==> PastRepair(x) && !e.Began? && !e.RepairPass?
    ensures PastAudio(Behind(s, e, next)) ==> PastAudio(x) && !e.AudioAsked? && !e.Answered?
    ensures Busy(x) ==> !e.Resumed? && !e.EpisodeClosed?
  {
    hide ToggleDue, MayBegin, Unparks;
  }

  lemma FieldsStay(s: State, e: Event)
    ensures !e.RepairPass? ==> Enter(s, e).repair.armed == s.repair.armed
    ensures !e.AudioAsked? && !e.Resumed? && !e.EpisodeClosed? ==> Enter(s, e).audio == s.audio
    ensures !e.Answered? && !e.Resumed? ==> Enter(s, e).page.settleUntil == s.page.settleUntil
  {
  }

  predicate Clear(h: History) {
    (PastRepair(StageOf(h)) ==> Unblocked(StateOf(h)))
    && (PastAudio(StageOf(h)) ==> Undisturbed(StateOf(h), PassOf(h).now))
  }

  lemma ClearNow(h: History)
    requires Clear(h)
    ensures PastRepair(Now(h)) ==> Unblocked(StateOf(h))
    ensures PastAudio(Now(h)) ==> Undisturbed(StateOf(h), PassOf(h).now)
  {
    hide Settle, StageOf;
    ThroughGates(StateOf(h), PassOf(h), StageOf(h));
  }

  lemma {:induction false} AllClear(h: History)
    requires Lawful(h)
    ensures Clear(h)
  {
    if h.Then? {
      hide LegalAt, Now, Enter, Behind;
      var p, e := h.before, h.last;
      AllClear(p);
      ClearNow(p);
      StageStays(p, StateOf(p), PassOf(p).now, Now(p), e, StateOf(h));
      FieldsStay(StateOf(p), e);
    }
  }

  // -------------------------------------------------------------------------
  // Repair, audio and a settling page come first
  // -------------------------------------------------------------------------

  /** Events behind rung 0, and events behind the audio request. */
  predicate BehindRepair(e: Event) {
    e.StreamRead? || e.AudioAsked? || BehindAudio(e)
  }

  predicate BehindAudio(e: Event) {
    e.Paged? || e.Answered? || e.Escalating? || e.PageScanMuted? || e.FreezeRead? || e.Asked? || e.PageScan?
    || e.EarbudRestart? || e.DongleOff? || e.UsbCycle? || e.HubCycle? || e.StreamReread? || e.Toggled?
    || e.InertStamp? || e.ConnectDone?
  }

  lemma FromStage(h: History, s: State, now: int, x: Stage, e: Event)
    requires LegalAt(h, s, now, x, e)
    ensures BehindRepair(e) ==> PastRepair(x)
    ensures BehindAudio(e) ==> PastAudio(x)
  {
    hide ToggleDue, MayBegin;
  }

  /** The last repair pass of a history. */
  function LastRepair(h: History): Option<Event> {
    match h
    case Start => None
    case Then(p, e) => if e.RepairPass? then Some(e) else LastRepair(p)
  }

  lemma RepairEnters(s: State, e: Event)
    ensures Enter(s, e).repair.armed == if e.RepairPass? then e.journal else s.repair.armed
    ensures Enter(s, e).repair.last == if e.RepairPass? then e.at else s.repair.last
  {
  }

  lemma {:induction false} ArmedIsLastJournal(h: History)
    ensures LastRepair(h).Some? ==> LastRepair(h).value.RepairPass?
    ensures StateOf(h).repair.armed == (LastRepair(h).Some? && LastRepair(h).value.journal)
    ensures StateOf(h).repair.last == (if LastRepair(h).Some? then LastRepair(h).value.at else 0)
  {
    if h.Then? {
      hide Enter;
      ArmedIsLastJournal(h.before);
      RepairEnters(StateOf(h.before), h.last);
    }
  }

  /** The repair flag of every reachable state is what the last repair pass saw. */
  lemma {:induction false} RepairFlagIsRemembered(turns: seq<Turn>, t: int)
    requires PossibleRun(Initial(), t, turns)
    ensures var s := Run(Initial(), turns);
            s.repair.armed <==> LastRepair(s.log).Some? && LastRepair(s.log).value.RepairPass?
                                && LastRepair(s.log).value.journal
  {
    hide Extends;
    Conformance.RunObeys(turns, t);
    ArmedIsLastJournal(Run(Initial(), turns).log);
  }

  lemma RepairBehind(h: History, i: nat, j: nat)
    requires Lawful(h) && i < j < |Events(h)| && Events(h)[i].RepairPass? && BehindRepair(Events(h)[j])
    requires forall k :: i < k < j ==> !Events(h)[k].RepairPass?
    ensures !Events(h)[i].journal
  {
    hide LegalAt, Now, Enter, Settle;
    var p := Upto(h, j);
    Moment(h, j);
    AllClear(p);
    ClearNow(p);
    FromStage(p, StateOf(p), PassOf(p).now, Now(p), Events(h)[j]);
    ArmedIsLastJournal(p);
    assert forall n :: 0 <= n < j ==> Events(p)[n] == Events(h)[n];
    IsLast(p, i);
  }

  lemma {:induction false} IsLast(h: History, i: nat)
    requires i < |Events(h)| && Events(h)[i].RepairPass?
    requires forall k :: i < k < |Events(h)| ==> !Events(h)[k].RepairPass?
    ensures LastRepair(h) == Some(Events(h)[i])
  {
    Distances.Shorter(h);
    if i < |Events(h.before)| {
      IsLast(h.before, i);
    }
  }

  /** REPAIR BEFORE ESCALATION: whatever a run does behind rung 0 -- asking the audio
      driver, paging, escalating, connecting -- it does while the last repair pass
      has left no journal behind. */
  lemma {:induction false} NothingBeforeRepair(turns: seq<Turn>, t: int, i: nat, j: nat)
    requires PossibleRun(Initial(), t, turns) && i < j < |Did(turns)|
    requires Did(turns)[i].RepairPass? && BehindRepair(Did(turns)[j])
    requires forall k :: i < k < j ==> !Did(turns)[k].RepairPass?
    ensures !Did(turns)[i].journal
  {
    hide Legal;
    Conformance.RunObeys(turns, t);
    RepairBehind(Run(Initial(), turns).log, i, j);
  }

  /** Nothing between events `i` and `j` forgot the audio request or the page. */
  predicate NoFreshStart(es: seq<Event>, i: nat, j: nat)
    requires j <= |es|
  {
    forall k :: i < k < j ==> !es[k].Resumed? && !es[k].EpisodeClosed?
  }

  lemma TimersEnter(s: State, e: Event)
    ensures Enter(s, e).audio == if e.AudioAsked? then Audio(e.asked, e.accepted)
                                 else if e.Resumed? || e.EpisodeClosed? then Audio(0, false)
                                 else s.audio
    ensures Enter(s, e).page.settleUntil == if e.Answered? then e.over + PAGE_SETTLE_MS
                                            else if e.Resumed? then 0
                                            else s.page.settleUntil
    ensures Enter(s, e).page.last == if e.Paged? then e.sent
                                     else if e.Resumed? || e.EpisodeClosed? || e.Unpark? then 0
                                     else s.page.last
  {
  }

  lemma {:induction false} SettleStands(h: History, i: nat)
    requires Lawful(h) && i < |Events(h)| && Events(h)[i].Answered? && NoFreshStart(Events(h), i, |Events(h)|)
    ensures 1 <= Events(h)[i].over && Events(h)[i].over + PAGE_SETTLE_MS <= StateOf(h).page.settleUntil
  {
    hide LegalAt, Now, Enter;
    Distances.Shorter(h);
    Distances.InOrderSofar(h, i);
    TimersEnter(StateOf(h.before), h.last);
    if i < |Events(h.before)| {
      Distances.InOrderSofar(h.before, i);
      SettleStands(h.before, i);
    }
  }

  lemma {:induction false} RequestStands(h: History, i: nat)
    requires Lawful(h) && i < |Events(h)| && Events(h)[i].AudioAsked? && NoFreshStart(Events(h), i, |Events(h)|)
    ensures 1 <= Events(h)[i].asked <= StateOf(h).audio.last
    ensures (forall k :: i < k < |Events(h)| ==> !Events(h)[k].AudioAsked?) ==>
              StateOf(h).audio.accepted == Events(h)[i].accepted
  {
    hide LegalAt, Now, Enter;
    Distances.Shorter(h);
    Distances.InOrderSofar(h, i);
    TimersEnter(StateOf(h.before), h.last);
    if i < |Events(h.before)| {
      Distances.InOrderSofar(h.before, i);
      RequestStands(h.before, i);
    }
  }

  lemma {:induction false} PageStands(h: History, i: nat)
    requires Lawful(h) && i < |Events(h)| && Events(h)[i].Paged? && NoFreshStart(Events(h), i, |Events(h)|)
    requires forall k :: i < k < |Events(h)| ==> !Events(h)[k].Unpark?
    ensures 1 <= Events(h)[i].sent <= StateOf(h).page.last
  {
    hide LegalAt, Now, Enter;
    Distances.Shorter(h);
    Distances.InOrderSofar(h, i);
    TimersEnter(StateOf(h.before), h.last);
    if i < |Events(h.before)| {
      Distances.InOrderSofar(h.before, i);
      PageStands(h.before, i);
    }
  }

  // The same stretch, seen from the history before event `j`.
  lemma SeenBefore(h: History, i: nat, j: nat)
    requires i < j <= |Events(h)|
    ensures |Events(Upto(h, j))| == j
    ensures forall n :: 0 <= n < j ==> Events(Upto(h, j))[n] == Events(h)[n]
    ensures NoFreshStart(Events(h), i, j) ==> NoFreshStart(Events(Upto(h, j)), i, j)
  {
  }

  // What lies behind the gates of the audio and the page.
  lemma UndisturbedAt(h: History, j: nat)
    requires Lawful(h) && j < |Events(h)| && BehindAudio(Events(h)[j])
    ensures Lawful(Upto(h, j)) && Undisturbed(StateOf(Upto(h, j)), PassOf(Upto(h, j)).now)
  {
    hide LegalAt, Now, Settle, Enter;
    var p := Upto(h, j);
    Moment(h, j);
    AllClear(p);
    ClearNow(p);
    FromStage(p, StateOf(p), PassOf(p).now, Now(p), Events(h)[j]);
  }

  lemma BehindAnswer(h: History, i: nat, j: nat)
    requires Lawful(h) && i < j < |Events(h)| && NoFreshStart(Events(h), i, j) && Events(h)[i].Answered?
    requires BehindAudio(Events(h)[j])
    ensures PassOf(Upto(h, j)).now - Events(h)[i].over >= PAGE_SETTLE_MS
  {
    hide Legal, Enter;
    SeenBefore(h, i, j);
    UndisturbedAt(h, j);
    SettleStands(Upto(h, j), i);
  }

  lemma BehindRequest(h: History, i: nat, j: nat)
    requires Lawful(h) && i < j < |Events(h)| && NoFreshStart(Events(h), i, j) && Events(h)[i].AudioAsked?
    requires BehindAudio(Events(h)[j]) && forall k :: i < k < j ==> !Events(h)[k].AudioAsked?
    ensures !Events(h)[i].accepted
  {
    hide Legal, Enter;
    SeenBefore(h, i, j);
    UndisturbedAt(h, j);
    RequestStands(Upto(h, j), i);
  }

  /** A SETTLING PAGE IS LEFT ALONE: for 3 s after an answered page no pass pages,
      escalates or connects, unless a resume or a closed episode came in between. */
  lemma {:induction false} PagesSettle(turns: seq<Turn>, t: int, i: nat, j: nat)
    requires PossibleRun(Initial(), t, turns) && i < j < |Did(turns)| && NoFreshStart(Did(turns), i, j)
    requires Did(turns)[i].Answered? && BehindAudio(Did(turns)[j]) && InPass(Did(turns)[j])
    ensures Did(turns)[j].at - Did(turns)[i].over >= PAGE_SETTLE_MS
  {
    hide Legal, Enter;
    Conformance.RunObeys(turns, t);
    var h := Run(Initial(), turns).log;
    Moment(h, j);
    Stamped(Upto(h, j), Events(h)[j]);
    BehindAnswer(h, i, j);
  }

  /** AN ACCEPTED AUDIO REQUEST IS LEFT ALONE: until it is made again, the machine
      resumes or the episode is closed, no pass pages, escalates or connects. */
  lemma {:induction false} AcceptedAudioIsAwaited(turns: seq<Turn>, t: int, i: nat, j: nat)
    requires PossibleRun(Initial(), t, turns) && i < j < |Did(turns)| && NoFreshStart(Did(turns), i, j)
    requires Did(turns)[i].AudioAsked? && BehindAudio(Did(turns)[j])
    requires forall k :: i < k < j ==> !Did(turns)[k].AudioAsked?
    ensures !Did(turns)[i].accepted
  {
    hide Legal;
    Conformance.RunObeys(turns, t);
    BehindRequest(Run(Initial(), turns).log, i, j);
  }

  // -------------------------------------------------------------------------
  // Pages, audio requests and repairs
  // -------------------------------------------------------------------------

  // The gate behind which a page, an audio request or a repair is legal.
  lemma AtItsGate(h: History, s: State, now: int, x: Stage, e: Event)
    requires LegalAt(h, s, now, x, e)
    ensures e.Paged? ==> x.Paging?
    ensures e.AudioAsked? ==> x.Asking?
    ensures e.RepairPass? ==> x.Repairing?
  {
    hide ToggleDue, MayBegin;
  }

  lemma DueAt(h: History, e: Event)
    requires Lawful(Then(h, e)) && (e.Paged? || e.AudioAsked? || e.RepairPass?)
    ensures var s, now := StateOf(h), PassOf(h).now;
            e.at == now
            && (e.Paged? ==> !PassOf(h).connected && PageDue(s, now))
            && (e.AudioAsked? ==> (s.audio.last != 0 ==> s.audio.last + AUDIO_CONNECT_CADENCE_MS <= now))
            && (e.RepairPass? ==> RepairDue(s.repair, now))
  {
    hide LegalAt, Settle, StageOf, Enter, PageDue, RepairDue;
    Stamped(h, e);
    AtItsGate(h, StateOf(h), PassOf(h).now, Now(h), e);
    Settles(StateOf(h), PassOf(h), StageOf(h));
  }

  lemma PageBehind(h: History, i: nat, j: nat)
    requires Lawful(h) && i < j < |Events(h)| && NoFreshStart(Events(h), i, j)
    requires Events(h)[i].Paged? && Events(h)[j].Paged? && forall k :: i < k < j ==> !Events(h)[k].Unpark?
    ensures Events(h)[j].at - Events(h)[i].sent >= PAGE_CADENCE_MS
  {
    hide Legal, Enter;
    Moment(h, j);
    SeenBefore(h, i, j);
    PageStands(Upto(h, j), i);
    DueAt(Upto(h, j), Events(h)[j]);
  }

  lemma RequestBehind(h: History, i: nat, j: nat)
    requires Lawful(h) && i < j < |Events(h)| && NoFreshStart(Events(h), i, j)
    requires Events(h)[i].AudioAsked? && Events(h)[j].AudioAsked?
    ensures Events(h)[j].at - Events(h)[i].asked >= AUDIO_CONNECT_CADENCE_MS
  {
    hide Legal, Enter;
    Moment(h, j);
    SeenBefore(h, i, j);
    RequestStands(Upto(h, j), i);
    DueAt(Upto(h, j), Events(h)[j]);
  }

  /** PAGES AND AUDIO REQUESTS KEEP THEIR CADENCE: with no resume, no closed episode
      -- and for pages no unpark -- in between, two of them are 10 s apart. */
  lemma {:induction false} PagesKeepTheirCadence(turns: seq<Turn>, t: int, i: nat, j: nat)
    requires PossibleRun(Initial(), t, turns) && i < j < |Did(turns)| && NoFreshStart(Did(turns), i, j)
    requires Did(turns)[i].Paged? && Did(turns)[j].Paged? && forall k :: i < k < j ==> !Did(turns)[k].Unpark?
    ensures Did(turns)[j].at - Did(turns)[i].sent >= PAGE_CADENCE_MS
  {
    hide Legal;
    Conformance.RunObeys(turns, t);
    PageBehind(Run(Initial(), turns).log, i, j);
  }

  lemma {:induction false} RequestsKeepTheirCadence(turns: seq<Turn>, t: int, i: nat, j: nat)
    requires PossibleRun(Initial(), t, turns) && i < j < |Did(turns)| && NoFreshStart(Did(turns), i, j)
    requires Did(turns)[i].AudioAsked? && Did(turns)[j].AudioAsked?
    ensures Did(turns)[j].at - Did(turns)[i].asked >= AUDIO_CONNECT_CADENCE_MS
  {
    hide Legal;
    Conformance.RunObeys(turns, t);
    RequestBehind(Run(Initial(), turns).log, i, j);
  }

  lemma {:induction false} RepairStands(h: History, i: nat)
    requires Lawful(h) && i < |Events(h)| && Events(h)[i].RepairPass?
    ensures 1 <= Events(h)[i].at <= StateOf(h).repair.last <= PassOf(h).now
  {
    hide LegalAt, Now, Enter;
    Distances.Shorter(h);
    Distances.InOrderSofar(h, i);
    RepairEnters(StateOf(h.before), h.last);
    PassBegan(h.before);
    if h.last.RepairPass? {
      Stamped(h.before, h.last);
    }
    if i < |Events(h.before)| {
      Distances.InOrderSofar(h.before, i);
      RepairStands(h.before, i);
    }
  }

  lemma RepairsApart(h: History, i: nat, j: nat)
    requires Lawful(h) && i < j < |Events(h)| && Events(h)[i].RepairPass? && Events(h)[j].RepairPass?
    ensures Events(h)[j].at - Events(h)[i].at >= RECOVERY_RETRY_MS
  {
    hide Legal, Enter;
    var p := Upto(h, j);
    Moment(h, j);
    SeenBefore(h, i, j);
    RepairStands(p, i);
    DueAt(p, Events(h)[j]);
    CappedMonotone(RECOVERY_RETRY_MS, 0, StateOf(p).repair.fails, RECOVERY_BACKOFF_CAP_MS);
  }

  /** Two repair passes are at least 5 s apart, whatever resets their backoff. */
  lemma {:induction false} RepairsKeepTheirInterval(turns: seq<Turn>, t: int, i: nat, j: nat)
    requires PossibleRun(Initial(), t, turns) && i < j < |Did(turns)|
    requires Did(turns)[i].RepairPass? && Did(turns)[j].RepairPass?
    ensures Did(turns)[j].at - Did(turns)[i].at >= RECOVERY_RETRY_MS
  {
    hide Legal;
    Conformance.RunObeys(turns, t);
    RepairsApart(Run(Initial(), turns).log, i, j);
  }
}
