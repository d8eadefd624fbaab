/** The order of the rungs within one armed episode: `recover_link` in
    `worker.rs`. */
module Episodes {
  import opened Config
  import opened Numeric
  import opened Ladder
  import opened Runs
  import opened Replay
  import opened Protocol
  import Conformance

  // -------------------------------------------------------------------------
  // What the history says about the current episode
  // -------------------------------------------------------------------------

  /** Since the last closed episode: usb-cycle attempts, whether one was verified,
      and whether the page-scan rung was attempted or found muted. */
  datatype Episode = Episode(cycles: nat, verified: bool, scanned: bool)

  function Seen(x: Episode, e: Event): Episode {
    match e
    case EpisodeClosed => Episode(0, false, false)
    case PageScan(_, _, _) => x.(scanned := true)
    case PageScanMuted => x.(scanned := true)
    case UsbCycle(_, ok, _) => x.(cycles := x.cycles + 1, verified := x.verified || ok)
    case _ => x
  }

  function EpisodeOf(h: History): Episode {
    match h
    case Start => Episode(0, false, false)
    case Then(p, e) => Seen(EpisodeOf(p), e)
  }

  // -------------------------------------------------------------------------
  // The invariant
  // -------------------------------------------------------------------------

  /** What the fields remember of the history in a pass at `now`. The last four
      conjuncts keep the flap storm from ever writing the "not armed" sentinel
      over an episode with a rung in it. */
  predicate Tracks(x: Episode, s: State, now: int) {
    (x.verified ==> x.cycles > 0)
    && (s.r1.inEpisode ==> x.scanned && s.r1.armed != 0)
    && (s.r2.inEpisode ==> x.verified)
    && (x.cycles > 0 ==> s.r1.inEpisode && s.r2.last >= s.r1.armed)
    && (s.r1.inEpisode ==> s.r1.armed + R1_ARM_MS <= now || s.r1.rejects >= R1_DEAD_REJECTIONS)
    && (s.r1.rejects >= 1 ==> s.r1.last >= 1)
    && (s.r1.rejects >= 2 ==> s.r1.last > R1_COOLDOWN_MS)
    && s.r1.last <= now
  }

  predicate Tracked(h: History) {
    Tracks(EpisodeOf(h), StateOf(h), PassOf(h).now)
    && (StageOf(h).Scanning? && StateOf(h).r1.rejects >= R1_DEAD_REJECTIONS ==> StateOf(h).r1.armed != 0)
  }

  // What a legal event may assume.
  predicate Allowed(s: State, now: int, e: Event) {
    match e
    case PageScan(at, _, _) => at == now >= 1 && ScanDue(s, at) && s.r1.rejects < R1_DEAD_REJECTIONS
    case UsbCycle(at, _, _) => at == now && CycleDue(s, at)
    case PageScanMuted => s.r1.rejects >= R1_DEAD_REJECTIONS && s.r1.armed != 0
    case Escalating(at) => at == now >= 1
    case _ => true
  }

  lemma Keeps(x: Episode, s: State, e: Event, now: int, u: int)
    requires Tracks(x, s, now) && Allowed(s, now, e) && now <= u
    ensures Tracks(Seen(x, e), Enter(s, e), u)
    ensures e.Escalating? && s.r1.rejects >= R1_DEAD_REJECTIONS ==> Enter(s, e).r1.armed != 0
  {
  }

  // The page-scan rung is muted right behind `Escalating`.
  lemma MutedAt(h: History, e: Event)
    requires Legal(h, e) && e.PageScanMuted?
    ensures StageOf(h).Scanning? && StateOf(h).r1.rejects >= R1_DEAD_REJECTIONS
  {
    hide StateOf, Settle, Behind;
    assert Now(h).Scanning?;
    Settles(StateOf(h), PassOf(h), StageOf(h));
  }

  lemma IsAllowed(h: History, e: Event)
    requires Lawful(Then(h, e)) && Tracked(h)
    ensures Allowed(StateOf(h), PassOf(h).now, e)
  {
    hide LegalAt, Now, Tracks, Enter, ScanDue, CycleDue;
    if InPass(e) {
      Stamped(h, e);
    }
    if e.PageScan? {
      ActsAtGate(h, PageScanRung, e);
    } else if e.UsbCycle? {
      ActsAtGate(h, UsbRung, e);
    } else if e.PageScanMuted? {
      MutedAt(h, e);
    }
  }

  lemma RejectsStay(s: State, e: Event)
    requires e.Escalating?
    ensures Enter(s, e).r1.rejects == s.r1.rejects
  {
  }

  lemma ScanningBehind(h: History)
    requires StageOf(h).Scanning?
    ensures h.last.Escalating?
  {
    hide StateOf;
  }

  lemma {:induction false} AllTracked(h: History)
    requires Lawful(h)
    ensures Tracked(h)
  {
    if h.Then? {
      hide LegalAt, Now, Tracks, Seen, Enter, Allowed, StageOf;
      AllTracked(h.before);
      IsAllowed(h.before, h.last);
      PassBegan(h.before);
      Keeps(EpisodeOf(h.before), StateOf(h.before), h.last, PassOf(h.before).now, PassOf(h).now);
      if StageOf(h).Scanning? {
        ScanningBehind(h);
        RejectsStay(StateOf(h.before), h.last);
      }
    }
  }

  // -------------------------------------------------------------------------
  // The theorems, over the events of a whole run
  // -------------------------------------------------------------------------

  /** No episode was closed between events `i` and `j`. */
  predicate OneEpisode(es: seq<Event>, i: int, j: int)
    requires -1 <= i && j <= |es|
  {
    forall k :: i < k < j ==> !es[k].EpisodeClosed?
  }

  lemma {:induction false} CycleIsCounted(h: History, i: nat)
    requires i < |Events(h)| && Events(h)[i].UsbCycle? && OneEpisode(Events(h), i, |Events(h)|)
    ensures EpisodeOf(h).cycles > 0
  {
    var es := Events(h.before);
    if i < |es| {
      assert Events(h)[|es|] == h.last;
      assert forall k :: i < k < |es| ==> Events(h)[k] == es[k];
      CycleIsCounted(h.before, i);
    }
  }

  lemma {:induction false} VerifiedAt(h: History) returns (i: nat)
    requires EpisodeOf(h).verified
    ensures i < |Events(h)| && Events(h)[i].UsbCycle? && Events(h)[i].ok && OneEpisode(Events(h), i, |Events(h)|)
  {
    if h.last.UsbCycle? && h.last.ok {
      i := |Events(h.before)|;
    } else {
      i := VerifiedAt(h.before);
    }
  }

  lemma {:induction false} ScannedAt(h: History) returns (i: nat)
    requires EpisodeOf(h).scanned
    ensures i < |Events(h)| && (Events(h)[i].PageScan? || Events(h)[i].PageScanMuted?)
    ensures OneEpisode(Events(h), i, |Events(h)|)
  {
    if h.last.PageScan? || h.last.PageScanMuted? {
      i := |Events(h.before)|;
    } else {
      i := ScannedAt(h.before);
    }
  }

  lemma SamePast(h: History, i: nat, j: nat)
    requires i <= j <= |Events(h)|
    ensures OneEpisode(Events(h), i, j) <==> OneEpisode(Events(Upto(h, j)), i, j)
  {
    assert forall k :: 0 <= k < j ==> Events(Upto(h, j))[k] == Events(h)[k];
  }

  lemma CyclesApart(h: History, i: nat, j: nat)
    requires Lawful(h) && i < j < |Events(h)| && Events(h)[i].UsbCycle? && Events(h)[j].UsbCycle?
    ensures !OneEpisode(Events(h), i, j)
  {
    hide Legal, Enter;
    var p := Upto(h, j);
    Moment(h, j);
    AllTracked(p);
    ActsAtGate(p, UsbRung, Events(h)[j]);
    SamePast(h, i, j);
    if OneEpisode(Events(h), i, j) {
      assert Events(p)[i] == Events(h)[i];
      CycleIsCounted(p, i);
    }
  }

  lemma CycleBehindScan(h: History, j: nat) returns (i: nat)
    requires Lawful(h) && j < |Events(h)| && Events(h)[j].UsbCycle?
    ensures i < j && OneEpisode(Events(h), i, j) && (Events(h)[i].PageScan? || Events(h)[i].PageScanMuted?)
  {
    hide Legal, Enter;
    var p := Upto(h, j);
    Moment(h, j);
    AllTracked(p);
    ActsAtGate(p, UsbRung, Events(h)[j]);
    i := ScannedAt(p);
    SamePast(h, i, j);
    assert Events(p)[i] == Events(h)[i];
  }

  lemma HubBehindCycle(h: History, j: nat) returns (i: nat)
    requires Lawful(h) && j < |Events(h)| && Events(h)[j].HubCycle?
    ensures i < j && OneEpisode(Events(h), i, j) && Events(h)[i].UsbCycle? && Events(h)[i].ok
  {
    hide Legal, Enter;
    var p := Upto(h, j);
    Moment(h, j);
    AllTracked(p);
    ActsAtGate(p, HubRung, Events(h)[j]);
    i := VerifiedAt(p);
    SamePast(h, i, j);
    assert Events(p)[i] == Events(h)[i];
  }

  // Of the usb-cycles of one episode there is only one.
  lemma OnlyCycle(h: History, i: nat, k: nat, j: nat)
    requires Lawful(h) && i < j < |Events(h)| && k < j && k != i
    requires Events(h)[i].UsbCycle? && Events(h)[k].UsbCycle? && OneEpisode(Events(h), i, j)
    ensures !OneEpisode(Events(h), k, j)
  {
    CyclesApart(h, if k < i then k else i, if k < i then i else k);
  }

  /** ONE USB-CYCLE PER EPISODE: between any two usb-cycle attempts of a run an
      episode was closed. */
  lemma {:induction false} OneCyclePerEpisode(turns: seq<Turn>, t: int, i: nat, j: nat)
    requires PossibleRun(Initial(), t, turns)
    requires i < j < |Did(turns)| && Did(turns)[i].UsbCycle? && Did(turns)[j].UsbCycle?
    ensures !OneEpisode(Did(turns), i, j)
  {
    hide Legal;
    Conformance.RunObeys(turns, t);
    CyclesApart(Run(Initial(), turns).log, i, j);
  }

  /** SOFT BEFORE HARD: every usb-cycle of a run comes after the page-scan rung
      of the same episode was attempted or found muted. */
  lemma {:induction false} CycleAfterPageScan(turns: seq<Turn>, t: int, j: nat) returns (i: nat)
    requires PossibleRun(Initial(), t, turns) && j < |Did(turns)| && Did(turns)[j].UsbCycle?
    ensures i < j && OneEpisode(Did(turns), i, j) && (Did(turns)[i].PageScan? || Did(turns)[i].PageScanMuted?)
  {
    hide Legal;
    Conformance.RunObeys(turns, t);
    i := CycleBehindScan(Run(Initial(), turns).log, j);
  }

  /** Every hub port cycle of a run comes after a usb-cycle of the same episode
      that brought the radio back -- and, that being the episode's only attempt,
      never in an episode whose usb-cycle failed. */
  lemma {:induction false} HubCycleAfterVerifiedCycle(turns: seq<Turn>, t: int, j: nat) returns (i: nat)
    requires PossibleRun(Initial(), t, turns) && j < |Did(turns)| && Did(turns)[j].HubCycle?
    ensures i < j && OneEpisode(Did(turns), i, j) && Did(turns)[i].UsbCycle? && Did(turns)[i].ok
    ensures forall k :: 0 <= k < j && k != i && Did(turns)[k].UsbCycle? ==> !OneEpisode(Did(turns), k, j)
  {
    hide Legal;
    Conformance.RunObeys(turns, t);
    var h := Run(Initial(), turns).log;
    i := HubBehindCycle(h, j);
    forall k | 0 <= k < j && k != i && Did(turns)[k].UsbCycle? ensures !OneEpisode(Did(turns), k, j) {
      OnlyCycle(h, i, k, j);
    }
  }

  /** In every reachable state a rung recorded for the episode means that the
      episode is armed. */
  lemma {:induction false} EpisodeFlagsAreArmed(turns: seq<Turn>, t: int)
    requires PossibleRun(Initial(), t, turns)
    ensures var s := Run(Initial(), turns); s.r1.inEpisode || s.r2.inEpisode ==> s.r1.armed != 0
  {
    hide Legal;
    Conformance.RunObeys(turns, t);
    AllTracked(Run(Initial(), turns).log);
  }
}
