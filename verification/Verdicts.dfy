/** What the verdicts of the connect passes leave behind: the absence that freezes
    the dongle rungs, the failures that stretch the backoff, and the earliest time of
    the next attempt. */
module Verdicts {
  import opened Config
  import opened Numeric
  import opened Gates
  import opened Ladder
  import opened Runs
  import opened Replay
  import opened Protocol
  import opened Wrappers
  import Conformance
  import Distances

  // -------------------------------------------------------------------------
  // Counting verdicts
  // -------------------------------------------------------------------------

  // A rung of ours that worked.
  predicate Worked(e: Event) {
    (e.PageScan? || e.EarbudRestart? || e.UsbCycle? || e.HubCycle?) && e.ok
  }

  /** What `e` makes of the number of absent verdicts in a row ... */
  function Miss(n: nat, e: Event): nat {
    if e.EpisodeClosed? || e.Recovered? then 0
    else if !e.ConnectDone? then n
    else if e.verdict.NotFound? then n + 1
    else if e.verdict.Connected? || e.verdict.Failed? then 0
    else n
  }

  /** ... and of the number of failures in a row. */
  function Loss(n: nat, e: Event): nat {
    if e.Recovered? || Worked(e) || (e.Found? && e.ready) then 0
    else if !e.ConnectDone? then n
    else if e.verdict.NotFound? || e.verdict.Failed? then n + 1
    else if e.verdict.Connected? || e.verdict.Reconnecting? then 0
    else n
  }

  /** Absent verdicts since the last pass that connected or failed otherwise, the last
      repair and the last closed episode. */
  function Misses(es: seq<Event>): nat {
    if es == [] then 0 else Miss(Misses(es[..|es| - 1]), es[|es| - 1])
  }

  /** Failures since the last success: a pass that connected or toggled, a rung or a
      repair that worked, a ready poll. */
  function Losses(es: seq<Event>): nat {
    if es == [] then 0 else Loss(Losses(es[..|es| - 1]), es[|es| - 1])
  }

  lemma Snoc(es: seq<Event>, e: Event)
    ensures Misses(es + [e]) == Miss(Misses(es), e) && Losses(es + [e]) == Loss(Losses(es), e)
  {
    assert (es + [e])[..|es|] == es;
  }

  function Saturated(n: nat): u32 {
    Min(n, U32_MAX)
  }

  lemma CountsEnter(s: State, e: Event, misses: nat, losses: nat)
    requires s.connect.absent == Saturated(misses) && s.connect.fails == Saturated(losses)
    ensures Enter(s, e).connect.absent == Saturated(Miss(misses, e))
    ensures Enter(s, e).connect.fails == Saturated(Loss(losses, e))
  {
  }

  lemma {:induction false} VerdictsAreCounted(h: History)
    ensures StateOf(h).connect.absent == Saturated(Misses(Events(h)))
    ensures StateOf(h).connect.fails == Saturated(Losses(Events(h)))
  {
    if h.Then? {
      hide Enter;
      VerdictsAreCounted(h.before);
      Snoc(Events(h.before), h.last);
      CountsEnter(StateOf(h.before), h.last, Misses(Events(h.before)), Losses(Events(h.before)));
    }
  }

  /** In every reachable state the two counters are those numbers. */
  lemma {:induction false} CountersAreVerdicts(turns: seq<Turn>, t: int)
    requires PossibleRun(Initial(), t, turns)
    ensures var s := Run(Initial(), turns);
            s.connect.absent == Saturated(Misses(Did(turns))) && s.connect.fails == Saturated(Losses(Did(turns)))
  {
    hide Extends;
    Conformance.RunObeys(turns, t);
    VerdictsAreCounted(Run(Initial(), turns).log);
  }

  lemma MissesAt(h: History, rung: Rung, j: nat)
    requires Lawful(h) && j < |Events(h)| && (rung.UsbRung? || rung.HubRung?) && IsAction(rung, Events(h)[j])
    ensures Misses(Events(h)[..j]) < PEER_ABSENT_FREEZE_AFTER
  {
    hide Legal, Enter, Misses;
    Moment(h, j);
    VerdictsAreCounted(Upto(h, j));
    ActsAtGate(Upto(h, j), rung, Events(h)[j]);
  }

  /** AN ABSENT PEER IS NO REASON TO TOUCH THE DONGLE: no run cycles the dongle or its
      port behind five absent verdicts in a row. */
  lemma {:induction false} AbsentPeerFreezes(turns: seq<Turn>, t: int, j: nat)
    requires PossibleRun(Initial(), t, turns) && j < |Did(turns)|
    requires Did(turns)[j].UsbCycle? || Did(turns)[j].HubCycle?
    ensures Misses(Did(turns)[..j]) < PEER_ABSENT_FREEZE_AFTER
  {
    hide Legal;
    Conformance.RunObeys(turns, t);
    MissesAt(Run(Initial(), turns).log, if Did(turns)[j].UsbCycle? then UsbRung else HubRung, j);
  }

  // -------------------------------------------------------------------------
  // The earliest time of the next connect pass
  // -------------------------------------------------------------------------

  /** Events that set that time. */
  predicate SetsNext(e: Event) {
    (e.DebtRead? && e.unpaid) || e.Recovered? || e.Answered? || Worked(e) || (e.Found? && e.ready) || e.Unpark?
    || e.ConnectDone?
  }

  /** 500 ms for the first failure in a row, doubled for each further one up to 4 s. */
  function Backoff(losses: nat): nat {
    if losses <= 1 then 500 else if losses == 2 then 1_000 else if losses == 3 then 2_000 else 4_000
  }

  /** The time that `e` sets, `losses` being the failures in a row, its own included. */
  function NextFrom(e: Event, losses: nat): int
    requires SetsNext(e)
  {
    match e
    case DebtRead(at, _) => at + 1_000
    case Recovered(next, _) => next + 2_000
    case Answered(over, _) => over + 3_000
    case PageScan(at, _, _) => at + 2_000
    case EarbudRestart(_, _, done) => done + 3_000
    case UsbCycle(_, _, done) => done + 2_000
    case HubCycle(_, _, done) => done + 2_000
    case ConnectDone(at, verdict, settled) =>
      if verdict.Connected? then 0
      else if verdict.Reconnecting? then settled + 3_000
      else if verdict.NotFound? || verdict.Failed? then at + Backoff(losses)
      else at + 1_000
    case _ => 0
  }

  lemma {:induction false} BackoffIs(losses: nat)
    requires losses > 0
    ensures ConnectBackoff(Saturated(losses)) == Backoff(losses)
  {
    var n := Saturated(losses) - 1;
    assert Pow2(0) == 1 && Pow2(1) == 2 && Pow2(2) == 4 && Pow2(3) == 8;
    if n >= 3 {
      CappedMonotone(CONNECT_BACKOFF_BASE_MS, 3, n, CONNECT_BACKOFF_CAP_MS);
    }
  }

  lemma NextEnters(s: State, e: Event, losses: nat)
    requires SetsNext(e) && Enter(s, e).connect.fails == Saturated(losses)
    requires e.ConnectDone? && (e.verdict.NotFound? || e.verdict.Failed?) ==> losses > 0
    ensures Enter(s, e).connect.next == NextFrom(e, losses)
  {
    if losses > 0 {
      BackoffIs(losses);
    }
  }

  lemma NextStays(s: State, e: Event)
    requires !SetsNext(e)
    ensures Enter(s, e).connect.next == s.connect.next
  {
  }

  lemma {:induction false} NextStands(h: History, i: nat)
    requires i < |Events(h)| && SetsNext(Events(h)[i])
    requires forall k :: i < k < |Events(h)| ==> !SetsNext(Events(h)[k])
    ensures StateOf(h).connect.next == NextFrom(Events(h)[i], Losses(Events(h)[..i + 1]))
  {
    hide Enter, Losses, Misses, NextFrom, SetsNext;
    Distances.Shorter(h);
    if i < |Events(h.before)| {
      NextStays(StateOf(h.before), h.last);
      NextStands(h.before, i);
      assert Events(h)[..i + 1] == Events(h.before)[..i + 1];
    } else {
      assert Events(h)[..i + 1] == Events(h);
      NextSet(h);
    }
  }

  lemma NextSet(h: History)
    requires h.Then? && SetsNext(h.last)
    ensures StateOf(h).connect.next == NextFrom(h.last, Losses(Events(h)))
  {
    hide Enter;
    VerdictsAreCounted(h);
    Snoc(Events(h.before), h.last);
    NextEnters(StateOf(h.before), h.last, Losses(Events(h)));
  }

  lemma ConnectBehind(h: History, i: nat, j: nat)
    requires Lawful(h) && i < j < |Events(h)| && SetsNext(Events(h)[i])
    requires forall k :: i < k < j ==> !SetsNext(Events(h)[k])
    requires Events(h)[j].Asked? && Events(h)[j].rung.ConnectRung?
    ensures Events(h)[j].at >= NextFrom(Events(h)[i], Losses(Events(h)[..i + 1]))
  {
    hide Legal, Enter;
    var p := Upto(h, j);
    Moment(h, j);
    assert forall n :: 0 <= n < j ==> Events(p)[n] == Events(h)[n];
    assert Events(p)[..i + 1] == Events(h)[..i + 1];
    NextStands(p, i);
    AskedAtGate(p, Events(h)[j]);
  }

  /** THE BACKOFF OF CONNECT PASSES: none begins before the time set last -- by an
      unpaid debt, a repair, an answered page, a rung that worked, or the verdict of
      the last pass. */
  lemma {:induction false} ConnectsKeepTheirBackoff(turns: seq<Turn>, t: int, i: nat, j: nat)
    requires PossibleRun(Initial(), t, turns) && i < j < |Did(turns)| && SetsNext(Did(turns)[i])
    requires forall k :: i < k < j ==> !SetsNext(Did(turns)[k])
    requires Did(turns)[j].Asked? && Did(turns)[j].rung.ConnectRung?
    ensures Did(turns)[j].at >= NextFrom(Did(turns)[i], Losses(Did(turns)[..i + 1]))
  {
    hide Legal;
    Conformance.RunObeys(turns, t);
    ConnectBehind(Run(Initial(), turns).log, i, j);
  }
}
