/** How often each rung can run over a whole run: the five breakers of
    `state.rs` as `recover_link` consults them. */
module Rates {
  import opened Ladder
  import opened Runs
  import opened Replay
  import opened Protocol
  import Breaker
  import Conformance

  /** What counts as an attempt of the rung: its action, and for the connect rung
      every connect pass, whether it toggles or not. */
  predicate IsAttempt(rung: Rung, e: Event) {
    if rung.ConnectRung? then e.Asked? && e.rung.ConnectRung? && e.granted else IsAction(rung, e)
  }

  /** The reading at which the pass of the attempt began. */
  function AttemptTime(rung: Rung, e: Event): int
    requires IsAttempt(rung, e)
  {
    e.at
  }

  // -------------------------------------------------------------------------
  // One breaker, read off the history
  // -------------------------------------------------------------------------

  // The questions put to one breaker.
  function Questions(h: History, rung: Rung): seq<int> {
    match h
    case Start => []
    case Then(p, e) => Questions(p, rung) + (if e.Asked? && e.rung == rung then [e.at] else [])
  }

  lemma OnlyQuestions(s: State, e: Event, rung: Rung)
    ensures BreakerOf(Enter(s, e), rung)
            == if e.Asked? && e.rung == rung then Breaker.Allow(BreakerOf(s, rung), e.at).0 else BreakerOf(s, rung)
  {
  }

  lemma {:induction false} QuestionsInOrder(h: History, rung: Rung)
    requires Lawful(h)
    ensures Breaker.NonDecreasing(Questions(h, rung)) && 0 <= PassOf(h).now <= Clock(h)
    ensures forall i :: 0 <= i < |Questions(h, rung)| ==> 0 <= Questions(h, rung)[i] <= PassOf(h).now
  {
    hide Enter, Now, LegalAt;
    if h.Then? {
      QuestionsInOrder(h.before, rung);
      if h.last.Asked? {
        AskedAtGate(h.before, h.last);
      }
    }
  }

  // -------------------------------------------------------------------------
  // The theorem
  // -------------------------------------------------------------------------

  /** Attempts of `rung` that began within `[lo, hi)`. */
  function AttemptsWithin(es: seq<Event>, rung: Rung, lo: int, hi: int): nat {
    if es == [] then 0 else
    var e := es[|es| - 1];
    AttemptsWithin(es[..|es| - 1], rung, lo, hi)
    + (if IsAttempt(rung, e) && lo <= AttemptTime(rung, e) < hi then 1 else 0)
  }

  lemma AttemptsSnoc(es: seq<Event>, e: Event, rung: Rung, lo: int, hi: int)
    ensures AttemptsWithin(es + [e], rung, lo, hi)
            == AttemptsWithin(es, rung, lo, hi)
               + (if IsAttempt(rung, e) && lo <= AttemptTime(rung, e) < hi then 1 else 0)
  {
    assert (es + [e])[..|es|] == es;
  }

  // A granted question that its attempt may still spend.
  function Ticket(h: History, rung: Rung, lo: int, hi: int): nat {
    if h.Then? && !rung.ConnectRung? && h.last.Asked? && h.last.rung == rung && h.last.granted && lo <= h.last.at < hi
    then 1 else 0
  }

  // Every attempt spends a granted question of its own.
  lemma {:induction false} AttemptsAreGranted(h: History, rung: Rung, lo: int, hi: int)
    requires Lawful(h)
    ensures BreakerOf(StateOf(h), rung) == Breaker.After(FreshBreaker(rung), Questions(h, rung))
    ensures AttemptsWithin(Events(h), rung, lo, hi) + Ticket(h, rung, lo, hi)
            <= Breaker.AllowedWithin(FreshBreaker(rung), Questions(h, rung), lo, hi)
  {
    hide Enter, Now, LegalAt;
    if h.Then? {
      AttemptsAreGranted(h.before, rung, lo, hi);
      AttemptsSnoc(Events(h.before), h.last, rung, lo, hi);
      OnlyQuestions(StateOf(h.before), h.last, rung);
      if h.last.Asked? && h.last.rung == rung {
        AskedAtGate(h.before, h.last);
        Breaker.Snoc(FreshBreaker(rung), Questions(h.before, rung), h.last.at, lo, hi);
      } else {
        assert Questions(h, rung) == Questions(h.before, rung);
        if IsAction(rung, h.last) {
          ActsAtGate(h.before, rung, h.last);
        }
      }
    }
  }

  lemma LawfulIsLimited(h: History, rung: Rung, lo: int, k: nat)
    requires Lawful(h)
    ensures var b := FreshBreaker(rung);
            AttemptsWithin(Events(h), rung, lo, lo + k * b.window) <= (k + 1) * b.maxEvents
  {
    hide Legal;
    var b := FreshBreaker(rung);
    QuestionsInOrder(h, rung);
    AttemptsAreGranted(h, rung, lo, lo + k * b.window);
    Breaker.RateBound(b, Questions(h, rung), lo, k);
  }

  /** THE RATE OF EVERY RUNG: in every run, any `k` breaker windows in a row see
      at most `k + 1` windows' worth of attempts -- page-scan toggles, earbud
      restarts, usb-cycles, hub port cycles and connect passes alike. */
  lemma {:induction false} RungsAreRateLimited(turns: seq<Turn>, t: int, rung: Rung, lo: int, k: nat)
    requires PossibleRun(Initial(), t, turns)
    ensures var b := FreshBreaker(rung);
            AttemptsWithin(Did(turns), rung, lo, lo + k * b.window) <= (k + 1) * b.maxEvents
  {
    Conformance.RunObeys(turns, t);
    LawfulIsLimited(Run(Initial(), turns).log, rung, lo, k);
  }

  /** Every rung's action, and every driver toggle, directly follows the granted
      question of its own pass: a toggle is one of the connect passes counted. */
  lemma {:induction false} EveryActionIsLicensed(turns: seq<Turn>, t: int, rung: Rung, n: nat)
    requires PossibleRun(Initial(), t, turns) && n < |Did(turns)| && IsAction(rung, Did(turns)[n])
    ensures n > 0 && Did(turns)[n - 1] == Asked(rung, Did(turns)[n].at, true)
  {
    hide Legal;
    var h := Run(Initial(), turns).log;
    Conformance.RunObeys(turns, t);
    Moment(h, n);
    ActsAtGate(Upto(h, n), rung, Events(h)[n]);
    assert Events(Upto(h, n))[n - 1] == Upto(h, n).last;
  }

  /** ... and each rung's breaker is the one that answered all questions so far. */
  lemma {:induction false} RunMetered(turns: seq<Turn>, rung: Rung, t: int)
    requires PossibleRun(Initial(), t, turns)
    ensures var s := Run(Initial(), turns);
            BreakerOf(s, rung) == Breaker.After(FreshBreaker(rung), Questions(s.log, rung))
  {
    hide Legal;
    Conformance.RunObeys(turns, t);
    AttemptsAreGranted(Run(Initial(), turns).log, rung, 0, 0);
  }
}
