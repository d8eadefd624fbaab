/** Crash safety of the profile toggle: `connect.rs`, and the repay step of
    `recover_link` in `worker.rs`.

    A pass may be cut off between any two IO steps; the next one starts from
    what is on disk. A driver the daemon removed and has not put back must
    always be named by the marker file. */
module Debt {
  import opened Config
  import opened Numeric
  import opened Backoff
  import opened ConnectFsm
  import opened Wrappers

  // -------------------------------------------------------------------------
  // What one pass costs and what its receipts mean
  // -------------------------------------------------------------------------

  function SetCalls(t: Trace): nat {
    if t == [] then 0 else (if t[0].SetState? then 1 else 0) + SetCalls(t[1..])
  }

  function Waited(t: Trace): nat {
    if t == [] then 0 else (if t[0].Wait? then t[0].ms else 0) + Waited(t[1..])
  }

  predicate Removes(s: IoStep) {
    s.SetState? && !s.enable && Classify(s.rc) == Changed
  }

  predicate Disables(s: IoStep) {
    s.SetState? && !s.enable
  }

  predicate AnyRemoval(t: Trace) {
    exists i :: 0 <= i < |t| && Removes(t[i])
  }

  predicate AnyDisable(t: Trace) {
    exists i :: 0 <= i < |t| && Disables(t[i])
  }

  // The waits still ahead of a re-enable at `attempt`.
  function WaitsFrom(attempt: nat): nat
    decreases CONNECT_REENABLE_ATTEMPTS - attempt
  {
    if attempt >= CONNECT_REENABLE_ATTEMPTS then 0 else ReenableWait(attempt) + WaitsFrom(attempt + 1)
  }

  lemma AllWaits()
    ensures WaitsFrom(0) == 19_900
  {
    assert Pow2(1) == 2 && Pow2(2) == 4 && Pow2(3) == 8 && Pow2(4) == 16 && Pow2(5) == 32 && Pow2(6) == 64;
    assert WaitsFrom(6) == 8_000;
    assert WaitsFrom(3) == 18_000;
  }

  // The first two steps of a script.
  lemma TwoSteps(t: Trace)
    requires |t| >= 2
    ensures SetCalls(t) == (if t[0].SetState? then 1 else 0) + (if t[1].SetState? then 1 else 0) + SetCalls(t[2..])
    ensures Waited(t) == (if t[0].Wait? then t[0].ms else 0) + (if t[1].Wait? then t[1].ms else 0) + Waited(t[2..])
  {
    assert t[1..][1..] == t[2..] && t[1..][0] == t[1];
  }

  lemma NoDisableIn(t: Trace)
    requires |t| >= 2 && !Disables(t[0]) && !Disables(t[1]) && !AnyDisable(t[2..])
    ensures !AnyDisable(t)
  {
    forall i | 0 <= i < |t| ensures !Disables(t[i]) {
      if i >= 2 {
        assert t[i] == t[2..][i - 2];
      }
    }
  }

  lemma {:induction false} ReenableBudget(p: Profile, attempt: nat, t: Trace, ok: bool)
    requires ReenableTrace(p, attempt, t, ok)
    ensures SetCalls(t) <= (if attempt >= CONNECT_REENABLE_ATTEMPTS then 0 else CONNECT_REENABLE_ATTEMPTS - attempt)
    ensures Waited(t) <= WaitsFrom(attempt)
    ensures !AnyDisable(t)
    decreases |t|
  {
    if attempt < CONNECT_REENABLE_ATTEMPTS {
      var u := t[2..];
      TwoSteps(t);
      if Restores(t[1].rc) {
        ReenableDone(u);
      } else {
        ReenableBudget(p, attempt + 1, u, ok);
      }
      NoDisableIn(t);
    }
  }

  // After the step that restored the driver at most the marker is cleared.
  lemma ReenableDone(u: Trace)
    requires |u| <= 1 && forall s <- u :: s.Clear?
    ensures SetCalls(u) == 0 && Waited(u) == 0 && !AnyDisable(u)
  {
    if u != [] {
      assert u[0] in u && u[1..] == [];
    }
  }

  const LONGEST_WAIT: nat := 19_900

  lemma ReenableCost(p: Profile, t: Trace, ok: bool)
    requires ReenableTrace(p, 0, t, ok)
    ensures SetCalls(t) <= CONNECT_REENABLE_ATTEMPTS && Waited(t) <= LONGEST_WAIT && !AnyDisable(t)
  {
    ReenableBudget(p, 0, t, ok);
    AllWaits();
  }

  lemma ToggleBudget(p: Profile, t: Trace, r: ConnectResult)
    requires ToggleTrace(p, t, r)
    ensures SetCalls(t) <= 1 + CONNECT_REENABLE_ATTEMPTS
    ensures Waited(t) <= LONGEST_WAIT
    ensures r.toggled <==> AnyRemoval(t)
    ensures r.serviceLeftDisabled <==> r.outcome == ServiceDebt
    ensures r.toggled <==> r.outcome in {Reconnecting, ServiceDebt}
  {
    if t[0].ok {
      TwoSteps(t);
      if Classify(t[1].rc) == Changed {
        ReenableCost(p, t[2..], r.outcome == Reconnecting);
        assert Removes(t[1]);
      } else {
        assert t[2..][1..] == [];
        assert !Removes(t[0]) && !Removes(t[1]) && !Removes(t[2]);
      }
    } else {
      assert t[1..] == [];
    }
  }

  lemma RemovalBehind(t: Trace)
    requires t != [] && !Disables(t[0])
    ensures AnyRemoval(t) <==> AnyRemoval(t[1..])
    ensures AnyDisable(t) <==> AnyDisable(t[1..])
  {
    var u := t[1..];
    assert forall i :: 1 <= i < |t| ==> t[i] == u[i - 1];
    assert forall i :: 0 <= i < |u| ==> u[i] == t[i + 1];
  }

  /** What a script of at most `calls` calls costs and what its result means. */
  predicate Receipts(allow: bool, t: Trace, r: ConnectResult, calls: nat) {
    SetCalls(t) <= calls && Waited(t) <= LONGEST_WAIT
    && (r.toggled <==> AnyRemoval(t))
    && (r.serviceLeftDisabled <==> r.outcome == ServiceDebt)
    && (r.toggled <==> r.outcome in {Reconnecting, ServiceDebt})
    && (!allow ==> !AnyDisable(t) && r.outcome != Inert)
  }

  // A plain enable in front costs one call and changes nothing else.
  lemma EnableInFront(allow: bool, t: Trace, r: ConnectResult, calls: nat)
    requires t != [] && t[0].SetState? && t[0].enable && Receipts(allow, t[1..], r, calls)
    ensures Receipts(allow, t, r, calls + 1)
  {
    RemovalBehind(t);
  }

  lemma NothingDone(allow: bool, r: ConnectResult)
    requires !r.toggled && !r.serviceLeftDisabled && r.outcome !in {Reconnecting, ServiceDebt, Inert}
    ensures Receipts(allow, [], r, 0)
  {
  }

  lemma {:induction false} ConnectFromBudget(i: nat, allow: bool, already: bool, unsupported: bool, error: bool,
                                             t: Trace, r: ConnectResult)
    requires i <= 3 && ConnectFrom(i, allow, already, unsupported, error, t, r)
    ensures Receipts(allow, t, r, (3 - i) + (if i < 3 then 1 + CONNECT_REENABLE_ATTEMPTS else 0))
    decreases 3 - i
  {
    if i == 3 {
      NothingDone(allow, r);
    } else {
      var u, rest := t[1..], (2 - i) + (1 + CONNECT_REENABLE_ATTEMPTS);
      match Classify(t[0].rc) {
        case Changed => NothingDone(allow, r);
        case NotSupported => ConnectFromBudget(i + 1, allow, already, true, error, u, r);
        case AlreadyInState =>
          if allow {
            ToggleBudget(ORDER[i], u, r);
          } else {
            ConnectFromBudget(i + 1, allow, true, unsupported, error, u, r);
          }
        case Error => ConnectFromBudget(i + 1, allow, already, unsupported, true, u, r);
      }
      EnableInFront(allow, t, r, rest);
    }
  }

  /** For every behaviour of the stack: at most 12 calls and 19.9 s of waiting,
      and the receipts say exactly what happened. */
  lemma ConnectReceipts(allow: bool, t: Trace, r: ConnectResult)
    requires ConnectTrace(allow, t, r)
    ensures SetCalls(t) <= 12 && Waited(t) <= 19_900
    ensures r.toggled <==> AnyRemoval(t)
    ensures r.serviceLeftDisabled <==> r.outcome == ServiceDebt
    ensures r.toggled <==> r.outcome in {Reconnecting, ServiceDebt}
    ensures !allow ==> !AnyDisable(t) && r.outcome != Inert
  {
    ConnectFromBudget(0, allow, false, false, false, t, r);
  }

  // Every answer of the script says that the peer does not offer the profile.
  predicate AllAbsent(t: Trace) {
    forall s <- t :: s.SetState? && s.enable && Classify(s.rc) == NotSupported
  }

  /** The verdict behind the peer-absent freeze: a pass ends in `NotFound` exactly
      when all three profiles were asked for and none is offered. */
  lemma NotFoundMeansAbsent(allow: bool, t: Trace, r: ConnectResult)
    requires ConnectTrace(allow, t, r)
    ensures r.outcome == NotFound <==> |t| == 3 && AllAbsent(t)
  {
  }

  // -------------------------------------------------------------------------
  // The ledger
  // -------------------------------------------------------------------------

  /** What survives a crash: the marker file, and the profiles whose driver we
      removed and have not seen restored. */
  datatype World = World(marker: Marker, owed: set<Profile>)

  function Apply(w: World, s: IoStep): World {
    match s
    case ReadMarker(_) => w
    case Wait(_) => w
    case SetState(p, enable, rc) =>
      if enable && Restores(rc) then w.(owed := w.owed - {p})
      else if Removes(s) then w.(owed := w.owed + {p})
      else w
    case Arm(_, _, left) => w.(marker := left)
    case Clear(gone) => if gone then w.(marker := NoMarker) else w
  }

  function Replay(w: World, t: Trace): World
    decreases |t|
  {
    if t == [] then w else Replay(Apply(w, t[0]), t[1..])
  }

  /** Every owed driver is named by the marker. */
  predicate Safe(w: World) {
    forall p :: p in w.owed ==> w.marker == Names(p)
  }

  /** ... at every crash point of the script, and the marker is never rewritten
      while something is owed. */
  predicate SafeThroughout(w: World, t: Trace)
    decreases |t|
  {
    Safe(w) && (t != [] ==> (t[0].Arm? ==> w.owed == {}) && SafeThroughout(Apply(w, t[0]), t[1..]))
  }

  lemma Unrolled(w: World, t: Trace)
    requires |t| == 3 && !t[1].Arm? && !t[2].Arm? && (t[0].Arm? ==> w.owed == {})
    ensures var w1 := Apply(w, t[0]);
            var w2 := Apply(w1, t[1]);
            var w3 := Apply(w2, t[2]);
            Replay(w, t) == w3 && (SafeThroughout(w, t) <==> Safe(w) && Safe(w1) && Safe(w2) && Safe(w3))
  {
    var w1 := Apply(w, t[0]);
    var w2 := Apply(w1, t[1]);
    var u, v := t[1..], t[2..];
    assert u[1..] == v && v[1..] == [];
    assert Replay(w2, v) == Apply(w2, t[2]);
    assert SafeThroughout(w2, v) <==> Safe(w2) && Safe(Apply(w2, t[2]));
    assert Replay(w1, u) == Replay(w2, v);
    assert SafeThroughout(w1, u) <==> Safe(w1) && SafeThroughout(w2, v);
  }

  lemma {:induction false} SafeAtCut(w: World, t: Trace, n: nat)
    requires SafeThroughout(w, t) && n <= |t|
    ensures Safe(Replay(w, t[..n]))
    ensures n < |t| && t[n].Arm? ==> Replay(w, t[..n]).owed == {}
    decreases n
  {
    if n > 0 {
      assert t[..n][1..] == t[1..][..n - 1];
      SafeAtCut(Apply(w, t[0]), t[1..], n - 1);
    }
  }

  lemma {:induction false} ReplayConcat(w: World, t: Trace, u: Trace)
    ensures Replay(w, t + u) == Replay(Replay(w, t), u)
    decreases |t|
  {
    if t == [] {
      assert t + u == u;
    } else {
      assert (t + u)[1..] == t[1..] + u;
      ReplayConcat(Apply(w, t[0]), t[1..], u);
    }
  }

  lemma {:induction false} SafeConcat(w: World, t: Trace, u: Trace)
    requires SafeThroughout(w, t) && SafeThroughout(Replay(w, t), u)
    ensures SafeThroughout(w, t + u)
    decreases |t|
  {
    if t == [] {
      assert t + u == u;
    } else {
      assert (t + u)[1..] == t[1..] + u;
      SafeConcat(Apply(w, t[0]), t[1..], u);
    }
  }

  // -------------------------------------------------------------------------
  // Each part of a pass
  // -------------------------------------------------------------------------

  /** Re-enabling from a state that owes at most `p` under its own name: safe at
      every step; the debt is settled exactly when it reports success. */
  lemma {:induction false} ReenableSafe(w: World, p: Profile, attempt: nat, t: Trace, ok: bool)
    requires ReenableTrace(p, attempt, t, ok)
    requires w.owed <= {p} && (w.owed != {} ==> w.marker == Names(p))
    ensures SafeThroughout(w, t)
    ensures Replay(w, t).owed == if ok then {} else w.owed
    ensures !ok ==> Replay(w, t) == w
    decreases |t|
  {
    if attempt < CONNECT_REENABLE_ATTEMPTS {
      var u := t[1..];
      assert u[1..] == t[2..];
      if Restores(t[1].rc) {
        Unrolled(w, t);
        assert w.owed - {p} == {};
      } else {
        ReenableSafe(w, p, attempt + 1, t[2..], ok);
      }
    }
  }

  /** A toggle that starts owing nothing: safe at every step, and it owes its
      profile afterwards exactly when it says so. */
  lemma ToggleSafe(w: World, p: Profile, t: Trace, r: ConnectResult)
    requires ToggleTrace(p, t, r) && w.owed == {}
    ensures SafeThroughout(w, t)
    ensures Replay(w, t).owed == if r.outcome == ServiceDebt then {p} else {}
  {
    var w1 := Apply(w, t[0]);
    var u := t[1..];
    if t[0].ok {
      var w2 := Apply(w1, t[1]);
      assert u[1..] == t[2..];
      if Classify(t[1].rc) == Changed {
        assert w2.owed == {p};
        ReenableSafe(w2, p, 0, t[2..], r.outcome == Reconnecting);
      } else {
        Unrolled(w, t);
      }
    } else {
      assert u == [];
    }
  }

  lemma {:induction false} ConnectFromSafe(w: World, i: nat, allow: bool, already: bool, unsupported: bool,
                                           error: bool, t: Trace, r: ConnectResult)
    requires i <= 3 && ConnectFrom(i, allow, already, unsupported, error, t, r) && w.owed == {}
    ensures SafeThroughout(w, t)
    ensures Replay(w, t).owed == {} <==> !r.serviceLeftDisabled
    decreases 3 - i
  {
    if i < 3 {
      var w', u := Apply(w, t[0]), t[1..];
      assert w'.owed == {};
      match Classify(t[0].rc) {
        case Changed => assert u == [];
        case NotSupported => ConnectFromSafe(w', i + 1, allow, already, true, error, u, r);
        case AlreadyInState =>
          if allow {
            ToggleSafe(w', ORDER[i], u, r);
            ToggleBudget(ORDER[i], u, r);
          } else {
            ConnectFromSafe(w', i + 1, allow, true, unsupported, error, u, r);
          }
        case Error => ConnectFromSafe(w', i + 1, allow, already, unsupported, true, u, r);
      }
    }
  }

  // -------------------------------------------------------------------------
  // A poll pass, and runs of passes with crashes
  // -------------------------------------------------------------------------

  /** One pass as far as the marker is concerned: read it, repay what it names,
      and -- if the ladder gets that far -- connect. */
  datatype Pass = Pass(
    seen: Option<Profile>, repay: Trace, repaid: bool,
    connects: bool, allow: bool, connect: Trace, result: ConnectResult)

  function Steps(p: Pass): Trace {
    [ReadMarker(p.seen)] + (p.repay + p.connect)
  }

  /** `recover_link` connects only after the debt it saw is repaid. The two
      empty scripts stand for an export that is not available. */
  predicate Legal(p: Pass) {
    (if p.seen.Some? then
       ReenableTrace(p.seen.value, 0, p.repay, p.repaid) || (p.repay == [] && !p.repaid)
     else p.repay == [] && p.repaid)
    && (if p.connects then p.repaid && ConnectTrace(p.allow, p.connect, p.result) else p.connect == [])
  }

  /** `debt_profile`: what a readable marker file says. */
  function Readable(m: Marker): Option<Profile> {
    if m.Names? then Some(m.profile) else None
  }

  /** The recover-link skeleton of one pass. */
  method RunPass(io: ServiceIo, exportAvailable: bool, reachesConnect: bool, allow: bool) returns (ghost p: Pass)
    modifies io
    ensures Legal(p) && io.trace == old(io.trace) + Steps(p)
    ensures p.allow == allow && (p.connects ==> reachesConnect && exportAvailable)
  {
    var nothing := ConnectResult(Failed, false, false);
    var seen := io.ReadDebtMarker();
    ghost var repay: Trace := [];
    if seen.Some? {
      if !exportAvailable {
        p := Pass(seen, [], false, false, allow, [], nothing);
        assert Steps(p) == [ReadMarker(seen)];
        return;
      }
      var ok;
      ok, repay := ReenableProfile(io, seen.value);
      Regroup(old(io.trace), [ReadMarker(seen)], repay);
      if !ok {
        p := Pass(seen, repay, false, false, allow, [], nothing);
        assert repay + [] == repay;
        return;
      }
    } else {
      assert [ReadMarker(seen)] + repay == [ReadMarker(seen)];
    }
    if exportAvailable && reachesConnect {
      var r, t := DriveConnect(io, allow);
      p := Pass(seen, repay, true, true, allow, t, r);
      Regroup(old(io.trace), [ReadMarker(seen)] + repay, t);
      Regroup([ReadMarker(seen)], repay, t);
    } else {
      p := Pass(seen, repay, true, false, allow, [], nothing);
      assert repay + [] == repay;
    }
  }

  /** A pass that reads the marker as it is keeps every crash point safe. */
  lemma PassSafe(w: World, p: Pass)
    requires Safe(w) && Legal(p) && (p.seen == Readable(w.marker) || w.owed == {})
    ensures SafeThroughout(w, Steps(p))
    ensures Replay(w, [ReadMarker(p.seen)] + p.repay).owed == {} || p.connect == []
  {
    var head := [ReadMarker(p.seen)];
    assert head[1..] == [] && Replay(w, head) == w && SafeThroughout(w, head);
    var w1 := Replay(w, p.repay);
    OwedIsTheMarker(w);
    if p.seen.Some? && p.repay != [] {
      if w.owed == {} || p.seen == Readable(w.marker) {
        ReenableSafe(w, p.seen.value, 0, p.repay, p.repaid);
      }
    }
    assert SafeThroughout(w, p.repay);
    if p.connects {
      assert w1.owed == {};
      ConnectFromSafe(w1, 0, p.allow, false, false, false, p.connect, p.result);
    }
    SafeConcat(w, p.repay, p.connect);
    SafeConcat(w, head, p.repay + p.connect);
    ReplayConcat(w, head, p.repay);
  }

  lemma OwedIsTheMarker(w: World)
    requires Safe(w)
    ensures w.owed == {} || (w.marker.Names? && w.owed == {w.marker.profile})
  {
    if w.owed != {} {
      var p :| p in w.owed;
      forall q | q in w.owed ensures q == p {}
    }
  }

  /** A pass, or the part of it that ran before a crash. */
  datatype Attempt = Attempt(pass: Pass, cut: nat)

  function Executed(a: Attempt): Trace
    requires a.cut <= |Steps(a.pass)|
  {
    Steps(a.pass)[..a.cut]
  }

  /** A run of the daemon over crashes and restarts. */
  predicate LegalRun(w: World, run: seq<Attempt>)
    decreases |run|
  {
    run == []
    || (Legal(run[0].pass) && run[0].cut <= |Steps(run[0].pass)|
        && (run[0].cut > 0 ==> run[0].pass.seen == Readable(w.marker))
        && LegalRun(Replay(w, Executed(run[0])), run[1..]))
  }

  function RunWorld(w: World, run: seq<Attempt>): World
    requires LegalRun(w, run)
    decreases |run|
  {
    if run == [] then w else RunWorld(Replay(w, Executed(run[0])), run[1..])
  }

  /** CRASH SAFETY: in every run, with a crash allowed between any two IO steps
      of any pass, whatever the stack answers, each driver that is removed and
      not restored is named by the marker on disk. */
  lemma {:induction false} CrashSafety(w: World, run: seq<Attempt>)
    requires Safe(w) && LegalRun(w, run)
    ensures Safe(RunWorld(w, run))
    decreases |run|
  {
    if run != [] {
      var a := run[0];
      if a.cut == 0 {
        assert Executed(a) == [];
      } else {
        PassSafe(w, a.pass);
        SafeAtCut(w, Steps(a.pass), a.cut);
      }
      CrashSafety(Replay(w, Executed(a)), run[1..]);
    }
  }

  /** ... and at every moment before: the marker is never overwritten while a
      profile is owed. */
  lemma NeverOverwritten(w: World, p: Pass, n: nat)
    requires Safe(w) && Legal(p) && p.seen == Readable(w.marker)
    requires n < |Steps(p)| && Steps(p)[n].Arm?
    ensures Replay(w, Steps(p)[..n]).owed == {}
  {
    PassSafe(w, p);
    SafeAtCut(w, Steps(p), n);
  }

  // -------------------------------------------------------------------------
  // A marker that cannot be read counts as no marker at all
  // -------------------------------------------------------------------------

  // Plain enables can only restore drivers.
  lemma {:induction false} PlainConnectSafe(w: World, i: nat, already: bool, unsupported: bool, error: bool,
                                            t: Trace, r: ConnectResult)
    requires i <= 3 && ConnectFrom(i, false, already, unsupported, error, t, r) && Safe(w)
    ensures SafeThroughout(w, t)
    decreases 3 - i
  {
    if i < 3 {
      var w', u := Apply(w, t[0]), t[1..];
      match Classify(t[0].rc) {
        case Changed => assert u == [];
        case NotSupported => PlainConnectSafe(w', i + 1, already, true, error, u, r);
        case AlreadyInState => PlainConnectSafe(w', i + 1, true, unsupported, error, u, r);
        case Error => PlainConnectSafe(w', i + 1, already, unsupported, true, u, r);
      }
    }
  }

  // The stack's answers that make a toggle of another profile take over the
  // marker of `q`.
  function Takeover(q: Profile): Trace {
    if q == A2dp then
      [SetState(A2dp, true, 5), SetState(Hfp, true, E_INVALIDARG), Arm(Hfp, true, Names(Hfp)),
       SetState(Hfp, false, 5), Clear(true)]
    else
      [SetState(A2dp, true, E_INVALIDARG), Arm(A2dp, true, Names(A2dp)), SetState(A2dp, false, 5), Clear(true)]
  }

  lemma TakeoverIsAPass(q: Profile)
    ensures ConnectTrace(true, Takeover(q), ConnectResult(Failed, false, false))
  {
    var t, r := Takeover(q), ConnectResult(Failed, false, false);
    if q == A2dp {
      assert ToggleTrace(Hfp, t[1..][1..], r);
      assert ConnectFrom(1, true, false, false, true, t[1..], r);
    } else {
      assert ToggleTrace(A2dp, t[1..], r);
    }
  }

  lemma TakeoverLosesDebt(w: World, q: Profile)
    requires w == World(Names(q), {q})
    ensures !SafeThroughout(w, Takeover(q))
  {
    var t := Takeover(q);
    if SafeThroughout(w, t) {
      var n := if q == A2dp then 2 else 1;
      if q == A2dp {
        var two := t[..2];
        assert two[1..] == [t[1]] && [t[1]][1..] == [];
        assert Apply(w, t[0]) == w && q in Apply(w, t[1]).owed;
        assert Replay(w, [t[1]]) == Apply(w, t[1]);
        assert Replay(w, two) == Replay(w, [t[1]]);
      } else {
        var one := t[..1];
        assert one[1..] == [] && q in Apply(w, t[0]).owed;
        assert Replay(w, one) == Apply(w, t[0]);
      }
      SafeAtCut(w, t, n);
    }
  }

  ghost predicate AllPassesSafe(w: World, seen: Option<Profile>, allow: bool) {
    forall p: Pass :: Legal(p) && p.seen == seen && p.allow == allow ==> SafeThroughout(w, Steps(p))
  }

  /** Exactly when a pass is crash safe whatever the stack does: the marker was
      read as it is, or nothing is owed, or the pass may not toggle. A debt
      whose marker cannot be read is lost to the toggle of another profile. */
  lemma SafeIffMarkerRead(w: World, seen: Option<Profile>, allow: bool)
    requires Safe(w) && (seen == Readable(w.marker) || seen == None)
    ensures AllPassesSafe(w, seen, allow) <==> seen == Readable(w.marker) || w.owed == {} || !allow
  {
    OwedIsTheMarker(w);
    if seen == Readable(w.marker) || w.owed == {} || !allow {
      forall p: Pass | Legal(p) && p.seen == seen && p.allow == allow
        ensures SafeThroughout(w, Steps(p))
      {
        if seen == Readable(w.marker) || w.owed == {} {
          PassSafe(w, p);
        } else {
          UnreadablePlainPass(w, p);
        }
      }
    } else {
      var q := w.marker.profile;
      var t := Takeover(q);
      var p := Pass(None, [], true, true, true, t, ConnectResult(Failed, false, false));
      TakeoverIsAPass(q);
      TakeoverLosesDebt(w, q);
      assert Legal(p);
      assert [] + t == t && Steps(p)[1..] == t;
      assert !SafeThroughout(w, Steps(p));
    }
  }

  lemma UnreadablePlainPass(w: World, p: Pass)
    requires Safe(w) && Legal(p) && p.seen == None && !p.allow
    ensures SafeThroughout(w, Steps(p))
  {
    if p.connects {
      PlainConnectSafe(w, 0, false, false, false, p.connect, p.result);
    }
    assert p.repay + p.connect == p.connect && Steps(p)[1..] == p.connect;
  }
}
