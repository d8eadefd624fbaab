/** Runs of usb-cycles, port cycles and repair passes over one journal file, with a
    crash and a restart anywhere. */
module JournalRuns {
  import opened Journal
  import opened PortCycle
  import opened Recovery
  import opened UsbCycle
  import opened Wrappers

  /** One call, with everything the system answered. */
  datatype Job =
    | Cycling(devs: Option<seq<Node>>, pnputil: bool, cycle: Cycle)
    | Repairing(request: Request, pass: Pass)
    | PortCycling(port: Port)

  predicate LegalJob(x: Job) {
    match x
    case Cycling(_, pnputil, c) => LegalCycle(c, pnputil)
    case Repairing(q, p) => LegalPass(q, p)
    case PortCycling(p) => LegalPort(p)
  }

  function JobSteps(x: Job): seq<Step>
    requires LegalJob(x)
  {
    match x
    case Cycling(devs, _, c) => CallSteps(devs, c)
    case Repairing(q, p) => PassSteps(q, p)
    case PortCycling(p) => PortSteps(p)
  }

  /** A call, or the part of it that ran before a crash. */
  datatype Attempt = Attempt(job: Job, cut: nat)

  predicate LegalAttempt(w: World, a: Attempt) {
    LegalJob(a.job) && a.cut <= |JobSteps(a.job)|
    && (a.job.Repairing? && a.job.pass.journal ==> w.journal)
  }

  function After(w: World, a: Attempt): World {
    if LegalAttempt(w, a) then Replay(w, JobSteps(a.job)[..a.cut]) else w
  }

  /** A run over crashes and restarts. */
  predicate LegalRun(w: World, run: seq<Attempt>)
    decreases |run|
  {
    run == [] || (LegalAttempt(w, run[0]) && LegalRun(After(w, run[0]), run[1..]))
  }

  function RunWorld(w: World, run: seq<Attempt>): World
    decreases |run|
  {
    if run == [] then w else RunWorld(After(w, run[0]), run[1..])
  }

  // -------------------------------------------------------------------------
  // What a run must not meet
  // -------------------------------------------------------------------------

  /** A cycle starts with no other radio at risk, a port cycle with none, and a repair
      pass that lists a radio has all those at risk in plain sight: the conditions of
      `AllCyclesSafeIff`, `AllPortsSafeIff` and `AllPassesSafeIff`. */
  predicate Guarded(w: World, x: Job) {
    match x
    case Cycling(devs, _, _) => Target(devs).None? || w.atRisk <= {Target(devs).value}
    case Repairing(q, p) => q.Listed() == [] || forall n <- w.atRisk :: InPlainSight(q, p, n)
    case PortCycling(p) => !p.present || w.atRisk == {}
  }

  predicate GuardedRun(w: World, run: seq<Attempt>)
    decreases |run|
  {
    run == [] || (Guarded(w, run[0].job) && GuardedRun(After(w, run[0]), run[1..]))
  }

  lemma GuardedIsSafe(w: World, a: Attempt)
    requires Safe(w) && LegalAttempt(w, a) && Guarded(w, a.job)
    ensures Safe(After(w, a))
  {
    match a.job {
      case Cycling(devs, pnputil, c) =>
        if Target(devs).Some? {
          CycleSafe(w, Target(devs).value, c, pnputil);
        }
      case Repairing(q, p) => PlainSightIsEnough(w, q, p);
      case PortCycling(p) => PortSafe(w, p);
    }
    CrashSafeMeans(w, JobSteps(a.job));
  }

  /** CRASH SAFETY OVER RUNS: whatever the system answers, and with a crash between
      any two IO steps, a radio that may be down is covered by the journal on disk. */
  lemma {:induction false} RunsAreSafe(w: World, run: seq<Attempt>)
    requires Safe(w) && LegalRun(w, run) && GuardedRun(w, run)
    ensures Safe(RunWorld(w, run))
    decreases |run|
  {
    if run != [] {
      GuardedIsSafe(w, run[0]);
      RunsAreSafe(After(w, run[0]), run[1..]);
    }
  }

  // -------------------------------------------------------------------------
  // One dongle, or more
  // -------------------------------------------------------------------------

  predicate Enumerates(devs: seq<Node>, radios: set<nat>) {
    forall d <- devs :: d.csr ==> d.id in radios
  }

  /** A call on a machine where only `radios` are ever plugged in, not necessarily all
      of them, whose journal file and statuses can be read. A port is cycled only
      without a journal, as rung 0 demands of every rung. */
  predicate OnMachine(radios: set<nat>, w: World, x: Job) {
    match x
    case Cycling(devs, _, _) => devs.Some? ==> Enumerates(devs.value, radios)
    case Repairing(q, p) =>
      (q.devs.Some? ==> Enumerates(q.devs.value, radios))
      && p.journal == w.journal && forall x <- p.repairs :: x.first.Some?
    case PortCycling(p) => !p.present || !w.journal
  }

  predicate RunOnMachine(radios: set<nat>, w: World, run: seq<Attempt>)
    decreases |run|
  {
    run == [] || (OnMachine(radios, w, run[0].job) && RunOnMachine(radios, After(w, run[0]), run[1..]))
  }

  lemma {:induction false} TargetIsEnumerated(devs: seq<Node>, radios: set<nat>)
    requires Enumerates(devs, radios)
    ensures FirstCsr(devs).Some? ==> FirstCsr(devs).value in radios
    decreases |devs|
  {
    if devs != [] {
      assert devs[0] in devs;
      TargetIsEnumerated(devs[1..], radios);
    }
  }

  lemma {:induction false} ListedAreEnumerated(devs: seq<Node>, radios: set<nat>)
    requires Enumerates(devs, radios)
    ensures forall n <- Radios(devs) :: n in radios
    decreases |devs|
  {
    if devs != [] {
      assert devs[|devs| - 1] in devs;
      ListedAreEnumerated(devs[..|devs| - 1], radios);
    }
  }

  // Only the target of a cycle can come to be at risk.
  lemma {:induction false} LocalRisk(w: World, t: seq<Step>, node: nat)
    requires Local(t, node)
    ensures Replay(w, t).atRisk <= w.atRisk + {node}
    decreases |t|
  {
    if t != [] {
      LocalRisk(w, t[..|t| - 1], node);
      assert t[|t| - 1] in t;
    }
  }

  predicate TakesNoneDown(t: seq<Step>) {
    forall s <- t :: !TakesDown(s)
  }

  lemma {:induction false} NoRisk(w: World, t: seq<Step>)
    requires TakesNoneDown(t)
    ensures Replay(w, t).atRisk <= w.atRisk
    decreases |t|
  {
    if t != [] {
      NoRisk(w, t[..|t| - 1]);
      assert t[|t| - 1] in t;
    }
  }

  lemma PassTakesNoneDown(q: Request, p: Pass)
    requires LegalPass(q, p)
    ensures TakesNoneDown(PassSteps(q, p))
  {
    BeforeClosingLeads(World(true, {}), q, p);
    assert TakesNoneDown(BeforeClosing(q, p)) && TakesNoneDown(Closing(q, p));
  }

  lemma PortTakesNoneDown(p: Port)
    ensures TakesNoneDown(PortSteps(p))
  {
    WalkLeads(World(true, {}), p);
    assert TakesNoneDown(WalkSteps(p)) && TakesNoneDown(ArmSteps(p)) && TakesNoneDown(EndSteps(p));
  }

  lemma RiskStaysOnMachine(radios: set<nat>, w: World, a: Attempt)
    requires LegalAttempt(w, a) && OnMachine(radios, w, a.job) && w.atRisk <= radios
    ensures After(w, a).atRisk <= radios
  {
    match a.job {
      case Cycling(devs, pnputil, c) =>
        if Target(devs).Some? {
          TargetIsEnumerated(devs.value, radios);
          CycleIsLocal(Target(devs).value, c, pnputil);
          LocalPrefix(JobSteps(a.job), Target(devs).value, a.cut);
          LocalRisk(w, JobSteps(a.job)[..a.cut], Target(devs).value);
        }
      case Repairing(q, p) =>
        PassTakesNoneDown(q, p);
        assert TakesNoneDown(JobSteps(a.job)[..a.cut]);
        NoRisk(w, JobSteps(a.job)[..a.cut]);
      case PortCycling(p) =>
        PortTakesNoneDown(p);
        assert TakesNoneDown(JobSteps(a.job)[..a.cut]);
        NoRisk(w, JobSteps(a.job)[..a.cut]);
    }
  }

  predicate AtMostOne(radios: set<nat>) {
    forall a <- radios, b <- radios :: a == b
  }

  lemma OneIsGuarded(radios: set<nat>, w: World, x: Job)
    requires Safe(w) && LegalJob(x) && OnMachine(radios, w, x) && w.atRisk <= radios && AtMostOne(radios)
    ensures Guarded(w, x)
  {
    match x
    case Cycling(devs, _, _) =>
      if devs.Some? {
        TargetIsEnumerated(devs.value, radios);
      }
    case Repairing(q, p) =>
      if q.Listed() != [] {
        ListedAreEnumerated(q.devs.value, radios);
        assert q.Listed()[0] in q.Listed() && p.repairs[0] in p.repairs;
        assert forall n <- w.atRisk :: q.Listed()[0] == n;
      }
    case PortCycling(_) =>
  }

  lemma {:induction false} OneIsSafe(radios: set<nat>, w: World, run: seq<Attempt>)
    requires Safe(w) && LegalRun(w, run) && RunOnMachine(radios, w, run)
    requires w.atRisk <= radios && AtMostOne(radios)
    ensures Safe(RunWorld(w, run))
    decreases |run|
  {
    if run != [] {
      OneIsGuarded(radios, w, run[0].job);
      GuardedIsSafe(w, run[0]);
      RiskStaysOnMachine(radios, w, run[0]);
      OneIsSafe(radios, After(w, run[0]), run[1..]);
    }
  }

  const CLEAN: World := World(false, {})

  /** A machine on which no run, from a clean start, ever leaves a radio uncovered. */
  ghost predicate AllRunsSafe(radios: set<nat>) {
    forall run: seq<Attempt> | LegalRun(CLEAN, run) && RunOnMachine(radios, CLEAN, run) ::
      Safe(RunWorld(CLEAN, run))
  }

  // A cycle of `a` that is killed while the radio restarts.
  function KilledCycle(a: nat): Attempt {
    Attempt(Cycling(Some([Node(a, true)]), true, HarmlessCycle(true)), 2)
  }

  lemma KilledCycleLeavesRisk(a: nat)
    ensures LegalAttempt(CLEAN, KilledCycle(a)) && After(CLEAN, KilledCycle(a)) == World(true, {a})
  {
    HarmlessIsLegal(true);
    var t := JobSteps(KilledCycle(a).job);
    assert t[0] == ArmJournal(true, true) && t[1] == RestartDevice(a);
    assert t[..2] == [ArmJournal(true, true)] + [RestartDevice(a)];
    ArmFirst(CLEAN, ArmJournal(true, true), [RestartDevice(a)]);
    assert [RestartDevice(a)][..0] == [];
    assert Replay(World(true, {}), [RestartDevice(a)]) == World(true, {a});
  }

  lemma OneAttempt(radios: set<nat>, w: World, x: Attempt)
    requires LegalAttempt(w, x) && OnMachine(radios, w, x.job)
    ensures LegalRun(w, [x]) && RunOnMachine(radios, w, [x]) && RunWorld(w, [x]) == After(w, x)
  {
    var run := [x];
    assert run[0] == x && run[1..] == [];
    assert RunWorld(After(w, x), run[1..]) == After(w, x);
  }

  lemma TwoAttempts(radios: set<nat>, w: World, x: Attempt, y: Attempt)
    requires LegalAttempt(w, x) && OnMachine(radios, w, x.job)
    requires LegalAttempt(After(w, x), y) && OnMachine(radios, After(w, x), y.job)
    ensures LegalRun(w, [x, y]) && RunOnMachine(radios, w, [x, y]) && RunWorld(w, [x, y]) == After(After(w, x), y)
  {
    OneAttempt(radios, After(w, x), y);
    var run := [x, y];
    assert run[0] == x && run[1..] == [y];
  }

  // The automatic repair pass on a machine that lists only `b`.
  function Plugged(b: nat): Request {
    Request(Some([Node(b, true)]), true, false, true)
  }

  lemma PluggedIsListed(b: nat)
    ensures Plugged(b).Listed() == [b]
  {
    assert [Node(b, true)][..0] == [];
    assert Radios([Node(b, true)]) == [] + [b];
  }

  lemma NextPassForgets(a: nat, b: nat) returns (y: Attempt)
    requires a != b
    ensures LegalAttempt(World(true, {a}), y) && OnMachine({a, b}, World(true, {a}), y.job)
    ensures !Safe(After(World(true, {a}), y))
  {
    var w := World(true, {a});
    PluggedIsListed(b);
    var p := UnpluggedRadioIsForgotten(w, Plugged(b), a);
    UncoveredAtTheEnd(w, Plugged(b), p);
    y := Attempt(Repairing(Plugged(b), p), |PassSteps(Plugged(b), p)|);
  }

  /** Two radios are too many: one is cycled and the process killed, the dongle is
      replaced by the other, and the next repair pass removes the journal. */
  lemma TwoAreTooMany(a: nat, b: nat) returns (run: seq<Attempt>)
    requires a != b
    ensures LegalRun(CLEAN, run) && RunOnMachine({a, b}, CLEAN, run) && |run| == 2
    ensures !Safe(RunWorld(CLEAN, run))
  {
    KilledCycleLeavesRisk(a);
    var y := NextPassForgets(a, b);
    TwoAttempts({a, b}, CLEAN, KilledCycle(a), y);
    run := [KilledCycle(a), y];
  }

  // What is safe up to the removal of the journal is unsafe after it.
  lemma UncoveredAtTheEnd(w: World, q: Request, p: Pass)
    requires Safe(w) && LegalPass(q, p) && CrashSafe(w, BeforeClosing(q, p)) && !CrashSafe(w, PassSteps(q, p))
    ensures !Safe(Replay(w, PassSteps(q, p)))
    ensures PassSteps(q, p)[..|PassSteps(q, p)|] == PassSteps(q, p)
  {
    Closed(w, q, p);
  }

  lemma OnLargerMachine(a: set<nat>, b: set<nat>, w: World, run: seq<Attempt>)
    requires a <= b && LegalRun(w, run) && RunOnMachine(a, w, run)
    ensures RunOnMachine(b, w, run)
    decreases |run|
  {
    if run != [] {
      OnLargerMachine(a, b, After(w, run[0]), run[1..]);
    }
  }

  lemma AtMostOneCounts(radios: set<nat>)
    ensures AtMostOne(radios) <==> |radios| <= 1
  {
    if radios != {} {
      var a :| a in radios;
      if AtMostOne(radios) {
        assert radios == {a};
      } else {
        var b, c :| b in radios && c in radios && b != c;
        assert {b, c} <= radios;
        assert |radios| == |{b, c}| + |radios - {b, c}|;
      }
    }
  }

  /** EXACTLY WHEN ONE JOURNAL IS ENOUGH: with readable files and statuses, every run
      of the three is crash safe if and only if at most one CSR radio is ever plugged
      in. */
  lemma {:induction false} OneJournalIsEnoughIff(radios: set<nat>)
    ensures AllRunsSafe(radios) <==> |radios| <= 1
  {
    AtMostOneCounts(radios);
    if AtMostOne(radios) {
      forall run: seq<Attempt> | LegalRun(CLEAN, run) && RunOnMachine(radios, CLEAN, run)
        ensures Safe(RunWorld(CLEAN, run))
      {
        OneIsSafe(radios, CLEAN, run);
      }
    } else {
      var a, b :| a in radios && b in radios && a != b;
      var run := TwoAreTooMany(a, b);
      OnLargerMachine({a, b}, radios, CLEAN, run);
    }
  }
}
