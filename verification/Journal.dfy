/** The devnode journal: the file, the IO steps around it, and what crash safety
    means. `UsbCycle`, `PortCycle` and `Recovery` hold the users of the journal,
    `JournalRuns` what runs of them keep.

    A devnode disable outlives the process, so a marker file must be on disk
    whenever the daemon may have taken a radio down and has not seen it STARTED
    since -- at every point where the process could be killed. */
module Journal {
  import opened Wrappers

  const CM_PROB_DISABLED: nat := 22

  /** The two status bits the source looks at, and the problem code. */
  datatype Status = Status(startedBit: bool, problemBit: bool, problem: nat)

  predicate MeansDisabled(s: Status) {
    s.problemBit && s.problem == CM_PROB_DISABLED
  }

  predicate MeansStarted(s: Status) {
    s.startedBit && !s.problemBit && s.problem == 0
  }

  const STARTED: Status := Status(true, false, 0)
  const DISABLED: Status := Status(false, true, CM_PROB_DISABLED)

  /** `radio_needs_repair`: a deliberate user disable is only ours to undo when
      the journal says so. */
  predicate RadioNeedsRepair(s: Status, owns: bool) {
    !MeansStarted(s) && (MeansDisabled(s) ==> owns)
  }

  /** One enumerated devnode; `csr` when its instance ID could be read and
      belongs to the dongle. */
  datatype Node = Node(id: nat, csr: bool)

  // -------------------------------------------------------------------------
  // The world and its IO steps
  // -------------------------------------------------------------------------

  datatype Step =
    | ReadJournal(present: bool)
    | ArmJournal(ok: bool, onDisk: bool)
    | DisarmJournal(gone: bool)
    | Observe(node: nat, status: Option<Status>)
    | RestartDevice(node: nat)                // pnputil /restart-device of a running radio
    | RepairVerb(node: nat)                   // pnputil on a radio found not started
    | Change(node: nat, enable: bool, ok: bool)
    | CmDisable(node: nat, ok: bool)
    | CmEnable(node: nat, ok: bool)
    | WriteCycleOff
    | FindRadio(found: bool)                  // is any CSR radio enumerated?
    | CyclePort(cycled: bool)                 // power-cycle the hub port of the dongle
    | Sleep(ms: nat)

  /** The journal file, and the radios we may have taken down and have not seen
      STARTED since. */
  datatype World = World(journal: bool, atRisk: set<nat>)

  predicate TakesDown(s: Step) {
    s.RestartDevice? || s.CmDisable? || (s.Change? && !s.enable)
  }

  predicate SeesStarted(s: Step) {
    s.Observe? && s.status.Some? && MeansStarted(s.status.value)
  }

  function Apply(w: World, s: Step): World {
    if TakesDown(s) then w.(atRisk := w.atRisk + {s.node})
    else if SeesStarted(s) then w.(atRisk := w.atRisk - {s.node})
    else if s.ArmJournal? then w.(journal := w.journal || s.onDisk)
    else if s.DisarmJournal? then w.(journal := w.journal && !s.gone)
    else w
  }

  predicate Safe(w: World) {
    w.atRisk != {} ==> w.journal
  }

  function Replay(w: World, t: seq<Step>): World {
    if t == [] then w else Apply(Replay(w, t[..|t| - 1]), t[|t| - 1])
  }

  /** A kill after any number of steps leaves a safe world (`CrashSafeMeans`). */
  predicate CrashSafe(w: World, t: seq<Step>) {
    Safe(Replay(w, t)) && (t == [] || CrashSafe(w, t[..|t| - 1]))
  }

  lemma {:induction false} CrashSafeMeans(w: World, t: seq<Step>)
    ensures CrashSafe(w, t) <==> forall n :: 0 <= n <= |t| ==> Safe(Replay(w, t[..n]))
  {
    assert t[..|t|] == t;
    if t != [] {
      var u := t[..|t| - 1];
      CrashSafeMeans(w, u);
      assert forall n :: 0 <= n <= |u| ==> u[..n] == t[..n];
    }
  }

  /** The last step observed `node` STARTED. */
  predicate SeenLast(t: seq<Step>, node: nat) {
    t != [] && SeesStarted(t[|t| - 1]) && t[|t| - 1].node == node
  }

  /** Both at once: the world after the steps, and whether every crash point on
      the way was safe. */
  function Audit(w: World, t: seq<Step>): (World, bool) {
    if t == [] then (w, Safe(w))
    else
      var (x, ok) := Audit(w, t[..|t| - 1]);
      var y := Apply(x, t[|t| - 1]);
      (y, ok && Safe(y))
  }

  lemma {:induction false} AuditMeans(w: World, t: seq<Step>)
    ensures Audit(w, t) == (Replay(w, t), CrashSafe(w, t))
  {
    if t != [] {
      AuditMeans(w, t[..|t| - 1]);
    }
  }

  lemma AuditSnoc(w: World, t: seq<Step>, s: Step)
    ensures var y := Apply(Audit(w, t).0, s); Audit(w, t + [s]) == (y, Audit(w, t).1 && Safe(y))
  {
    assert (t + [s])[..|t|] == t;
  }

  /** A stretch in the middle of a run is judged from the world it starts in. */
  lemma {:induction false} AuditConcat(w: World, t: seq<Step>, u: seq<Step>)
    ensures var x := Audit(w, t).0;
            Audit(w, t + u) == (Replay(x, u), Audit(w, t).1 && CrashSafe(x, u))
    decreases |u|
  {
    if u == [] {
      assert t + u == t;
      assert t != [] ==> Audit(w, t).1 ==> Safe(Audit(w, t).0);
    } else {
      var v := u[..|u| - 1];
      assert (t + u)[..|t + u| - 1] == t + v;
      AuditConcat(w, t, v);
    }
  }

  /** The outside world. Every answer is arbitrary, except that the journal file
      is what was last made of it. `start` is the world before the first step,
      `safe` says that no crash point so far was unsafe. */
  class PnpIo {
    ghost const start: World
    ghost var trace: seq<Step>
    ghost var world: World
    ghost var safe: bool
    var journalFile: bool

    ghost predicate Valid()
      reads this
    {
      Audit(start, trace) == (world, safe) && world.journal == journalFile && (safe ==> Safe(world))
    }

    constructor (journal: bool, ghost atRisk: set<nat>)
      requires atRisk != {} ==> journal
      ensures Valid() && trace == [] && world == start == World(journal, atRisk) && safe
    {
      start, trace, world, safe := World(journal, atRisk), [], World(journal, atRisk), true;
      journalFile := journal;
    }

    // `s` was the only step since the old state.
    twostate predicate Took(s: Step)
      reads this
    {
      trace == old(trace) + [s] && world == Apply(old(world), s) && (safe <==> old(safe) && Safe(world))
    }

    method Record(ghost s: Step, file: bool)
      requires Valid() && file == Apply(world, s).journal
      modifies this
      ensures Valid() && Took(s)
    {
      AuditSnoc(start, trace, s);
      trace := trace + [s];
      world := Apply(world, s);
      safe := safe && Safe(world);
      journalFile := file;
    }

    /** `journal_present`: a file that cannot be examined counts as absent. */
    method JournalPresent() returns (present: bool)
      requires Valid()
      modifies this
      ensures Valid() && Took(ReadJournal(present)) && (present ==> old(world.journal))
    {
      present := *;
      present := present && journalFile;
      Record(ReadJournal(present), journalFile);
    }

    /** `journal_arm`: false unless the marker is on disk; never removes it. */
    method JournalArm() returns (ok: bool)
      requires Valid()
      modifies this
      ensures Valid() && exists onDisk :: (ok ==> onDisk) && Took(ArmJournal(ok, onDisk))
    {
      ok := *;
      var onDisk: bool := *;
      onDisk := onDisk || ok;
      Record(ArmJournal(ok, onDisk), journalFile || onDisk);
      assert (ok ==> onDisk) && Took(ArmJournal(ok, onDisk));
    }

    /** `journal_disarm`: the removal may fail. */
    method JournalDisarm()
      requires Valid()
      modifies this
      ensures Valid() && exists gone :: Took(DisarmJournal(gone))
    {
      var gone: bool := *;
      Record(DisarmJournal(gone), journalFile && !gone);
      assert Took(DisarmJournal(gone));
    }

    method DevnodeStatus(node: nat) returns (s: Option<Status>)
      requires Valid()
      modifies this
      ensures Valid() && Took(Observe(node, s))
    {
      s := *;
      Record(Observe(node, s), journalFile);
    }

    method PnputilRestart(node: nat) returns (code: Option<nat>, took: int)
      requires Valid()
      modifies this
      ensures Valid() && Took(RestartDevice(node))
    {
      code, took := *, *;
      Record(RestartDevice(node), journalFile);
    }

    method PnputilRepair(node: nat)
      requires Valid()
      modifies this
      ensures Valid() && Took(RepairVerb(node))
    {
      Record(RepairVerb(node), journalFile);
    }

    method PropChange(node: nat, enable: bool) returns (ok: bool)
      requires Valid()
      modifies this
      ensures Valid() && Took(Change(node, enable, ok))
    {
      ok := *;
      Record(Change(node, enable, ok), journalFile);
    }

    method DisableDevnode(node: nat) returns (ok: bool)
      requires Valid()
      modifies this
      ensures Valid() && Took(CmDisable(node, ok))
    {
      ok := *;
      Record(CmDisable(node, ok), journalFile);
    }

    method EnableDevnode(node: nat) returns (ok: bool)
      requires Valid()
      modifies this
      ensures Valid() && Took(CmEnable(node, ok))
    {
      ok := *;
      Record(CmEnable(node, ok), journalFile);
    }

    method CycleOffWrite()
      requires Valid()
      modifies this
      ensures Valid() && Took(WriteCycleOff)
    {
      Record(WriteCycleOff, journalFile);
    }

    method RadioPresent() returns (found: bool)
      requires Valid()
      modifies this
      ensures Valid() && Took(FindRadio(found))
    {
      found := *;
      Record(FindRadio(found), journalFile);
    }

    method WalkHubPorts() returns (cycled: bool)
      requires Valid()
      modifies this
      ensures Valid() && Took(CyclePort(cycled))
    {
      cycled := *;
      Record(CyclePort(cycled), journalFile);
    }

    method Pause(ms: nat)
      requires Valid()
      modifies this
      ensures Valid() && Took(Sleep(ms))
    {
      Record(Sleep(ms), journalFile);
    }
  }

  lemma CrashSafeSnoc(w: World, t: seq<Step>, s: Step)
    ensures Replay(w, t + [s]) == Apply(Replay(w, t), s)
    ensures CrashSafe(w, t + [s]) <==> CrashSafe(w, t) && Safe(Apply(Replay(w, t), s))
  {
    assert (t + [s])[..|t|] == t;
  }

  lemma {:induction false} FirstIsSafe(w: World, t: seq<Step>)
    ensures CrashSafe(w, t) ==> Safe(w)
    decreases |t|
  {
    if t != [] {
      FirstIsSafe(w, t[..|t| - 1]);
    }
  }

  lemma ArmFirst(w: World, s: Step, t: seq<Step>)
    requires Safe(w)
    ensures Replay(w, [s] + t) == Replay(Apply(w, s), t)
    ensures CrashSafe(w, [s] + t) <==> CrashSafe(Apply(w, s), t)
  {
    assert [s][..0] == [];
    AuditMeans(w, [s]);
    AuditMeans(w, [s] + t);
    AuditConcat(w, [s], t);
    FirstIsSafe(Apply(w, s), t);
  }

  lemma Reassociate(a: seq<Step>, b: seq<Step>, c: seq<Step>)
    ensures a + b + c == a + (b + c)
  {
  }

  lemma NothingYet(t: seq<Step>)
    ensures t + [] == t
  {
  }

  /** `wait_devnode_started`: poll until STARTED is observed or time is up. */

  // -------------------------------------------------------------------------
  // Quiet scripts
  // -------------------------------------------------------------------------

  // A step that neither takes a radio down nor touches the journal.
  predicate Quiet(s: Step) {
    !TakesDown(s) && !s.ArmJournal? && !s.DisarmJournal?
  }

  /** Quiet steps that lead from `w` to `y`. */
  predicate Leads(w: World, t: seq<Step>, y: World) {
    Replay(w, t) == y && forall i :: 0 <= i < |t| ==> Quiet(t[i])
  }

  lemma {:induction false} LeadsConcat(w: World, t: seq<Step>, x: World, u: seq<Step>, y: World)
    requires Leads(w, t, x) && Leads(x, u, y)
    ensures Leads(w, t + u, y)
    decreases |u|
  {
    if u == [] {
      assert t + u == t;
    } else {
      var v := u[..|u| - 1];
      assert (t + u)[..|t + u| - 1] == t + v;
      LeadsConcat(w, t, x, v, Replay(x, v));
    }
  }

  lemma One(w: World, s: Step)
    requires Quiet(s)
    ensures Leads(w, [s], Apply(w, s))
  {
    assert [s][..0] == [];
  }

  lemma {:induction false} QuietIsCrashSafe(w: World, t: seq<Step>, y: World)
    requires Leads(w, t, y) && Safe(w)
    ensures CrashSafe(w, t) && y.journal == w.journal && y.atRisk <= w.atRisk
    decreases |t|
  {
    if t != [] {
      QuietIsCrashSafe(w, t[..|t| - 1], Replay(w, t[..|t| - 1]));
    }
  }

  function Without(w: World, node: nat, seen: bool): World {
    if seen then w.(atRisk := w.atRisk - {node}) else w
  }
}
